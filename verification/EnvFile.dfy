/** The env-file parser and writer of ui/env_writer.py. */
module EnvFile {
  import opened Options
  import opened Text

  /** A dict in insertion order. */
  type Env = seq<(string, string)>

  const TOKEN_KEY := "ISALES_EDGE_DEVICE_TOKEN"
  const ENDPOINT_KEY := "ISALES_CLOUD_GRPC_ENDPOINT"
  const TOKEN_MIN_LEN: nat := 16
  const TOKEN_MAX_LEN: nat := 512

  function Keys(env: Env): set<string> {
    set i | 0 <= i < |env| :: env[i].0
  }

  function Lookup(env: Env, key: string): Option<string> {
    if env == [] then None else if env[0].0 == key then Some(env[0].1) else Lookup(env[1..], key)
  }

  /** env[key] = value: in place for a known key, at the end for a new one. */
  function Assign(env: Env, key: string, value: string): Env {
    if env == [] then [(key, value)]
    else if env[0].0 == key then [(key, value)] + env[1..]
    else [env[0]] + Assign(env[1..], key, value)
  }

  // ----- Reading --------------------------------------------------------------------

  /** The line boundaries of str.splitlines(). */
  predicate IsBreak(c: char) {
    || '\n' <= c <= '\r' || '\U{1c}' <= c <= '\U{1e}' || c == '\U{85}' || c == '\U{2028}' || c == '\U{2029}'
  }

  function FirstBreak(s: string): (r: Option<nat>)
    ensures r.Some? ==> r.value < |s| && IsBreak(s[r.value]) && forall i :: 0 <= i < r.value ==> !IsBreak(s[i])
    ensures r.None? ==> forall i :: 0 <= i < |s| ==> !IsBreak(s[i])
  {
    if s == "" then None
    else if IsBreak(s[0]) then Some(0)
    else
      match FirstBreak(s[1..])
      case None => None
      case Some(k) => Some(k + 1)
  }

  function SplitLines(s: string): seq<string>
    decreases |s|
  {
    if s == "" then []
    else
      match FirstBreak(s)
      case None => [s]
      case Some(k) =>
        [s[..k]] + SplitLines(if s[k] == '\r' && k + 1 < |s| && s[k + 1] == '\n' then s[k + 2..] else s[k + 1..])
  }

  predicate Quoted(v: string) {
    v != "" && (v[0] == '"' || v[0] == '\'') && v[|v| - 1] == v[0]
  }

  /** v[1:-1] of a quoted value. */
  function Unquote(v: string): string {
    if !Quoted(v) then v else if |v| == 1 then "" else v[1..|v| - 1]
  }

  /** What a value becomes on its way through a line. */
  function Norm(v: string): string {
    Unquote(Trim(v, IsSpace))
  }

  function ParseLine(raw: string): Option<(string, string)> {
    var line := Trim(raw, IsSpace);
    if line == "" || line[0] == '#' then None
    else
      match IndexOf(line, '=')
      case None => None
      case Some(k) => Some((Trim(line[..k], IsSpace), Norm(line[k + 1..])))
  }

  function ParseLines(env: Env, lines: seq<string>): Env
    decreases |lines|
  {
    if lines == [] then env
    else
      match ParseLine(lines[0])
      case None => ParseLines(env, lines[1..])
      case Some((key, value)) => ParseLines(Assign(env, key, value), lines[1..])
  }

  /** read_env; a missing file reads as empty. */
  function ReadEnv(file: Option<string>): Env {
    if file.None? then [] else ParseLines([], SplitLines(file.value))
  }

  method ReadEnvFile(file: Option<string>) returns (out: Env)
    ensures out == ReadEnv(file)
  {
    out := [];
    if file.None? {
      return;
    }
    var lines := SplitLines(file.value);
    var i := 0;
    assert lines[0..] == lines;
    while i < |lines|
      invariant i <= |lines| && ParseLines(out, lines[i..]) == ReadEnv(file)
    {
      assert lines[i..][1..] == lines[i + 1..];
      var raw := lines[i];
      i := i + 1;
      var line := Trim(raw, IsSpace);
      if line == "" || line[0] == '#' {
        continue;
      }
      var eq := IndexOf(line, '=');
      if eq.None? {
        continue;
      }
      var value := Trim(line[eq.value + 1..], IsSpace);
      if Quoted(value) {
        value := Unquote(value);
      }
      out := Assign(out, Trim(line[..eq.value], IsSpace), value);
    }
  }

  // ----- Validation -------------------------------------------------------------------

  predicate IsAlnum(c: char) {
    'A' <= c <= 'Z' || 'a' <= c <= 'z' || '0' <= c <= '9'
  }

  predicate IsTokenChar(c: char) {
    IsAlnum(c) || c in "._-+=/:"
  }

  /** The zeros of the decimal digits of Unicode 14, besides the ASCII one. */
  const SCRIPT_ZEROS: string :=
    "\U{660}\U{6f0}\U{7c0}\U{966}\U{9e6}\U{a66}\U{ae6}\U{b66}" +
    "\U{be6}\U{c66}\U{ce6}\U{d66}\U{de6}\U{e50}\U{ed0}\U{f20}" +
    "\U{1040}\U{1090}\U{17e0}\U{1810}\U{1946}\U{19d0}\U{1a80}\U{1a90}" +
    "\U{1b50}\U{1bb0}\U{1c40}\U{1c50}\U{a620}\U{a8d0}\U{a900}\U{a9d0}" +
    "\U{a9f0}\U{aa50}\U{abf0}\U{ff10}\U{104a0}\U{10d30}\U{11066}\U{110f0}" +
    "\U{11136}\U{111d0}\U{112f0}\U{11450}\U{114d0}\U{11650}\U{116c0}\U{11730}" +
    "\U{118e0}\U{11950}\U{11c50}\U{11d50}\U{11da0}\U{16a60}\U{16ac0}\U{16b50}" +
    "\U{1d7ce}\U{1d7d8}\U{1d7e2}\U{1d7ec}\U{1d7f6}\U{1e140}\U{1e2f0}\U{1e950}" +
    "\U{1fbf0}"

  /** One of the ten digits from some zero on. */
  predicate InScript(c: char, zeros: string) {
    zeros != "" && ((zeros[0] <= c && c as int - zeros[0] as int < 10) || InScript(c, zeros[1..]))
  }

  /** \d of a str pattern. */
  predicate IsDigit(c: char) {
    '0' <= c <= '9' || InScript(c, SCRIPT_ZEROS)
  }

  predicate IsHostChar(c: char) {
    IsAlnum(c) || c == '.' || c == '-'
  }

  datatype Error = TokenEmpty | TokenTooShort | TokenTooLong | TokenBadChars | EndpointEmpty | EndpointMalformed

  function ValidateToken(token: string): Option<Error> {
    var t := Trim(token, IsSpace);
    if t == "" then Some(TokenEmpty)
    else if |t| < TOKEN_MIN_LEN then Some(TokenTooShort)
    else if |t| > TOKEN_MAX_LEN then Some(TokenTooLong)
    else if exists i :: 0 <= i < |t| && !IsTokenChar(t[i]) then Some(TokenBadChars)
    else None
  }

  /** host or host:port */
  predicate IsHostPort(s: string) {
    match IndexOf(s, ':')
    case None => s != "" && forall i :: 0 <= i < |s| ==> IsHostChar(s[i])
    case Some(k) =>
      && k > 0 && (forall i :: 0 <= i < k ==> IsHostChar(s[i]))
      && 1 <= |s| - k - 1 <= 5 && forall i :: k < i < |s| ==> IsDigit(s[i])
  }

  function ValidateEndpoint(endpoint: string): Option<Error> {
    var e := Trim(endpoint, IsSpace);
    if e == "" then Some(EndpointEmpty)
    else if IsHostPort(e) || ("grpc://" <= e && IsHostPort(e[7..])) || ("grpcs://" <= e && IsHostPort(e[8..])) then None
    else Some(EndpointMalformed)
  }

  lemma TrimsToNothing(s: string)
    ensures Trim(s, IsSpace) == "" <==> AllBlank(s, IsSpace)
  {
    hide IsSpace, Trim;
    var left, right := TrimCuts(s, IsSpace);
    if Trim(s, IsSpace) != "" { assert s[|left|] == Trim(s, IsSpace)[0]; }
  }

  /** Which token is refused for what. */
  lemma TokenOutcome(token: string)
    ensures var t := Trim(token, IsSpace);
      match ValidateToken(token)
      case None => 16 <= |t| <= 512 && forall i :: 0 <= i < |t| ==> IsTokenChar(t[i])
      case Some(TokenEmpty) => AllBlank(token, IsSpace)
      case Some(TokenTooShort) => 0 < |t| < 16
      case Some(TokenTooLong) => |t| > 512
      case Some(TokenBadChars) => 16 <= |t| <= 512 && exists i :: 0 <= i < |t| && !IsTokenChar(t[i])
      case Some(_) => false
  {
    TrimsToNothing(token);
  }

  predicate IsHost(s: string) {
    s != "" && forall i :: 0 <= i < |s| ==> IsAlnum(s[i]) || s[i] == '.' || s[i] == '-'
  }

  predicate IsPort(s: string) {
    1 <= |s| <= 5 && forall i :: 0 <= i < |s| ==> IsDigit(s[i])
  }

  predicate IsScheme(s: string) {
    s == "" || s == "grpc://" || s == "grpcs://"
  }

  /** e is a host, or a host and a port, behind an optional scheme. */
  ghost predicate Names(e: string, scheme: string, host: string, port: string) {
    IsScheme(scheme) && IsHost(host) && (e == scheme + host || (IsPort(port) && e == scheme + host + ":" + port))
  }

  lemma HostIsHostPort(host: string)
    requires IsHost(host)
    ensures IsHostPort(host)
  {
    assert ':' !in host;
  }

  lemma HostAndPort(host: string, port: string)
    requires IsHost(host) && IsPort(port)
    ensures IsHostPort(host + ":" + port)
  {
    hide IsDigit;
    var s := host + ":" + port;
    IndexAt(s, ':', |host|);
    assert forall i :: |host| < i < |s| ==> s[i] == port[i - |host| - 1];
  }

  lemma HostPortParts(s: string) returns (host: string, port: string)
    requires IsHostPort(s)
    ensures Names(s, "", host, port)
  {
    hide IsDigit;
    match IndexOf(s, ':')
    case None =>
      host, port := s, "";
    case Some(k) =>
      host, port := s[..k], s[k + 1..];
      assert s == "" + host + ":" + port;
  }

  lemma NamedIsAccepted(e: string, scheme: string, host: string, port: string)
    requires Names(e, scheme, host, port)
    ensures e != "" && (IsHostPort(e) || ("grpc://" <= e && IsHostPort(e[7..])) || ("grpcs://" <= e && IsHostPort(e[8..])))
  {
    hide IsHostPort, IsDigit;
    HostIsHostPort(host);
    var rest := if e == scheme + host then host else host + ":" + port;
    if e != scheme + host {
      HostAndPort(host, port);
      assert e == scheme + rest;
    }
    assert e[|scheme|..] == rest && scheme <= e;
  }

  lemma AcceptedIsNamed(endpoint: string) returns (scheme: string, host: string, port: string)
    requires ValidateEndpoint(endpoint).None?
    ensures Names(Trim(endpoint, IsSpace), scheme, host, port)
  {
    hide IsHostPort, IsHost, IsPort;
    var e := Trim(endpoint, IsSpace);
    scheme := if IsHostPort(e) then "" else if "grpc://" <= e && IsHostPort(e[7..]) then "grpc://" else "grpcs://";
    assert e == scheme + e[|scheme|..];
    host, port := HostPortParts(e[|scheme|..]);
    assert "" + host == host;
    assert scheme + (host + ":" + port) == scheme + host + ":" + port;
  }

  /** An endpoint is accepted exactly when, trimmed, it is a host or host:port behind an optional scheme. */
  lemma EndpointOutcome(endpoint: string)
    ensures ValidateEndpoint(endpoint).None? <==> exists scheme, host, port :: Names(Trim(endpoint, IsSpace), scheme, host, port)
    ensures ValidateEndpoint(endpoint) == Some(EndpointEmpty) <==> AllBlank(endpoint, IsSpace)
    ensures ValidateEndpoint(endpoint).Some? ==> ValidateEndpoint(endpoint).value in {EndpointEmpty, EndpointMalformed}
  {
    hide IsHostPort, IsHost, IsPort, Names, IsSpace;
    TrimsToNothing(endpoint);
    var e := Trim(endpoint, IsSpace);
    if ValidateEndpoint(endpoint).None? { var scheme, host, port := AcceptedIsNamed(endpoint); }
    if exists scheme, host, port :: Names(e, scheme, host, port) {
      var scheme, host, port :| Names(e, scheme, host, port);
      NamedIsAccepted(e, scheme, host, port);
    }
  }

  // ----- Writing ------------------------------------------------------------------------

  function Render(env: Env): string {
    if env == [] then "" else env[0].0 + "=" + env[0].1 + "\n" + Render(env[1..])
  }

  datatype Outcome = Written(content: string) | Refused(error: Error)

  /** write_token_and_endpoint, as the content the file is replaced with. */
  function Rewrite(file: Option<string>, token: string, endpoint: string): Outcome {
    if ValidateToken(token).Some? then Refused(ValidateToken(token).value)
    else if ValidateEndpoint(endpoint).Some? then Refused(ValidateEndpoint(endpoint).value)
    else Written(Render(Updated(ReadEnv(file), token, endpoint)))
  }

  function Updated(env: Env, token: string, endpoint: string): Env {
    Assign(Assign(env, TOKEN_KEY, Trim(token, IsSpace)), ENDPOINT_KEY, Trim(endpoint, IsSpace))
  }

  method WriteTokenAndEndpoint(file: Option<string>, token: string, endpoint: string) returns (out: Outcome)
    ensures out == Rewrite(file, token, endpoint)
  {
    var bad := ValidateToken(token);
    if bad.Some? {
      return Refused(bad.value);
    }
    bad := ValidateEndpoint(endpoint);
    if bad.Some? {
      return Refused(bad.value);
    }
    var current := ReadEnvFile(file);
    current := Assign(current, TOKEN_KEY, Trim(token, IsSpace));
    current := Assign(current, ENDPOINT_KEY, Trim(endpoint, IsSpace));
    var body := RenderLines(current);
    return Written(body);
  }

  method RenderLines(env: Env) returns (body: string)
    ensures body == Render(env)
  {
    body := "";
    var i := 0;
    assert env[0..] == env;
    while i < |env|
      invariant i <= |env| && body + Render(env[i..]) == Render(env)
    {
      assert env[i..][1..] == env[i + 1..];
      var line := env[i].0 + "=" + env[i].1 + "\n";
      assert body + (line + Render(env[i + 1..])) == (body + line) + Render(env[i + 1..]);
      body := body + line;
      i := i + 1;
    }
    assert body + "" == body;
  }

  // ----- Values on their way through ------------------------------------------------------

  /** Trimmed and not quote-wrapped. */
  predicate Plain(v: string) {
    Trimmed(v, IsSpace) && !Quoted(v)
  }

  /** A value survives exactly when it is trimmed and not quote-wrapped. */
  lemma NormKeepsExactly(v: string)
    ensures Norm(v) == v <==> Plain(v)
  {
    var l, r := TrimCuts(v, IsSpace);
    if Trimmed(v, IsSpace) { TrimOfTrimmed(v, IsSpace); }
  }

  /** Every pass that changes a value shortens it, and takes at most one layer of quotes. */
  lemma NormShrinks(v: string)
    ensures |Norm(v)| <= |v| && (Norm(v) != v ==> |Norm(v)| < |v|)
    ensures Norm(v) == Trim(v, IsSpace) || (|Trim(v, IsSpace)| >= 2 && Trim(v, IsSpace) == [Trim(v, IsSpace)[0]] + Norm(v) + [Trim(v, IsSpace)[0]])
            || (|Trim(v, IsSpace)| == 1 && Norm(v) == "")
  {
    var l, r := TrimCuts(v, IsSpace);
    NormKeepsExactly(v);
  }

  function NormTimes(v: string, n: nat): string
    decreases n
  {
    if n == 0 then v else NormTimes(Norm(v), n - 1)
  }

  /** So rewriting over and over reaches a fixed point, after at most as many passes as the value is long. */
  lemma {:induction false} NormSettles(v: string, n: nat)
    requires n >= |v|
    ensures Norm(NormTimes(v, n)) == NormTimes(v, n)
    decreases n
  {
    NormShrinks(v);
    if n > 0 {
      if Norm(v) == v {
        NormFixed(v, n);
      } else {
        NormSettles(Norm(v), n - 1);
      }
    }
  }

  lemma {:induction false} NormFixed(v: string, n: nat)
    requires Norm(v) == v
    ensures NormTimes(v, n) == v
    decreases n
  {
    if n > 0 { NormFixed(v, n - 1); }
  }

  // ----- The round trip --------------------------------------------------------------------

  predicate NoBreaks(s: string) {
    forall i :: 0 <= i < |s| ==> !IsBreak(s[i])
  }

  predicate CleanKey(k: string) {
    Trimmed(k, IsSpace) && '=' !in k && NoBreaks(k) && (k == "" || k[0] != '#')
  }

  predicate Distinct(env: Env) {
    forall i, j :: 0 <= i < j < |env| ==> env[i].0 != env[j].0
  }

  predicate Clean(env: Env) {
    Distinct(env) && forall i :: 0 <= i < |env| ==> CleanKey(env[i].0) && NoBreaks(env[i].1)
  }

  /** A part of a string without line breaks has none. */
  lemma PartHasNoBreaks(left: string, part: string, right: string)
    requires NoBreaks(left + part + right)
    ensures NoBreaks(part)
  {
    forall i | 0 <= i < |part| ensures !IsBreak(part[i]) {
      assert (left + part + right)[|left| + i] == part[i];
    }
  }

  lemma TrimHasNoBreaks(s: string)
    requires NoBreaks(s)
    ensures NoBreaks(Trim(s, IsSpace)) && NoBreaks(Norm(s))
  {
    var l, r := TrimCuts(s, IsSpace);
    PartHasNoBreaks(l, Trim(s, IsSpace), r);
  }

  lemma ParsedKeyIsClean(line: string, k: nat)
    requires NoBreaks(line) && Trimmed(line, IsSpace) && line != "" && line[0] != '#' && IndexOf(line, '=') == Some(k)
    ensures CleanKey(Trim(line[..k], IsSpace))
  {
    var key := Trim(line[..k], IsSpace);
    var l, r := TrimCuts(line[..k], IsSpace);
    TrimHasNoBreaks(line[..k]);
    assert line[..k] == l + key + r;
    assert '=' !in key by {
      forall i | 0 <= i < |key| ensures key[i] != '=' { assert line[..k][|l| + i] == key[i]; }
    }
    if k > 0 {
      assert TrimLeft(line[..k], IsSpace) == line[..k];
      var right := TrimRightCuts(line[..k], IsSpace);
      if key != "" { assert line[..k][0] == key[0]; }
    }
  }

  lemma ParsedLineIsClean(raw: string)
    requires NoBreaks(raw)
    ensures ParseLine(raw).Some? ==> CleanKey(ParseLine(raw).value.0) && NoBreaks(ParseLine(raw).value.1)
  {
    TrimHasNoBreaks(raw);
    var l, r := TrimCuts(raw, IsSpace);
    var line := Trim(raw, IsSpace);
    if line != "" && line[0] != '#' && IndexOf(line, '=').Some? {
      var k := IndexOf(line, '=').value;
      ParsedKeyIsClean(line, k);
      PartHasNoBreaks(line[..k + 1], line[k + 1..], "");
      assert line[..k + 1] + line[k + 1..] + "" == line;
      TrimHasNoBreaks(line[k + 1..]);
    }
  }

  lemma {:induction false} AssignKeepsClean(env: Env, key: string, value: string)
    requires Clean(env) && CleanKey(key) && NoBreaks(value)
    ensures Clean(Assign(env, key, value))
    ensures Keys(Assign(env, key, value)) == Keys(env) + {key}
    decreases |env|
  {
    hide CleanKey, NoBreaks;
    if env == [] {
      assert Assign(env, key, value)[0].0 in Keys(Assign(env, key, value));
    } else if env[0].0 == key {
      KeysConsed((key, value), env[1..]);
      KeysConsed(env[0], env[1..]);
      assert env == [env[0]] + env[1..];
    } else {
      var rest := Assign(env[1..], key, value);
      AssignKeepsClean(env[1..], key, value);
      KeysConsed(env[0], rest);
      KeysConsed(env[0], env[1..]);
      assert env == [env[0]] + env[1..];
      forall i | 0 <= i < |rest| ensures rest[i].0 != env[0].0 {
        assert rest[i].0 in Keys(rest);
        if rest[i].0 != key { HeadIsElsewhere(env, rest[i].0); }
      }
    }
  }

  lemma KeysConsed(e: (string, string), env: Env)
    ensures Keys([e] + env) == {e.0} + Keys(env)
  {
    var all := [e] + env;
    assert all[0].0 in Keys(all);
    forall k | k in Keys(env) ensures k in Keys(all) {
      var i :| 0 <= i < |env| && env[i].0 == k;
      assert all[i + 1].0 == k;
    }
  }

  lemma HeadIsElsewhere(env: Env, key: string)
    requires env != [] && Distinct(env) && key in Keys(env[1..])
    ensures key != env[0].0
  {
  }

  predicate NoneBreaks(lines: seq<string>) {
    forall i :: 0 <= i < |lines| ==> NoBreaks(lines[i])
  }

  lemma {:induction false} SplitLinesHaveNoBreaks(s: string)
    ensures NoneBreaks(SplitLines(s))
    decreases |s|
  {
    if s != "" && FirstBreak(s).Some? {
      var k := FirstBreak(s).value;
      SplitLinesHaveNoBreaks(if s[k] == '\r' && k + 1 < |s| && s[k + 1] == '\n' then s[k + 2..] else s[k + 1..]);
    }
  }

  lemma {:induction false} ParsedLinesAreClean(env: Env, lines: seq<string>)
    requires Clean(env) && NoneBreaks(lines)
    ensures Clean(ParseLines(env, lines))
    decreases |lines|
  {
    if lines != [] {
      ParsedLineIsClean(lines[0]);
      match ParseLine(lines[0]) {
        case None => ParsedLinesAreClean(env, lines[1..]);
        case Some((key, value)) =>
          AssignKeepsClean(env, key, value);
          ParsedLinesAreClean(Assign(env, key, value), lines[1..]);
      }
    }
  }

  /** A value up to its last non-blank character. */
  lemma ValueCore(v: string) returns (value: string, tail: string)
    ensures v == value + tail && AllBlank(tail, IsSpace) && (value == "" || !IsSpace(value[|value| - 1]))
    ensures Trim(value, IsSpace) == Trim(v, IsSpace)
  {
    var l, r := TrimCuts(v, IsSpace);
    var core := Trim(v, IsSpace);
    if core == "" {
      value, tail := "", v;
      assert l + "" + r == l + r;
    } else {
      value, tail := l + core, r;
      assert value == l + core + "";
      TrimIsTheCore(l, core, "", IsSpace);
    }
  }

  lemma LineIsTrimmed(k: string, value: string)
    requires CleanKey(k) && (value == "" || !IsSpace(value[|value| - 1]))
    ensures Trimmed(k + "=" + value, IsSpace) && IndexOf(k + "=" + value, '=') == Some(|k|)
    ensures (k + "=" + value)[..|k|] == k && (k + "=" + value)[|k| + 1..] == value
    ensures (k + "=" + value)[0] != '#'
  {
    hide IndexOf, NoBreaks;
    var line := k + "=" + value;
    assert line[..|k|] == k && line[|k| + 1..] == value;
    IndexAt(line, '=', |k|);
  }

  /** A printed line reads back as its key and the normalised value. */
  lemma PrintedLineIsReadBack(k: string, v: string)
    requires CleanKey(k)
    ensures ParseLine(k + "=" + v) == Some((k, Norm(v)))
  {
    hide IndexOf, NoBreaks, Unquote;
    var value, tail := ValueCore(v);
    LineIsTrimmed(k, value);
    assert k + "=" + v == "" + (k + "=" + value) + tail;
    TrimIsTheCore("", k + "=" + value, tail, IsSpace);
    TrimOfTrimmed(k, IsSpace);
  }

  function EnvLines(env: Env): seq<string> {
    if env == [] then [] else [env[0].0 + "=" + env[0].1] + EnvLines(env[1..])
  }

  lemma SplitOneLine(line: string, rest: string)
    requires NoBreaks(line)
    ensures SplitLines(line + "\n" + rest) == [line] + SplitLines(rest)
  {
    var s := line + "\n" + rest;
    BreakAt(s, |line|);
    assert s[..|line|] == line && s[|line| + 1..] == rest;
  }

  lemma BreakAt(s: string, n: nat)
    requires n < |s| && IsBreak(s[n]) && forall i :: 0 <= i < n ==> !IsBreak(s[i])
    ensures FirstBreak(s) == Some(n)
  {
  }

  lemma {:induction false} RenderedSplits(env: Env)
    requires Clean(env)
    ensures SplitLines(Render(env)) == EnvLines(env)
    decreases |env|
  {
    if env != [] {
      var line := env[0].0 + "=" + env[0].1;
      RenderedSplits(env[1..]);
      assert NoBreaks(line);
      SplitOneLine(line, Render(env[1..]));
      assert env[0].0 + "=" + env[0].1 + "\n" + Render(env[1..]) == line + "\n" + Render(env[1..]);
    }
  }

  /** Every value normalised, keys and order kept. */
  function NormAll(env: Env): Env {
    if env == [] then [] else [(env[0].0, Norm(env[0].1))] + NormAll(env[1..])
  }

  lemma {:induction false} AssignNewKey(env: Env, key: string, value: string)
    requires key !in Keys(env)
    ensures Assign(env, key, value) == env + [(key, value)]
    decreases |env|
  {
    if env != [] {
      assert env == [env[0]] + env[1..];
      KeysConsed(env[0], env[1..]);
      AssignNewKey(env[1..], key, value);
    }
  }

  predicate CleanKeys(env: Env) {
    forall i :: 0 <= i < |env| ==> CleanKey(env[i].0)
  }

  /** Reading one printed line into a dict that does not have its key yet. */
  lemma ParsePrinted(acc: Env, e: (string, string), lines: seq<string>)
    requires CleanKey(e.0) && e.0 !in Keys(acc)
    ensures ParseLines(acc, [e.0 + "=" + e.1] + lines) == ParseLines(acc + [(e.0, Norm(e.1))], lines)
  {
    hide ParseLine, Norm, CleanKey;
    PrintedLineIsReadBack(e.0, e.1);
    AssignNewKey(acc, e.0, Norm(e.1));
    var all := [e.0 + "=" + e.1] + lines;
    assert all[1..] == lines;
  }

  lemma {:induction false} LinesReadBack(acc: Env, env: Env)
    requires Distinct(acc + env) && CleanKeys(env)
    ensures ParseLines(acc, EnvLines(env)) == acc + NormAll(env)
    decreases |env|
  {
    if env == [] {
      NoLinesReadBack(acc);
    } else {
      hide ParseLines, NormAll, EnvLines, Norm, Distinct, Keys, CleanKey;
      var e := (env[0].0, Norm(env[0].1));
      HeadIsNew(acc, env);
      ParsePrinted(acc, env[0], EnvLines(env[1..]));
      DistinctMoves(acc, env, e.1);
      LinesReadBack(acc + [e], env[1..]);
      LinesUnfold(acc, env);
    }
  }

  lemma HeadIsNew(acc: Env, env: Env)
    requires env != [] && Distinct(acc + env)
    ensures env[0].0 !in Keys(acc)
  {
    forall i | 0 <= i < |acc| ensures acc[i].0 != env[0].0 {
      assert (acc + env)[i].0 != (acc + env)[|acc|].0;
    }
  }

  lemma LinesUnfold(acc: Env, env: Env)
    requires env != []
    ensures EnvLines(env) == [env[0].0 + "=" + env[0].1] + EnvLines(env[1..])
    ensures acc + [(env[0].0, Norm(env[0].1))] + NormAll(env[1..]) == acc + NormAll(env)
  {
  }

  lemma NoLinesReadBack(acc: Env)
    ensures ParseLines(acc, []) == acc + []
  {
  }

  lemma DistinctMoves(acc: Env, env: Env, value: string)
    requires env != [] && Distinct(acc + env)
    ensures Distinct(acc + [(env[0].0, value)] + env[1..])
  {
    var a, b := acc + env, acc + [(env[0].0, value)] + env[1..];
    forall i, j | 0 <= i < j < |b| ensures b[i].0 != b[j].0 {
      assert a[i].0 == b[i].0 && a[j].0 == b[j].0;
    }
  }

  /** Reading what was rendered gives every key back in place, with its value normalised once. */
  lemma RenderedReadsBack(env: Env)
    requires Clean(env)
    ensures ReadEnv(Some(Render(env))) == NormAll(env)
  {
    hide ParseLines, SplitLines, Render, CleanKey, NoBreaks, NormAll;
    RenderedSplits(env);
    LinesReadBack([], env);
    assert [] + NormAll(env) == NormAll(env) && [] + env == env;
  }

  lemma {:induction false} LookupAssigned(env: Env, key: string, value: string, other: string)
    ensures Lookup(Assign(env, key, value), other) == if other == key then Some(value) else Lookup(env, other)
    decreases |env|
  {
    if env != [] && env[0].0 != key { LookupAssigned(env[1..], key, value, other); }
  }

  lemma {:induction false} LookupNormed(env: Env, key: string)
    ensures Lookup(NormAll(env), key) == match Lookup(env, key) case None => None case Some(v) => Some(Norm(v))
    decreases |env|
  {
    if env != [] { LookupNormed(env[1..], key); }
  }

  lemma ValidTokenIsPlain(token: string)
    requires ValidateToken(token).None?
    ensures Norm(Trim(token, IsSpace)) == Trim(token, IsSpace) && NoBreaks(Trim(token, IsSpace))
  {
    var l, r := TrimCuts(token, IsSpace);
    NormKeepsExactly(Trim(token, IsSpace));
  }

  /** No line break is among the ten characters from z on. */
  predicate StartsPlain(z: char) {
    '\U{100}' <= z && (z < '\U{2000}' || '\U{2029}' < z)
  }

  lemma {:induction false} ScriptIsPlain(c: char, zeros: string)
    requires forall i :: 0 <= i < |zeros| ==> StartsPlain(zeros[i])
    ensures InScript(c, zeros) ==> !IsBreak(c)
    decreases |zeros|
  {
    if zeros != "" { ScriptIsPlain(c, zeros[1..]); }
  }

  lemma DigitsAreNoBreaks(c: char)
    ensures IsDigit(c) || IsHostChar(c) || c == ':' ==> !IsBreak(c)
  {
    ScriptIsPlain(c, SCRIPT_ZEROS);
  }

  lemma HostPortIsPlain(s: string)
    requires IsHostPort(s)
    ensures NoBreaks(s) && s != "" && s[0] != '"' && s[0] != '\''
  {
    hide IsDigit, IsBreak;
    forall i | 0 <= i < |s| ensures !IsBreak(s[i]) { DigitsAreNoBreaks(s[i]); }
  }

  lemma ValidEndpointIsPlain(endpoint: string)
    requires ValidateEndpoint(endpoint).None?
    ensures Norm(Trim(endpoint, IsSpace)) == Trim(endpoint, IsSpace) && NoBreaks(Trim(endpoint, IsSpace))
  {
    hide IsDigit;
    var l, r := TrimCuts(endpoint, IsSpace);
    var e := Trim(endpoint, IsSpace);
    if IsHostPort(e) {
      HostPortIsPlain(e);
    } else {
      var n := if "grpc://" <= e && IsHostPort(e[7..]) then 7 else 8;
      HostPortIsPlain(e[n..]);
      forall i | 0 <= i < |e| ensures !IsBreak(e[i]) {
        if i >= n { assert e[n..][i - n] == e[i]; }
      }
    }
    NormKeepsExactly(e);
  }

  lemma ReadIsClean(file: Option<string>)
    ensures Clean(ReadEnv(file))
  {
    if file.Some? {
      SplitLinesHaveNoBreaks(file.value);
      ParsedLinesAreClean([], SplitLines(file.value));
    }
  }

  lemma KeysAreClean()
    ensures CleanKey(TOKEN_KEY) && CleanKey(ENDPOINT_KEY) && TOKEN_KEY != ENDPOINT_KEY
  {
    KeyIsClean(TOKEN_KEY);
    KeyIsClean(ENDPOINT_KEY);
    assert TOKEN_KEY[7] != ENDPOINT_KEY[7];
  }

  /** A key of capitals and underscores. */
  lemma KeyIsClean(k: string)
    requires forall i :: 0 <= i < |k| ==> 'A' <= k[i] <= 'Z' || k[i] == '_'
    ensures CleanKey(k)
  {
  }

  /** What a lookup finds after a write. */
  lemma LookupAfter(before: Env, token: string, endpoint: string, key: string)
    requires TOKEN_KEY != ENDPOINT_KEY
    requires Norm(Trim(token, IsSpace)) == Trim(token, IsSpace) && Norm(Trim(endpoint, IsSpace)) == Trim(endpoint, IsSpace)
    ensures Lookup(NormAll(Updated(before, token, endpoint)), key) ==
            if key == ENDPOINT_KEY then Some(Trim(endpoint, IsSpace))
            else if key == TOKEN_KEY then Some(Trim(token, IsSpace))
            else match Lookup(before, key) case None => None case Some(v) => Some(Norm(v))
  {
    hide Norm, Trim, NormAll, Assign, Lookup;
    var t, e := Trim(token, IsSpace), Trim(endpoint, IsSpace);
    var mid := Assign(before, TOKEN_KEY, t);
    LookupAssigned(before, TOKEN_KEY, t, key);
    LookupAssigned(mid, ENDPOINT_KEY, e, key);
    LookupNormed(Assign(mid, ENDPOINT_KEY, e), key);
  }

  /** The written file reads back as the updated environment, every value normalised once. */
  lemma RewrittenReadsBack(file: Option<string>, token: string, endpoint: string)
    requires Rewrite(file, token, endpoint).Written?
    ensures ReadEnv(Some(Rewrite(file, token, endpoint).content)) == NormAll(Updated(ReadEnv(file), token, endpoint))
    ensures Norm(Trim(token, IsSpace)) == Trim(token, IsSpace) && Norm(Trim(endpoint, IsSpace)) == Trim(endpoint, IsSpace)
  {
    hide Norm, Trim, NormAll, Assign, Lookup, ReadEnv, Render, Clean, CleanKey, NoBreaks, ValidateToken, ValidateEndpoint;
    var before := ReadEnv(file);
    var t, e := Trim(token, IsSpace), Trim(endpoint, IsSpace);
    ReadIsClean(file);
    KeysAreClean();
    ValidTokenIsPlain(token);
    ValidEndpointIsPlain(endpoint);
    AssignKeepsClean(before, TOKEN_KEY, t);
    AssignKeepsClean(Assign(before, TOKEN_KEY, t), ENDPOINT_KEY, e);
    RenderedReadsBack(Updated(before, token, endpoint));
  }

  /**
  After a write the file reads back with exactly the given token and endpoint, trimmed;
  every other key is there exactly when it was before, with its old value normalised
  once, which is the old value itself if and only if that is trimmed and not quote-wrapped.
  */
  lemma EnvRoundTrip(file: Option<string>, token: string, endpoint: string, key: string)
    requires Rewrite(file, token, endpoint).Written?
    ensures var after := ReadEnv(Some(Rewrite(file, token, endpoint).content)); var before := ReadEnv(file);
      && Lookup(after, TOKEN_KEY) == Some(Trim(token, IsSpace))
      && Lookup(after, ENDPOINT_KEY) == Some(Trim(endpoint, IsSpace))
      && (key != TOKEN_KEY && key != ENDPOINT_KEY ==>
            && (Lookup(after, key).Some? <==> Lookup(before, key).Some?)
            && (Lookup(before, key).Some? ==>
                  && Lookup(after, key).value == Norm(Lookup(before, key).value)
                  && (Lookup(after, key) == Lookup(before, key) <==> Plain(Lookup(before, key).value))))
  {
    hide Norm, Trim, NormAll, Assign, Lookup, ReadEnv, Rewrite, Plain, Updated;
    var before := ReadEnv(file);
    RewrittenReadsBack(file, token, endpoint);
    KeysAreClean();
    LookupAfter(before, token, endpoint, TOKEN_KEY);
    LookupAfter(before, token, endpoint, ENDPOINT_KEY);
    LookupAfter(before, token, endpoint, key);
    if Lookup(before, key).Some? { NormKeepsExactly(Lookup(before, key).value); }
  }

  // ----- What a file means ---------------------------------------------------------------------

  /** A line sets nothing exactly when it is blank, a comment, or without an equals sign. */
  lemma LineOutcome(raw: string)
    ensures ParseLine(raw).None? <==> AllBlank(raw, IsSpace) || "#" <= Trim(raw, IsSpace) || '=' !in raw
  {
    var line := Trim(raw, IsSpace);
    var left, right := TrimCuts(raw, IsSpace);
    TrimsToNothing(raw);
    assert !IsSpace('=');
    assert '=' in raw <==> '=' in left || '=' in line || '=' in right;
  }

  /** The value a key has by the last line that sets it. */
  function LastSetting(lines: seq<string>, key: string): Option<string> {
    if lines == [] then None
    else
      match ParseLine(lines[|lines| - 1])
      case Some((k, v)) => if k == key then Some(v) else LastSetting(lines[..|lines| - 1], key)
      case None => LastSetting(lines[..|lines| - 1], key)
  }

  lemma {:induction false} ParseLinesMore(env: Env, lines: seq<string>, raw: string)
    ensures ParseLines(env, lines + [raw]) ==
            match ParseLine(raw) case None => ParseLines(env, lines) case Some((k, v)) => Assign(ParseLines(env, lines), k, v)
    decreases |lines|
  {
    hide ParseLine, Assign;
    if lines == [] {
      assert lines + [raw] == [raw] && [raw][1..] == [];
    } else {
      assert (lines + [raw])[1..] == lines[1..] + [raw];
      match ParseLine(lines[0])
      case None => ParseLinesMore(env, lines[1..], raw);
      case Some((k, v)) => ParseLinesMore(Assign(env, k, v), lines[1..], raw);
    }
  }

  /** The last line that sets a key decides. */
  lemma {:induction false} LastSettingWins(lines: seq<string>, key: string)
    ensures Lookup(ParseLines([], lines), key) == LastSetting(lines, key)
    decreases |lines|
  {
    hide ParseLine, Assign, ParseLines, Lookup;
    if lines == [] {
      NothingSet(key);
    } else {
      var rest, raw := lines[..|lines| - 1], lines[|lines| - 1];
      assert lines == rest + [raw];
      ParseLinesMore([], rest, raw);
      LastSettingWins(rest, key);
      match ParseLine(raw)
      case None =>
      case Some((k, v)) => LookupAssigned(ParseLines([], rest), k, v, key);
    }
  }

  lemma NothingSet(key: string)
    ensures Lookup(ParseLines([], []), key) == None
  {
  }

  // ----- Writing over and over ---------------------------------------------------------------

  /** The file after n more writes of the same credentials. */
  function Rewritten(file: Option<string>, token: string, endpoint: string, n: nat): Option<string>
    requires ValidateToken(token).None? && ValidateEndpoint(endpoint).None?
    decreases n
  {
    if n == 0 then file else Rewritten(Some(Rewrite(file, token, endpoint).content), token, endpoint, n - 1)
  }

  lemma {:induction false} NormTimesEnds(v: string, n: nat)
    ensures NormTimes(v, n + 1) == Norm(NormTimes(v, n))
    decreases n
  {
    if n > 0 { NormTimesEnds(Norm(v), n - 1); }
  }

  /** n writes normalise a foreign value n times. */
  lemma {:induction false} RewritesCount(file: Option<string>, token: string, endpoint: string, key: string, n: nat)
    requires ValidateToken(token).None? && ValidateEndpoint(endpoint).None?
    requires key != TOKEN_KEY && key != ENDPOINT_KEY && Lookup(ReadEnv(file), key).Some?
    ensures Lookup(ReadEnv(Rewritten(file, token, endpoint, n)), key) == Some(NormTimes(Lookup(ReadEnv(file), key).value, n))
    decreases n
  {
    hide Norm, Trim, Lookup, ReadEnv, ValidateToken, ValidateEndpoint, Plain, Render;
    if n > 0 {
      EnvRoundTrip(file, token, endpoint, key);
      RewritesCount(Some(Rewrite(file, token, endpoint).content), token, endpoint, key, n - 1);
    }
  }

  /** Repeated writes reach a fixed point: after as many as the value is long, the next one changes nothing. */
  lemma RewritesSettle(file: Option<string>, token: string, endpoint: string, key: string, n: nat)
    requires ValidateToken(token).None? && ValidateEndpoint(endpoint).None?
    requires key != TOKEN_KEY && key != ENDPOINT_KEY && Lookup(ReadEnv(file), key).Some?
    requires n >= |Lookup(ReadEnv(file), key).value|
    ensures Lookup(ReadEnv(Rewritten(file, token, endpoint, n + 1)), key) == Lookup(ReadEnv(Rewritten(file, token, endpoint, n)), key)
  {
    hide *;
    var v := Lookup(ReadEnv(file), key).value;
    RewritesCount(file, token, endpoint, key, n);
    RewritesCount(file, token, endpoint, key, n + 1);
    NormTimesEnds(v, n);
    NormSettles(v, n);
  }
}
