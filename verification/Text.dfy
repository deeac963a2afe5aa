/** The few string operations the parsers use, as Python defines them. */
module Text {
  import opened Options

  /** Where c first occurs. */
  function IndexOf(s: string, c: char): (r: Option<nat>)
    ensures r.Some? ==> r.value < |s| && s[r.value] == c && c !in s[..r.value]
    ensures r.None? ==> c !in s
  {
    if s == "" then None
    else if s[0] == c then Some(0)
    else
      match IndexOf(s[1..], c)
      case None => None
      case Some(k) =>
        assert s[..k + 1] == [s[0]] + s[1..][..k];
        Some(k + 1)
  }

  /** s.split(c) */
  function Split(s: string, c: char): (parts: seq<string>)
    ensures parts != []
    decreases |s|
  {
    match IndexOf(s, c)
    case None => [s]
    case Some(k) => [s[..k]] + Split(s[k + 1..], c)
  }

  /** s.lstrip(), s.rstrip() and s.strip() for a class of characters. */
  function TrimLeft(s: string, blank: char -> bool): string {
    if s != "" && blank(s[0]) then TrimLeft(s[1..], blank) else s
  }

  function TrimRight(s: string, blank: char -> bool): string {
    if s != "" && blank(s[|s| - 1]) then TrimRight(s[..|s| - 1], blank) else s
  }

  function Trim(s: string, blank: char -> bool): string {
    TrimRight(TrimLeft(s, blank), blank)
  }

  predicate Trimmed(s: string, blank: char -> bool) {
    s == "" || (!blank(s[0]) && !blank(s[|s| - 1]))
  }

  predicate AllBlank(s: string, blank: char -> bool) {
    forall i :: 0 <= i < |s| ==> blank(s[i])
  }

  /** Trimming takes blanks off both ends and nothing else. */
  lemma {:induction false} TrimLeftCuts(s: string, blank: char -> bool) returns (left: string)
    ensures s == left + TrimLeft(s, blank) && AllBlank(left, blank)
    ensures TrimLeft(s, blank) == "" || !blank(TrimLeft(s, blank)[0])
    decreases |s|
  {
    left := "";
    if s != "" && blank(s[0]) {
      left := TrimLeftCuts(s[1..], blank);
      assert s == [s[0]] + s[1..];
      left := [s[0]] + left;
    }
  }

  lemma {:induction false} TrimRightCuts(s: string, blank: char -> bool) returns (right: string)
    ensures s == TrimRight(s, blank) + right && AllBlank(right, blank)
    ensures TrimRight(s, blank) == "" || !blank(TrimRight(s, blank)[|TrimRight(s, blank)| - 1])
    decreases |s|
  {
    right := "";
    if s != "" && blank(s[|s| - 1]) {
      right := TrimRightCuts(s[..|s| - 1], blank);
      assert s == s[..|s| - 1] + [s[|s| - 1]];
      right := right + [s[|s| - 1]];
    }
  }

  lemma TrimCuts(s: string, blank: char -> bool) returns (left: string, right: string)
    ensures s == left + Trim(s, blank) + right && AllBlank(left, blank) && AllBlank(right, blank)
    ensures Trimmed(Trim(s, blank), blank)
  {
    left := TrimLeftCuts(s, blank);
    right := TrimRightCuts(TrimLeft(s, blank), blank);
    var t := Trim(s, blank);
    if t != "" { assert TrimLeft(s, blank)[0] == t[0]; }
  }

  lemma TrimOfTrimmed(s: string, blank: char -> bool)
    requires Trimmed(s, blank)
    ensures Trim(s, blank) == s && TrimLeft(s, blank) == s && TrimRight(s, blank) == s
  {
  }

  /** What str.isspace() accepts, and str.strip() strips. */
  predicate IsSpace(c: char) {
    || '\t' <= c <= '\r' || '\U{1c}' <= c <= '\U{1f}' || c == ' ' || c == '\U{85}' || c == '\U{a0}'
    || c == '\U{1680}' || '\U{2000}' <= c <= '\U{200a}' || c == '\U{2028}' || c == '\U{2029}'
    || c == '\U{202f}' || c == '\U{205f}' || c == '\U{3000}'
  }

  /** Whatever way blanks are cut off down to a trimmed core, the core is the trimmed string. */
  lemma TrimIsTheCore(left: string, core: string, right: string, blank: char -> bool)
    requires AllBlank(left, blank) && AllBlank(right, blank) && Trimmed(core, blank)
    ensures Trim(left + core + right, blank) == core
  {
    if core == "" {
      assert left + core + right == left + right;
      TrimLeftOff(left + right, "", blank);
      assert left + right + "" == left + right;
    } else {
      assert left + core + right == left + (core + right);
      TrimLeftOff(left, core + right, blank);
      TrimRightOff(core, right, blank);
    }
  }

  lemma {:induction false} TrimLeftOff(left: string, rest: string, blank: char -> bool)
    requires AllBlank(left, blank) && (rest == "" || !blank(rest[0]))
    ensures TrimLeft(left + rest, blank) == rest
    decreases |left|
  {
    if left == "" {
      assert left + rest == rest;
    } else {
      assert (left + rest)[1..] == left[1..] + rest;
      TrimLeftOff(left[1..], rest, blank);
    }
  }

  lemma {:induction false} TrimRightOff(core: string, right: string, blank: char -> bool)
    requires AllBlank(right, blank) && (core == "" || !blank(core[|core| - 1]))
    ensures TrimRight(core + right, blank) == core
    decreases |right|
  {
    if right == "" {
      assert core + right == core;
    } else {
      assert (core + right)[..|core + right| - 1] == core + right[..|right| - 1];
      TrimRightOff(core, right[..|right| - 1], blank);
    }
  }

  /** A leading part without the separator is the first field. */
  lemma SplitFirst(a: string, c: char, rest: string)
    requires c !in a
    ensures IndexOf(a + [c] + rest, c) == Some(|a|) && Split(a + [c] + rest, c) == [a] + Split(rest, c)
  {
    IndexAt(a + [c] + rest, c, |a|);
    var s := a + [c] + rest;
    assert s[..|a|] == a && s[|a| + 1..] == rest;
  }

  lemma IndexAt(s: string, c: char, n: nat)
    requires n < |s| && s[n] == c && forall j :: 0 <= j < n ==> s[j] != c
    ensures IndexOf(s, c) == Some(n)
  {
  }
}
