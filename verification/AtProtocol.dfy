/**
Response and URC demultiplexing: `AtClient` of modem_controller/serial_protocol.py.
Result codes are those of ITU-T V.250, section 5.7.
*/
module AtProtocol {
  import B = Bytes
  import opened Options
  import opened Text

  datatype UrcType = Ring | NoCarrier | Busy | NoDialtone | NoAnswer | Clip | Creg | Cmti

  /** The recognised URC prefixes, in the order they are tried. */
  const URC_PATTERNS: seq<(string, UrcType)> :=
    [("RING", Ring), ("NO CARRIER", NoCarrier), ("BUSY", Busy), ("NO DIALTONE", NoDialtone),
     ("NO ANSWER", NoAnswer), ("+CLIP", Clip), ("+CREG", Creg), ("+CMTI", Cmti)]

  predicate MatchesUrc(line: string, prefix: string) {
    line == prefix || prefix + ":" <= line || prefix + " " <= line
  }

  function FirstUrc(line: string, patterns: seq<(string, UrcType)>): Option<UrcType> {
    if patterns == [] then None
    else if MatchesUrc(line, patterns[0].0) then Some(patterns[0].1)
    else FirstUrc(line, patterns[1..])
  }

  /** _classify_urc */
  function ClassifyUrc(line: string): Option<UrcType> {
    FirstUrc(line, URC_PATTERNS)
  }

  /** What _dispatch_line makes of a line. */
  datatype Class = Final(ok: bool, code: string, detail: string) | UrcLine(kind: UrcType) | Body

  function Classify(line: string): Class {
    if line == "OK" then Final(true, "", "")
    else if line == "ERROR" then Final(false, "ERROR", "")
    else if "+CME ERROR" <= line then Final(false, "+CME ERROR", TrimLeft(line[10..], c => c == ':' || c == ' '))
    else if "+CMS ERROR" <= line then Final(false, "+CMS ERROR", TrimLeft(line[10..], c => c == ':' || c == ' '))
    else
      match ClassifyUrc(line)
      case Some(kind) => UrcLine(kind)
      case None => Body
  }

  datatype Response = Response(ok: bool, lines: seq<string>, code: string, detail: string)

  /** A reply handed to a send(): which command it went to, and which response it was. */
  datatype Delivery = Delivery(command: int, response: nat, reply: Response)

  datatype Client = Client(
    pending: seq<string>,        // _pending_lines
    queue: seq<Response>,        // _response_queue
    locked: bool,                // a send() holds the command lock
    urcs: seq<(UrcType, string)>,
    commands: nat,               // commands written so far
    abandoned: nat,              // written commands whose send() left without a reply
    delivered: seq<Delivery>)

  const FRESH := Client([], [], false, [], 0, 0, [])

  datatype Event =
    | LineRead(line: string)
    | EndOfFile
    | SendStarts
    | SendUnwritable   // the command is not ASCII: encoding it raises
    | SendGets
    | SendTimesOut     // the timer may fire with a response already queued
    | SendCancelled    // the task is cancelled in its wait, or the write raises

  function Dispatch(c: Client, line: string): Client {
    match Classify(line)
    case Final(ok, code, detail) => c.(queue := c.queue + [Response(ok, c.pending, code, detail)], pending := [])
    case UrcLine(kind) => c.(urcs := c.urcs + [(kind, line)])
    case Body => c.(pending := c.pending + [line])
  }

  predicate Enabled(c: Client, e: Event) {
    match e
    case SendStarts => !c.locked
    case SendUnwritable => !c.locked
    case SendGets => c.locked && c.queue != []
    case SendTimesOut => c.locked
    case SendCancelled => c.locked
    case _ => true
  }

  function Apply(c: Client, e: Event): Client
    requires Enabled(c, e)
  {
    match e
    case LineRead(line) => if line == "" then c else Dispatch(c, line)
    case EndOfFile =>
      if c.locked then c.(queue := c.queue + [Response(false, [], "EOF", "modem closed connection")]) else c
    case SendStarts => c.(pending := [], locked := true, commands := c.commands + 1)
    case SendUnwritable => c.(pending := [])
    case SendGets =>
      c.(locked := false, queue := c.queue[1..],
         delivered := c.delivered + [Delivery(c.commands - 1, |c.delivered|, c.queue[0])])
    case SendTimesOut => c.(locked := false, abandoned := c.abandoned + 1)
    case SendCancelled => c.(locked := false, abandoned := c.abandoned + 1)
  }

  predicate Legal(c: Client, es: seq<Event>)
    decreases |es|
  {
    es == [] || (Enabled(c, es[0]) && Legal(Apply(c, es[0]), es[1..]))
  }

  function Run(c: Client, es: seq<Event>): Client
    requires Legal(c, es)
    decreases |es|
  {
    if es == [] then c else Run(Apply(c, es[0]), es[1..])
  }

  // ----- URCs do not interfere with responses -----------------------------------

  predicate IsUrc(e: Event) {
    e.LineRead? && e.line != "" && Classify(e.line).UrcLine?
  }

  function WithoutUrcs(es: seq<Event>): seq<Event> {
    if es == [] then []
    else (if IsUrc(es[0]) then [] else [es[0]]) + WithoutUrcs(es[1..])
  }

  lemma {:induction false} UrcsDoNotInterfere(c: Client, d: Client, es: seq<Event>)
    requires Legal(c, es) && d == c.(urcs := d.urcs)
    ensures Legal(d, WithoutUrcs(es))
    ensures Run(d, WithoutUrcs(es)) == Run(c, es).(urcs := d.urcs)
    decreases |es|
  {
    if es != [] {
      var c1 := Apply(c, es[0]);
      if IsUrc(es[0]) {
        UrcsDoNotInterfere(c1, d, es[1..]);
        assert WithoutUrcs(es) == WithoutUrcs(es[1..]);
      } else {
        UrcsDoNotInterfere(c1, Apply(d, es[0]), es[1..]);
        assert WithoutUrcs(es)[1..] == WithoutUrcs(es[1..]);
      }
    }
  }

  /** Only body lines are ever part of a response; in particular no +CREG line is. */
  predicate BodiesOnly(lines: seq<string>) {
    forall i :: 0 <= i < |lines| ==> Classify(lines[i]) == Body
  }

  predicate LinesOk(c: Client) {
    && BodiesOnly(c.pending)
    && (forall i :: 0 <= i < |c.queue| ==> BodiesOnly(c.queue[i].lines))
    && (forall i :: 0 <= i < |c.delivered| ==> BodiesOnly(c.delivered[i].reply.lines))
  }

  lemma {:induction false} ResponsesHoldBodiesOnly(c: Client, es: seq<Event>)
    requires LinesOk(c) && Legal(c, es)
    ensures LinesOk(Run(c, es))
    decreases |es|
  {
    if es != [] { ResponsesHoldBodiesOnly(Apply(c, es[0]), es[1..]); }
  }

  /** So the answer to AT+CREG? never reaches the command that asked for it. */
  lemma RegistrationAnswerIsLost(c: Client, es: seq<Event>, text: string, i: nat)
    requires Legal(FRESH, es) && i < |Run(FRESH, es).delivered|
    ensures "+CREG:" + text !in Run(FRESH, es).delivered[i].reply.lines
  {
    ResponsesHoldBodiesOnly(FRESH, es);
    var line := "+CREG:" + text;
    assert line[0] == '+' && line[1] == 'C' && line[2] == 'R';
    assert "+CREG" + ":" == "+CREG:" && MatchesUrc(line, "+CREG");
    assert ClassifyUrc(line).Some? by { UrcFound(line, URC_PATTERNS, 6); }
    assert Classify(line) != Body;
  }

  lemma {:induction false} UrcFound(line: string, patterns: seq<(string, UrcType)>, i: nat)
    requires i < |patterns| && MatchesUrc(line, patterns[i].0)
    ensures FirstUrc(line, patterns).Some?
    decreases |patterns|
  {
    if i > 0 { UrcFound(line, patterns[1..], i - 1); }
  }

  // ----- Pairing ------------------------------------------------------------------

  /** The response one event puts on the queue, if any. */
  function Produces(c: Client, e: Event): seq<Response>
    requires Enabled(c, e)
  {
    var next := Apply(c, e);
    if |next.queue| > |c.queue| then [next.queue[|c.queue|]] else []
  }

  /** The responses a run of events puts on the queue, in order. */
  function Produced(c: Client, es: seq<Event>): seq<Response>
    requires Legal(c, es)
    decreases |es|
  {
    if es == [] then [] else Produces(c, es[0]) + Produced(Apply(c, es[0]), es[1..])
  }

  function Replies(ds: seq<Delivery>): seq<Response> {
    if ds == [] then [] else Replies(ds[..|ds| - 1]) + [ds[|ds| - 1].reply]
  }

  lemma StepInOrder(c: Client, e: Event)
    requires Enabled(c, e)
    ensures var next := Apply(c, e);
      Replies(next.delivered) + next.queue == Replies(c.delivered) + c.queue + Produces(c, e)
  {
  }

  /** First in, first out: delivered replies followed by the queue are what was produced. */
  lemma {:induction false} DeliveredInOrder(c: Client, es: seq<Event>)
    requires Legal(c, es)
    ensures Replies(Run(c, es).delivered) + Run(c, es).queue == Replies(c.delivered) + c.queue + Produced(c, es)
    decreases |es|
  {
    hide Replies, Produces, Apply;
    var so := Replies(c.delivered) + c.queue;
    if es == [] {
      assert so + [] == so;
    } else {
      var next := Apply(c, es[0]);
      StepInOrder(c, es[0]);
      DeliveredInOrder(next, es[1..]);
      assert so + Produces(c, es[0]) + Produced(next, es[1..]) == so + (Produces(c, es[0]) + Produced(next, es[1..]));
    }
  }

  /** A send() that leaves behind a written command without taking a response. */
  predicate GivesUp(e: Event) {
    e.SendTimesOut? || e.SendCancelled?
  }

  function GivenUp(es: seq<Event>): nat {
    if es == [] then 0 else (if GivesUp(es[0]) then 1 else 0) + GivenUp(es[1..])
  }

  lemma {:induction false} NoneGivenUp(es: seq<Event>)
    ensures GivenUp(es) == 0 <==> forall i :: 0 <= i < |es| ==> !GivesUp(es[i])
    decreases |es|
  {
    if es != [] {
      NoneGivenUp(es[1..]);
      assert es == [es[0]] + es[1..];
    }
  }

  /** A delivery's response number trails its command number by the sends given up before it. */
  predicate Paired(c: Client) {
    && c.commands == |c.delivered| + c.abandoned + (if c.locked then 1 else 0)
    && (forall i :: 0 <= i < |c.delivered| ==>
          c.delivered[i].response == i && i <= c.delivered[i].command < c.commands)
  }

  lemma {:induction false} StaysPaired(c: Client, es: seq<Event>)
    requires Paired(c) && Legal(c, es)
    ensures Paired(Run(c, es)) && Run(c, es).abandoned == c.abandoned + GivenUp(es) && c.delivered <= Run(c, es).delivered
    decreases |es|
  {
    if es != [] { StaysPaired(Apply(c, es[0]), es[1..]); }
  }

  /**
  A command that gets a reply gets the response numbered its own number minus the sends
  given up before it: if the modem answers every written command once and in order, a
  command gets its own reply exactly when no earlier send timed out or was cancelled,
  and after one that did every reply is late by at least one command.
  */
  lemma ReplyIsOwnExactlyWhenNoneGivenUp(es: seq<Event>)
    requires Legal(FRESH, es) && Enabled(Run(FRESH, es), SendGets)
    ensures var c := Run(FRESH, es); var d := Apply(c, SendGets).delivered[|c.delivered|];
      && d.response < |Produced(FRESH, es)|
      && d.reply == c.queue[0] == Produced(FRESH, es)[d.response]
      && d.command == c.commands - 1 && d.command - d.response == GivenUp(es)
      && (d.command == d.response <==> forall i :: 0 <= i < |es| ==> !GivesUp(es[i]))
  {
    StaysPaired(FRESH, es);
    DeliveredInOrder(FRESH, es);
    NoneGivenUp(es);
    var c := Run(FRESH, es);
    RepliesLength(c.delivered);
    assert Replies([]) + [] + Produced(FRESH, es) == Produced(FRESH, es);
    assert |Produced(FRESH, es)| == |c.delivered| + |c.queue|;
    assert (Replies(c.delivered) + c.queue)[|c.delivered|] == c.queue[0];
  }

  lemma RunStarts(c: Client, e: Event, es: seq<Event>)
    requires Enabled(c, e) && Legal(Apply(c, e), es)
    ensures Legal(c, [e] + es) && Run(c, [e] + es) == Run(Apply(c, e), es)
  {
    hide Enabled, Apply;
    assert ([e] + es)[1..] == es;
  }

  /** Command 0 is given up, its OK comes late, command 1 is written. */
  function LateAnswer(end: Event): seq<Event> {
    [SendStarts] + ([end] + ([LineRead("OK")] + ([SendStarts] + [])))
  }

  /** Timed out or cancelled alike: the next command is handed the late OK of the one given up. */
  lemma GivingUpShiftsTheReplies(end: Event)
    requires GivesUp(end)
    ensures Legal(FRESH, LateAnswer(end)) && Enabled(Run(FRESH, LateAnswer(end)), SendGets)
    ensures var c := Run(FRESH, LateAnswer(end));
      Apply(c, SendGets).delivered == [Delivery(1, 0, Response(true, [], "", ""))]
  {
    var c1 := Apply(FRESH, SendStarts);
    var c2 := Apply(c1, end);
    var c3 := Apply(c2, LineRead("OK"));
    RunStarts(c3, SendStarts, []);
    RunStarts(c2, LineRead("OK"), [SendStarts] + []);
    RunStarts(c1, end, [LineRead("OK")] + ([SendStarts] + []));
    RunStarts(FRESH, SendStarts, [end] + ([LineRead("OK")] + ([SendStarts] + [])));
  }

  lemma {:induction false} RepliesLength(ds: seq<Delivery>)
    ensures |Replies(ds)| == |ds|
    decreases |ds|
  {
    if ds != [] { RepliesLength(ds[..|ds| - 1]); }
  }

  // ----- Lines on the wire ------------------------------------------------------------

  predicate IsAscii(s: string) {
    forall i :: 0 <= i < |s| ==> s[i] < '\U{80}'
  }

  /** str.encode("ascii") */
  function Encode(s: string): B.Chunk
    requires IsAscii(s)
  {
    seq(|s|, i requires 0 <= i < |s| => s[i] as int)
  }

  /** bytes.decode("ascii", errors="replace") */
  function Decode(raw: B.Chunk): string {
    seq(|raw|, i requires 0 <= i < |raw| => if raw[i] < 0x80 then raw[i] as char else '\U{fffd}')
  }

  predicate IsLineEnd(c: char) {
    c == '\r' || c == '\n' || c == ' '
  }

  /** What _read_loop makes of the bytes of one line. */
  function LineOf(raw: B.Chunk): string {
    Trim(Decode(raw), IsLineEnd)
  }

  /** A trimmed ASCII line is read as it was sent, whatever line ends and blanks are around it. */
  lemma SentLineIsReadBack(line: string, before: string, after: string)
    requires IsAscii(line) && Trimmed(line, IsLineEnd) && AllBlank(before, IsLineEnd) && AllBlank(after, IsLineEnd)
    ensures IsAscii(before + line + after) && LineOf(Encode(before + line + after)) == line
  {
    var all := before + line + after;
    forall i | 0 <= i < |all| ensures all[i] < '\U{80}' {
      assert all[i] == if i < |before| then before[i] else if i < |before| + |line| then line[i - |before|] else after[i - |before| - |line|];
    }
    assert Decode(Encode(all)) == all;
    TrimIsTheCore(before, line, after, IsLineEnd);
  }

  // ----- The object -----------------------------------------------------------------

  class AtClient {
    var pendingLines: seq<string>
    var responseQueue: seq<Response>
    var locked: bool
    var urcs: seq<(UrcType, string)>   // handed to the registered handlers
    ghost var commands: nat
    ghost var abandoned: nat
    ghost var delivered: seq<Delivery>

    ghost function State(): Client
      reads this
    {
      Client(pendingLines, responseQueue, locked, urcs, commands, abandoned, delivered)
    }

    constructor ()
      ensures State() == FRESH
    {
      pendingLines, responseQueue, locked, urcs := [], [], false, [];
      commands, abandoned, delivered := 0, 0, [];
    }

    /** One turn of _read_loop; no bytes at all stand for end of file. */
    method ReadLine(raw: B.Chunk)
      modifies this`pendingLines, this`responseQueue, this`urcs
      ensures State() == Apply(old(State()), if raw == [] then EndOfFile else LineRead(LineOf(raw)))
    {
      if raw == [] {
        if locked {
          responseQueue := responseQueue + [Response(false, [], "EOF", "modem closed connection")];
        }
        return;
      }
      var line := Trim(Decode(raw), IsLineEnd);
      if line == "" {
        return;
      }
      DispatchLine(line);
    }

    method DispatchLine(line: string)
      modifies this`pendingLines, this`responseQueue, this`urcs
      ensures State() == Dispatch(old(State()), line)
      ensures line == "OK" ==> responseQueue == old(responseQueue) + [Response(true, old(pendingLines), "", "")]
      ensures line == "ERROR" ==> responseQueue == old(responseQueue) + [Response(false, old(pendingLines), "ERROR", "")]
    {
      if line == "OK" {
        responseQueue := responseQueue + [Response(true, pendingLines, "", "")];
        pendingLines := [];
        return;
      }
      if line == "ERROR" {
        responseQueue := responseQueue + [Response(false, pendingLines, "ERROR", "")];
        pendingLines := [];
        return;
      }
      var prefixes := ["+CME ERROR", "+CMS ERROR"];
      for i := 0 to 2
        invariant State() == old(State())
        invariant i > 0 ==> !("+CME ERROR" <= line)
        invariant i > 1 ==> !("+CMS ERROR" <= line)
      {
        if prefixes[i] <= line {
          var detail := TrimLeft(line[10..], c => c == ':' || c == ' ');
          responseQueue := responseQueue + [Response(false, pendingLines, prefixes[i], detail)];
          pendingLines := [];
          return;
        }
      }
      var kind := FindUrc(line);
      if kind.Some? {
        urcs := urcs + [(kind.value, line)];
      } else {
        pendingLines := pendingLines + [line];
      }
    }

    /** The loop of _classify_urc. */
    method FindUrc(line: string) returns (kind: Option<UrcType>)
      ensures kind == ClassifyUrc(line)
    {
      var i := 0;
      assert URC_PATTERNS[0..] == URC_PATTERNS;
      while i < |URC_PATTERNS|
        invariant i <= |URC_PATTERNS| && FirstUrc(line, URC_PATTERNS[i..]) == ClassifyUrc(line)
      {
        assert URC_PATTERNS[i..][1..] == URC_PATTERNS[i + 1..];
        if MatchesUrc(line, URC_PATTERNS[i].0) {
          return Some(URC_PATTERNS[i].1);
        }
        i := i + 1;
      }
      kind := None;
    }

    /** send() once it holds the lock, up to the wait for a response. */
    method SendBegin(command: string) returns (written: bool)
      requires !locked
      modifies this`pendingLines, this`locked, this`commands
      ensures written == IsAscii(command)
      ensures State() == Apply(old(State()), if written then SendStarts else SendUnwritable)
    {
      pendingLines := [];
      if !IsAscii(command) {
        return false;
      }
      locked := true;
      commands := commands + 1;
      return true;
    }

    /** The end of the wait of send(): the oldest response, or none when it timed out or was cancelled. */
    method SendEnd(end: Event) returns (response: Option<Response>)
      requires (end.SendGets? || GivesUp(end)) && Enabled(State(), end)
      modifies this`responseQueue, this`locked, this`abandoned, this`delivered
      ensures State() == Apply(old(State()), end)
      ensures response == if GivesUp(end) then None else Some(old(responseQueue)[0])
      ensures GivesUp(end) ==> responseQueue == old(responseQueue)
    {
      locked := false;
      if GivesUp(end) {
        abandoned := abandoned + 1;
        return None;
      }
      response := Some(responseQueue[0]);
      delivered := delivered + [Delivery(commands - 1, |delivered|, responseQueue[0])];
      responseQueue := responseQueue[1..];
    }
  }

  // ----- AT+CLCC ----------------------------------------------------------------------

  /** One line of a CLCC answer: third comma-separated field "0" (3GPP TS 27.007, section 7.18). */
  predicate IsActiveCall(line: string) {
    && "+CLCC" <= line
    && IndexOf(line, ':').Some?
    && var parts := Split(line[IndexOf(line, ':').value + 1..], ',');
       |parts| >= 3 && Trim(parts[2], IsSpace) == "0"
  }

  /** _clcc_has_active_call */
  method HasActiveCall(lines: seq<string>) returns (active: bool)
    ensures active <==> exists i :: 0 <= i < |lines| && IsActiveCall(lines[i])
  {
    var i := 0;
    while i < |lines|
      invariant i <= |lines| && forall j :: 0 <= j < i ==> !IsActiveCall(lines[j])
    {
      if IsActiveCall(lines[i]) {
        return true;
      }
      i := i + 1;
    }
    active := false;
  }

  function Fields(a: string, b: string, c: string, rest: string): string {
    a + [','] + (b + [','] + (c + [','] + rest))
  }

  lemma ThirdField(a: string, b: string, c: string, rest: string)
    requires ',' !in a && ',' !in b && ',' !in c
    ensures var parts := Split(Fields(a, b, c, rest), ','); |parts| >= 3 && parts[2] == c
  {
    SplitFirst(c, ',', rest);
    SplitFirst(b, ',', c + [','] + rest);
    SplitFirst(a, ',', b + [','] + (c + [','] + rest));
  }

  /** A line as the modem prints it is read as active exactly when its state field is 0. */
  lemma PrintedCallIsReadBack(index: string, dir: string, stat: string, rest: string)
    requires ',' !in index && ',' !in dir && ',' !in stat && Trimmed(stat, IsSpace)
    ensures IsActiveCall("+CLCC:" + Fields(index, dir, stat, rest)) <==> stat == "0"
  {
    var payload := Fields(index, dir, stat, rest);
    var line := "+CLCC:" + payload;
    IndexAt(line, ':', 5);
    assert line[6..] == payload;
    ThirdField(index, dir, stat, rest);
    TrimOfTrimmed(stat, IsSpace);
  }
}
