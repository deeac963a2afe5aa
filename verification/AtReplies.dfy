/**
What the AT client hands back, told from the events of a run alone: which lines a response
carries, what each final result line makes of it, and which lines go to the URC handlers.
*/
module AtReplies {
  import opened Options
  import opened Text
  import opened AtProtocol

  lemma {:induction false} RunMore(c: Client, es: seq<Event>, e: Event)
    requires Legal(c, es + [e])
    ensures Legal(c, es) && Enabled(Run(c, es), e) && Run(c, es + [e]) == Apply(Run(c, es), e)
    decreases |es|
  {
    hide Enabled, Apply;
    if es == [] {
      assert es + [e] == [e] && [e][1..] == [];
    } else {
      assert (es + [e])[1..] == es[1..] + [e];
      RunMore(Apply(c, es[0]), es[1..], e);
    }
  }

  // ----- Kinds of line ------------------------------------------------------------------

  predicate Answers(line: string) {
    line == "OK" || line == "ERROR" || "+CME ERROR" <= line || "+CMS ERROR" <= line
  }

  predicate Named(line: string, name: string) {
    line == name || name + ":" <= line || name + " " <= line
  }

  /** The kind of announcement a line is, if it is one. */
  function Announcement(line: string): Option<UrcType> {
    if Named(line, "RING") then Some(Ring)
    else if Named(line, "NO CARRIER") then Some(NoCarrier)
    else if Named(line, "BUSY") then Some(Busy)
    else if Named(line, "NO DIALTONE") then Some(NoDialtone)
    else if Named(line, "NO ANSWER") then Some(NoAnswer)
    else if Named(line, "+CLIP") then Some(Clip)
    else if Named(line, "+CREG") then Some(Creg)
    else if Named(line, "+CMTI") then Some(Cmti)
    else None
  }

  lemma FirstOf(line: string, patterns: seq<(string, UrcType)>)
    requires patterns != []
    ensures FirstUrc(line, patterns) ==
            if Named(line, patterns[0].0) then Some(patterns[0].1) else FirstUrc(line, patterns[1..])
  {
  }

  lemma {:induction false} UrcFrom(line: string, k: nat)
    requires k <= |URC_PATTERNS|
    ensures k < |URC_PATTERNS| ==>
              FirstUrc(line, URC_PATTERNS[k..]) ==
              if Named(line, URC_PATTERNS[k].0) then Some(URC_PATTERNS[k].1) else FirstUrc(line, URC_PATTERNS[k + 1..])
    ensures k == |URC_PATTERNS| ==> FirstUrc(line, URC_PATTERNS[k..]).None?
  {
    if k < |URC_PATTERNS| {
      FirstOf(line, URC_PATTERNS[k..]);
      assert URC_PATTERNS[k..][1..] == URC_PATTERNS[k + 1..];
    }
  }

  /** The prefix table is tried in order. */
  lemma UrcTable(line: string)
    ensures ClassifyUrc(line) == Announcement(line)
  {
    hide Named, FirstUrc;
    UrcFrom(line, 0);
    UrcFrom(line, 1);
    UrcFrom(line, 2);
    UrcFrom(line, 3);
    UrcFrom(line, 4);
    UrcFrom(line, 5);
    UrcFrom(line, 6);
    UrcFrom(line, 7);
    UrcFrom(line, 8);
    assert URC_PATTERNS[0..] == URC_PATTERNS;
  }

  // ----- What is produced -------------------------------------------------------------------

  /** A send() is waiting: one has started, and none has ended since. */
  predicate Waiting(es: seq<Event>) {
    es != [] &&
    var e := es[|es| - 1];
    e.SendStarts? || (!e.SendGets? && !e.SendTimesOut? && !e.SendCancelled? && Waiting(es[..|es| - 1]))
  }

  /** A final result line, or the start of a command: body lines before it are not of the next response. */
  predicate Resets(e: Event) {
    e.SendStarts? || e.SendUnwritable? || (e.LineRead? && Answers(e.line))
  }

  /** A line that is neither empty, nor a final result, nor an announcement. */
  predicate IsBody(e: Event) {
    e.LineRead? && e.line != "" && !Answers(e.line) && Announcement(e.line).None?
  }

  /** The body lines since the last reset, in order. */
  function Since(es: seq<Event>): seq<string> {
    if es == [] || Resets(es[|es| - 1]) then []
    else Since(es[..|es| - 1]) + if IsBody(es[|es| - 1]) then [es[|es| - 1].line] else []
  }

  /** What a final result line makes of the lines before it. */
  function Reply(line: string, lines: seq<string>): Response
    requires Answers(line)
  {
    if line == "OK" then Response(true, lines, "", "")
    else if line == "ERROR" then Response(false, lines, "ERROR", "")
    else Response(false, lines, line[..10], TrimLeft(line[10..], c => c == ':' || c == ' '))
  }

  /** The responses a run has called for, oldest first. */
  function Called(es: seq<Event>): seq<Response> {
    if es == [] then []
    else
      var rest, e := es[..|es| - 1], es[|es| - 1];
      Called(rest)
      + if e.LineRead? && Answers(e.line) then [Reply(e.line, Since(rest))]
        else if e.EndOfFile? && Waiting(rest) then [Response(false, [], "EOF", "modem closed connection")]
        else []
  }

  /** The announcements a run has read, oldest first. */
  function Announced(es: seq<Event>): seq<(UrcType, string)> {
    if es == [] then []
    else
      var e := es[|es| - 1];
      Announced(es[..|es| - 1])
      + if e.LineRead? && e.line != "" && !Answers(e.line) && Announcement(e.line).Some?
        then [(Announcement(e.line).value, e.line)] else []
  }

  lemma AnswersAreFinal(line: string)
    ensures Answers(line) <==> Classify(line).Final?
    ensures Answers(line) ==>
              line != "" && forall lines ::
                Response(Classify(line).ok, lines, Classify(line).code, Classify(line).detail) == Reply(line, lines)
  {
  }

  lemma LineStep(c: Client, line: string)
    ensures var d := Apply(c, LineRead(line)); var e := LineRead(line);
      && d == c.(pending := d.pending, queue := d.queue, urcs := d.urcs)
      && d.pending == (if Answers(line) then [] else if IsBody(e) then c.pending + [line] else c.pending)
      && d.queue == (if Answers(line) then c.queue + [Reply(line, c.pending)] else c.queue)
      && d.urcs == (if line != "" && !Answers(line) && Announcement(line).Some?
                    then c.urcs + [(Announcement(line).value, line)] else c.urcs)
  {
    hide ClassifyUrc, Reply;
    UrcTable(line);
    AnswersAreFinal(line);
  }

  /** What the client holds after the events `es`. */
  predicate Accounts(c: Client, es: seq<Event>) {
    && c.pending == Since(es) && c.locked == Waiting(es) && c.urcs == Announced(es)
    && Replies(c.delivered) + c.queue == Called(es)
  }

  /** The histories one event later. */
  lemma HistoriesGrow(es: seq<Event>, e: Event)
    ensures Since(es + [e]) == if Resets(e) then [] else if IsBody(e) then Since(es) + [e.line] else Since(es)
    ensures Waiting(es + [e]) <==> e.SendStarts? || (!e.SendGets? && !e.SendTimesOut? && !e.SendCancelled? && Waiting(es))
    ensures Called(es + [e]) ==
            if e.LineRead? && Answers(e.line) then Called(es) + [Reply(e.line, Since(es))]
            else if e.EndOfFile? && Waiting(es) then Called(es) + [Response(false, [], "EOF", "modem closed connection")]
            else Called(es)
    ensures Announced(es + [e]) ==
            if e.LineRead? && e.line != "" && !Answers(e.line) && Announcement(e.line).Some?
            then Announced(es) + [(Announcement(e.line).value, e.line)] else Announced(es)
  {
    hide Reply, Answers, Announcement;
    var all := es + [e];
    assert all[..|all| - 1] == es && all[|all| - 1] == e;
    assert Called(es) + [] == Called(es) && Announced(es) + [] == Announced(es) && Since(es) + [] == Since(es);
  }

  lemma LineAccounts(c: Client, es: seq<Event>, line: string)
    requires Accounts(c, es)
    ensures Accounts(Apply(c, LineRead(line)), es + [LineRead(line)])
  {
    hide Reply, Dispatch, Since, Waiting, Called, Announced, Answers, Announcement, Replies, Apply;
    HistoriesGrow(es, LineRead(line));
    LineStep(c, line);
    if Answers(line) { QueueGrows(c, [Reply(line, c.pending)]); }
  }

  lemma OtherAccounts(c: Client, es: seq<Event>, e: Event)
    requires Accounts(c, es) && Enabled(c, e) && !e.LineRead?
    ensures Accounts(Apply(c, e), es + [e])
  {
    hide Reply, Dispatch, Since, Waiting, Called, Announced, Answers, Announcement;
    HistoriesGrow(es, e);
    StepInOrder(c, e);
    var so := Replies(c.delivered) + c.queue;
    assert so + [] == so;
  }

  lemma StepAccounts(c: Client, es: seq<Event>, e: Event)
    requires Accounts(c, es) && Enabled(c, e)
    ensures Accounts(Apply(c, e), es + [e])
  {
    hide Accounts, Apply, Enabled;
    if e.LineRead? { LineAccounts(c, es, e.line); } else { OtherAccounts(c, es, e); }
  }

  lemma QueueGrows(c: Client, more: seq<Response>)
    ensures Replies(c.delivered) + (c.queue + more) == (Replies(c.delivered) + c.queue) + more
  {
  }

  /**
  Over every run: the responses delivered and queued are, in order, one for each final
  result line, with exactly the body lines read since the last final result or command
  start, and one for each end of file met by a waiting command; and the handlers got
  exactly the announcements read.
  */
  lemma {:induction false} EveryReplyCarriesItsLines(es: seq<Event>)
    requires Legal(FRESH, es)
    ensures Accounts(Run(FRESH, es), es)
    decreases |es|
  {
    hide Accounts, Enabled, Apply, Run, Legal;
    if es == [] {
      NothingCalled();
    } else {
      var rest, e := es[..|es| - 1], es[|es| - 1];
      assert es == rest + [e];
      RunMore(FRESH, rest, e);
      EveryReplyCarriesItsLines(rest);
      StepAccounts(Run(FRESH, rest), rest, e);
    }
  }

  lemma NothingCalled()
    ensures Accounts(Run(FRESH, []), [])
  {
  }

  // ----- One exchange -----------------------------------------------------------------------

  /** The bodies among the lines of `es`. */
  function BodyLines(es: seq<Event>): seq<string> {
    if es == [] then [] else BodyLines(es[..|es| - 1]) + if IsBody(es[|es| - 1]) then [es[|es| - 1].line] else []
  }

  /** Behind a reset, `Since` is the bodies read. */
  lemma {:induction false} SinceIsTheBodies(before: seq<Event>, reset: Event, after: seq<Event>)
    requires Resets(reset) && forall i :: 0 <= i < |after| ==> !Resets(after[i])
    ensures Since(before + [reset] + after) == BodyLines(after)
    decreases |after|
  {
    hide Resets, IsBody;
    var all := before + [reset] + after;
    if after == [] {
      assert all[|all| - 1] == reset;
    } else {
      var front := after[..|after| - 1];
      assert all[|all| - 1] == after[|after| - 1] && all[..|all| - 1] == before + [reset] + front;
      SinceIsTheBodies(before, reset, front);
    }
  }

  /**
  A final result line read in any run puts exactly one response on the queue: the bodies
  read behind the last reset, and ok for OK alone.
  */
  lemma FinalLineAnswers(before: seq<Event>, reset: Event, after: seq<Event>, line: string)
    requires Resets(reset) && (forall i :: 0 <= i < |after| ==> !Resets(after[i])) && Answers(line)
    requires Legal(FRESH, before + [reset] + after)
    ensures var c := Run(FRESH, before + [reset] + after); var d := Apply(c, LineRead(line));
      && d.queue == c.queue + [Reply(line, BodyLines(after))] && d.delivered == c.delivered && d.pending == []
      && (Reply(line, BodyLines(after)).ok <==> line == "OK")
  {
    hide Run, Legal, Reply, Since, BodyLines, Resets;
    var es := before + [reset] + after;
    EveryReplyCarriesItsLines(es);
    SinceIsTheBodies(before, reset, after);
    LineStep(Run(FRESH, es), line);
    OnlyOkIsOk(line, BodyLines(after));
  }

  lemma OnlyOkIsOk(line: string, lines: seq<string>)
    requires Answers(line)
    ensures Reply(line, lines).lines == lines && (Reply(line, lines).ok <==> line == "OK")
  {
  }

  /** The code of an error is its prefix; its detail what follows the marks behind it. */
  lemma ErrorIsReadBack(meter: string, marks: string, detail: string, lines: seq<string>)
    requires (meter == "+CME ERROR" || meter == "+CMS ERROR") && (detail == "" || !(detail[0] == ':' || detail[0] == ' '))
    requires forall i :: 0 <= i < |marks| ==> marks[i] == ':' || marks[i] == ' '
    ensures Answers(meter + marks + detail) && Reply(meter + marks + detail, lines) == Response(false, lines, meter, detail)
  {
    var line := meter + marks + detail;
    assert line[..10] == meter && line[10..] == marks + detail;
    TrimLeftOff(marks, detail, c => c == ':' || c == ' ');
  }

  lemma {:induction false} LegalMore(c: Client, es: seq<Event>, e: Event)
    requires Legal(c, es) && Enabled(Run(c, es), e)
    ensures Legal(c, es + [e]) && Run(c, es + [e]) == Apply(Run(c, es), e)
    decreases |es|
  {
    hide Enabled, Apply;
    if es == [] {
      assert es + [e] == [e] && [e][1..] == [];
    } else {
      assert (es + [e])[1..] == es[1..] + [e];
      LegalMore(Apply(c, es[0]), es[1..], e);
    }
  }

  /** Lines of which none is a final result. */
  predicate Running(after: seq<Event>) {
    forall i :: 0 <= i < |after| ==> after[i].LineRead? && !Answers(after[i].line)
  }

  lemma {:induction false} RunningAnswersNothing(es: seq<Event>, after: seq<Event>)
    requires Legal(FRESH, es) && Running(after)
    ensures Legal(FRESH, es + after)
    ensures var c, d := Run(FRESH, es), Run(FRESH, es + after); d == c.(pending := d.pending, urcs := d.urcs)
    decreases |after|
  {
    hide Run, Legal, Apply, Answers;
    if after == [] {
      assert es + after == es;
    } else {
      var front, e := after[..|after| - 1], after[|after| - 1];
      RunningAnswersNothing(es, front);
      LineStep(Run(FRESH, es + front), e.line);
      LegalMore(FRESH, es + front, e);
      assert es + after == es + front + [e];
    }
  }

  /**
  A command sent while no response is queued, then any lines, then a final result: the
  command gets back exactly the bodies read in between.
  */
  lemma ExchangeReturnsItsLines(es: seq<Event>, after: seq<Event>, line: string)
    requires Legal(FRESH, es) && !Run(FRESH, es).locked && Run(FRESH, es).queue == [] && Running(after) && Answers(line)
    ensures var c := Run(FRESH, es);
      && Legal(FRESH, es + [SendStarts] + after)
      && var d := Apply(Run(FRESH, es + [SendStarts] + after), LineRead(line));
         && d.commands == c.commands + 1 && d.queue == [Reply(line, BodyLines(after))] && d.locked
         && Apply(d, SendGets).delivered == c.delivered + [Delivery(c.commands, |c.delivered|, Reply(line, BodyLines(after)))]
  {
    hide Run, Legal, Reply, Answers, BodyLines;
    LegalMore(FRESH, es, SendStarts);
    RunningAnswersNothing(es + [SendStarts], after);
    FinalLineAnswers(es, SendStarts, after, line);
    LineStep(Run(FRESH, es + [SendStarts] + after), line);
  }

  lemma NamedStarts(line: string, name: string)
    requires Named(line, name)
    ensures name <= line
  {
    assert name <= name + ":" && name <= name + " ";
  }

  lemma NotNamed(line: string, name: string, i: nat)
    requires i < |line| && i < |name| && line[i] != name[i]
    ensures !Named(line, name)
  {
    if Named(line, name) { NamedStarts(line, name); }
  }

  lemma CallLineIsBody(line: string)
    requires "+CLCC" <= line
    ensures IsBody(LineRead(line))
  {
    hide Named;
    assert line[0] == '+' && line[1] == 'C' && line[2] == 'L' && line[3] == 'C';
    NotNamed(line, "RING", 0);
    NotNamed(line, "NO CARRIER", 0);
    NotNamed(line, "BUSY", 0);
    NotNamed(line, "NO DIALTONE", 0);
    NotNamed(line, "NO ANSWER", 0);
    NotNamed(line, "+CLIP", 3);
    NotNamed(line, "+CREG", 2);
    NotNamed(line, "+CMTI", 2);
  }

  lemma {:induction false} BodiesHold(after: seq<Event>, line: string)
    requires IsBody(LineRead(line))
    ensures line in BodyLines(after) <==> LineRead(line) in after
    decreases |after|
  {
    hide Answers, Announcement;
    if after != [] {
      var front, e := after[..|after| - 1], after[|after| - 1];
      assert after == front + [e];
      BodiesHold(front, line);
    }
  }

  /**
  So the CLCC poller is told of an active call exactly when a line that says so was read
  between its AT+CLCC and the OK.
  */
  lemma PollerIsToldWhatWasRead(es: seq<Event>, after: seq<Event>)
    requires Legal(FRESH, es) && !Run(FRESH, es).locked && Run(FRESH, es).queue == [] && Running(after)
    ensures Legal(FRESH, es + [SendStarts] + after)
    ensures var d := Apply(Run(FRESH, es + [SendStarts] + after), LineRead("OK"));
      && d.queue != [] && d.locked
      && ((exists line :: line in d.queue[0].lines && IsActiveCall(line))
          <==> exists line :: LineRead(line) in after && IsActiveCall(line))
  {
    hide Run, Legal, BodyLines, IsBody;
    ExchangeReturnsItsLines(es, after, "OK");
    forall line | IsActiveCall(line) ensures line in BodyLines(after) <==> LineRead(line) in after {
      CallLineIsBody(line);
      BodiesHold(after, line);
    }
  }
}
