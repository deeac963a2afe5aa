/** The port-scan differ and its poll loop: platforms/windows_serial.py. */
module PortWatcher {
  import opened Options

  /** _PortIdentity, without the device node it is keyed by. */
  datatype Identity = Identity(vid: Option<string>, pid: Option<string>, serial: Option<string>)

  type Scan = map<string, Identity>

  /** What an event tells downstream about a port. */
  datatype Port = Port(vid: Option<string>, pid: Option<string>)

  datatype Event = Remove(node: string, port: Port) | Add(node: string, port: Port)

  function Seen(id: Identity): Port {
    Port(id.vid, id.pid)
  }

  function Project(scan: Scan): map<string, Port> {
    map node | node in scan :: Seen(scan[node])
  }

  predicate Changed(a: Scan, b: Scan, node: string) {
    node in a && (node !in b || a[node] != b[node])
  }

  // ----- Replaying events ----------------------------------------------------------

  /** A remove must name a present port as it was, an add an absent one. */
  predicate Fits(ports: map<string, Port>, e: Event) {
    match e
    case Remove(node, port) => node in ports && ports[node] == port
    case Add(node, _) => node !in ports
  }

  function Replay(ports: map<string, Port>, e: Event): map<string, Port> {
    match e
    case Remove(node, _) => ports - {node}
    case Add(node, port) => ports[node := port]
  }

  predicate AllFit(ports: map<string, Port>, es: seq<Event>)
    decreases |es|
  {
    es == [] || (Fits(ports, es[0]) && AllFit(Replay(ports, es[0]), es[1..]))
  }

  function ReplayAll(ports: map<string, Port>, es: seq<Event>): map<string, Port>
    decreases |es|
  {
    if es == [] then ports else ReplayAll(Replay(ports, es[0]), es[1..])
  }

  lemma {:induction false} ReplayMore(ports: map<string, Port>, es: seq<Event>, e: Event)
    ensures ReplayAll(ports, es + [e]) == Replay(ReplayAll(ports, es), e)
    ensures AllFit(ports, es + [e]) <==> AllFit(ports, es) && Fits(ReplayAll(ports, es), e)
    decreases |es|
  {
    if es == [] {
      assert es + [e] == [e] && [e][1..] == [];
    } else {
      assert (es + [e])[1..] == es[1..] + [e];
      ReplayMore(Replay(ports, es[0]), es[1..], e);
    }
  }

  lemma {:induction false} ReplayJoin(ports: map<string, Port>, a: seq<Event>, b: seq<Event>)
    ensures ReplayAll(ports, a + b) == ReplayAll(ReplayAll(ports, a), b)
    ensures AllFit(ports, a + b) <==> AllFit(ports, a) && AllFit(ReplayAll(ports, a), b)
    decreases |a|
  {
    if a == [] {
      assert a + b == b;
    } else {
      assert (a + b)[1..] == a[1..] + b;
      ReplayJoin(Replay(ports, a[0]), a[1..], b);
    }
  }

  // ----- The differ ------------------------------------------------------------------

  predicate IsRemoveOf(e: Event, prev: Scan, curr: Scan) {
    e.Remove? && Changed(prev, curr, e.node) && e.port == Seen(prev[e.node])
  }

  predicate IsAddOf(e: Event, prev: Scan, curr: Scan) {
    e.Add? && Changed(curr, prev, e.node) && e.port == Seen(curr[e.node])
  }

  ghost predicate Once(es: seq<Event>) {
    forall i, j :: 0 <= i < j < |es| ==> es[i].node != es[j].node
  }

  ghost predicate Names(es: seq<Event>, node: string) {
    exists i :: 0 <= i < |es| && es[i].node == node
  }

  /** A remove for exactly the ports gone or changed, once each. */
  ghost predicate AreRemoves(es: seq<Event>, prev: Scan, curr: Scan) {
    && (forall i :: 0 <= i < |es| ==> IsRemoveOf(es[i], prev, curr))
    && Once(es)
    && (forall node :: Changed(prev, curr, node) ==> Names(es, node))
  }

  /** An add for exactly the ports new or changed, once each. */
  ghost predicate AreAdds(es: seq<Event>, prev: Scan, curr: Scan) {
    && (forall i :: 0 <= i < |es| ==> IsAddOf(es[i], prev, curr))
    && Once(es)
    && (forall node :: Changed(curr, prev, node) ==> Names(es, node))
  }

  lemma NamesMore(es: seq<Event>, e: Event, node: string)
    ensures Names(es + [e], node) <==> Names(es, node) || e.node == node
  {
    var more := es + [e];
    assert more[|es|] == e;
    if Names(es, node) {
      var i :| 0 <= i < |es| && es[i].node == node;
      assert more[i] == es[i];
    }
    if Names(more, node) && e.node != node {
      var i :| 0 <= i < |more| && more[i].node == node;
      assert es[i] == more[i];
    }
  }

  lemma OnceMore(es: seq<Event>, e: Event)
    requires Once(es) && !Names(es, e.node)
    ensures Once(es + [e])
  {
  }

  /** The first loop after walking `done`. */
  ghost predicate Removing(es: seq<Event>, done: set<string>, prev: Scan, curr: Scan) {
    && (forall i :: 0 <= i < |es| ==> IsRemoveOf(es[i], prev, curr))
    && Once(es)
    && (forall node :: Names(es, node) <==> node in done && Changed(prev, curr, node))
    && AllFit(Project(prev), es)
    && ReplayAll(Project(prev), es) == Without(prev, curr, done)
  }

  lemma RemovingStep(es: seq<Event>, done: set<string>, prev: Scan, curr: Scan, node: string)
    requires Removing(es, done, prev, curr) && node in prev && node !in done
    ensures var e := Remove(node, Seen(prev[node]));
      Removing(if Changed(prev, curr, node) then es + [e] else es, done + {node}, prev, curr)
  {
    hide Fits, Replay, Without, Project, Names, IsRemoveOf;
    var e := Remove(node, Seen(prev[node]));
    RemoveReplays(done, prev, curr, node);
    if Changed(prev, curr, node) {
      ReplayMore(Project(prev), es, e);
      OnceMore(es, e);
      forall k ensures Names(es + [e], k) <==> k in done + {node} && Changed(prev, curr, k) { NamesMore(es, e, k); }
    }
  }

  lemma RemoveReplays(done: set<string>, prev: Scan, curr: Scan, node: string)
    requires node in prev && node !in done
    ensures var e := Remove(node, Seen(prev[node]));
      if Changed(prev, curr, node) then
        IsRemoveOf(e, prev, curr) && Fits(Without(prev, curr, done), e) && Replay(Without(prev, curr, done), e) == Without(prev, curr, done + {node})
      else Without(prev, curr, done) == Without(prev, curr, done + {node})
  {
  }

  /** The first loop of _diff_scans; the dictionary is walked in any order. */
  method FindRemoves(prev: Scan, curr: Scan) returns (events: seq<Event>)
    ensures AreRemoves(events, prev, curr)
    ensures AllFit(Project(prev), events) && ReplayAll(Project(prev), events) == Without(prev, curr, prev.Keys)
  {
    events := [];
    var todo := prev.Keys;
    ghost var done: set<string> := {};
    assert Without(prev, curr, {}) == Project(prev);
    while todo != {}
      invariant todo + done == prev.Keys && todo !! done
      invariant Removing(events, done, prev, curr)
      decreases todo
    {
      var node :| node in todo;
      todo := todo - {node};
      RemovingStep(events, done, prev, curr, node);
      if node !in curr || curr[node] != prev[node] {
        events := events + [Remove(node, Seen(prev[node]))];
      }
      done := done + {node};
    }
    assert done == prev.Keys;
  }

  /** The second loop after walking `done`. */
  ghost predicate Adding(es: seq<Event>, done: set<string>, prev: Scan, curr: Scan) {
    && (forall i :: 0 <= i < |es| ==> IsAddOf(es[i], prev, curr))
    && Once(es)
    && (forall node :: Names(es, node) <==> node in done && Changed(curr, prev, node))
    && AllFit(Partly(prev, curr, {}), es)
    && ReplayAll(Partly(prev, curr, {}), es) == Partly(prev, curr, done)
  }

  lemma AddingStep(es: seq<Event>, done: set<string>, prev: Scan, curr: Scan, node: string)
    requires Adding(es, done, prev, curr) && node in curr && node !in done
    ensures var e := Add(node, Seen(curr[node]));
      Adding(if Changed(curr, prev, node) then es + [e] else es, done + {node}, prev, curr)
  {
    hide Fits, Replay, Partly, Names, IsAddOf;
    var e := Add(node, Seen(curr[node]));
    AddReplays(done, prev, curr, node);
    if Changed(curr, prev, node) {
      ReplayMore(Partly(prev, curr, {}), es, e);
      OnceMore(es, e);
      forall k ensures Names(es + [e], k) <==> k in done + {node} && Changed(curr, prev, k) { NamesMore(es, e, k); }
    }
  }

  lemma AddReplays(done: set<string>, prev: Scan, curr: Scan, node: string)
    requires node in curr && node !in done
    ensures var e := Add(node, Seen(curr[node]));
      if Changed(curr, prev, node) then
        IsAddOf(e, prev, curr) && Fits(Partly(prev, curr, done), e) && Replay(Partly(prev, curr, done), e) == Partly(prev, curr, done + {node})
      else Partly(prev, curr, done) == Partly(prev, curr, done + {node})
  {
  }

  /** The second loop. */
  method FindAdds(prev: Scan, curr: Scan) returns (events: seq<Event>)
    ensures AreAdds(events, prev, curr)
    ensures AllFit(Partly(prev, curr, {}), events) && ReplayAll(Partly(prev, curr, {}), events) == Project(curr)
  {
    events := [];
    var todo := curr.Keys;
    ghost var done: set<string> := {};
    while todo != {}
      invariant todo + done == curr.Keys && todo !! done
      invariant Adding(events, done, prev, curr)
      decreases todo
    {
      var node :| node in todo;
      todo := todo - {node};
      AddingStep(events, done, prev, curr, node);
      if node !in prev || prev[node] != curr[node] {
        events := events + [Add(node, Seen(curr[node]))];
      }
      done := done + {node};
    }
    assert done == curr.Keys;
    assert Partly(prev, curr, curr.Keys) == Project(curr);
  }

  /**
  _diff_scans: removes first, then adds. Replayed over the previous scan the events
  fit one by one and give the current one.
  */
  method DiffScans(prev: Scan, curr: Scan) returns (events: seq<Event>)
    ensures exists removes, adds :: events == removes + adds && AreRemoves(removes, prev, curr) && AreAdds(adds, prev, curr)
    ensures AllFit(Project(prev), events) && ReplayAll(Project(prev), events) == Project(curr)
    ensures forall i :: 0 <= i < |events| ==>
              match events[i]
              case Remove(node, port) =>
                node in prev && port.vid == prev[node].vid && port.pid == prev[node].pid && (node in curr ==> curr[node] != prev[node])
              case Add(node, port) =>
                node in curr && port.vid == curr[node].vid && port.pid == curr[node].pid && (node in prev ==> prev[node] != curr[node])
  {
    var removes := FindRemoves(prev, curr);
    var adds := FindAdds(prev, curr);
    assert Without(prev, curr, prev.Keys) == Partly(prev, curr, {});
    ReplayJoin(Project(prev), removes, adds);
    events := removes + adds;
  }

  /** The previous ports with the removals among `done` carried out. */
  ghost function Without(prev: Scan, curr: Scan, done: set<string>): map<string, Port> {
    map node | node in prev && !(node in done && Changed(prev, curr, node)) :: Seen(prev[node])
  }

  /** The unchanged ports and the additions among `done`. */
  ghost function Partly(prev: Scan, curr: Scan, done: set<string>): map<string, Port> {
    map node | node in curr && (node in done || !Changed(curr, prev, node)) :: Seen(curr[node])
  }

  // ----- The poll loop ------------------------------------------------------------------

  /** One scan: a result, or an exception that is swallowed. */
  datatype Poll = Scanned(scan: Scan) | Failed

  /** The scan the watcher last succeeded with; a failed seed counts as empty. */
  function LastGood(seed: Poll, polls: seq<Poll>): Scan {
    if polls == [] then (if seed.Scanned? then seed.scan else map[])
    else
      var last := polls[|polls| - 1];
      if last.Scanned? then last.scan else LastGood(seed, polls[..|polls| - 1])
  }

  /** It is the result of the last successful poll, of the seed if none was, and nothing if the seed failed too. */
  lemma {:induction false} LastGoodIsTheLast(seed: Poll, polls: seq<Poll>) returns (i: nat)
    ensures i <= |polls| && (forall j :: i <= j < |polls| ==> polls[j].Failed?)
    ensures i > 0 ==> polls[i - 1] == Scanned(LastGood(seed, polls))
    ensures i == 0 ==> (if seed.Scanned? then seed == Scanned(LastGood(seed, polls)) else LastGood(seed, polls) == map[])
    decreases |polls|
  {
    i := |polls|;
    if polls != [] && polls[|polls| - 1].Failed? {
      i := LastGoodIsTheLast(seed, polls[..|polls| - 1]);
    }
  }

  /**
  _poll_loop: after any run of polls and scan failures, replaying everything queued
  over the seed scan gives the last successful one, and every event fits where it comes.
  */
  method PollLoop(seed: Poll, polls: seq<Poll>) returns (queue: seq<Event>, prev: Scan)
    ensures prev == LastGood(seed, polls)
    ensures AllFit(Project(LastGood(seed, [])), queue)
    ensures ReplayAll(Project(LastGood(seed, [])), queue) == Project(LastGood(seed, polls))
  {
    queue := [];
    prev := if seed.Scanned? then seed.scan else map[];
    var i := 0;
    while i < |polls|
      invariant i <= |polls| && prev == LastGood(seed, polls[..i])
      invariant AllFit(Project(LastGood(seed, [])), queue)
      invariant ReplayAll(Project(LastGood(seed, [])), queue) == Project(prev)
    {
      assert polls[..i + 1][..i] == polls[..i];
      var poll := polls[i];
      i := i + 1;
      if poll.Failed? {
        continue;
      }
      var events := DiffScans(prev, poll.scan);
      ReplayJoin(Project(LastGood(seed, [])), queue, events);
      queue := queue + events;
      prev := poll.scan;
    }
    assert polls[..i] == polls;
  }
}
