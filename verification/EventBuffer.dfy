/**
The two buffers behind the uplink (transport/sqlite_buffer.py and the deque of
transport/grpc_client.py) and the pager that drains the durable one.
*/
module EventBuffer {
  import opened Options

  /** A row of pending_events; `ok` says whether its payload still parses. */
  datatype Row<F> = Row(rowid: nat, frame: F, ok: bool)

  const PAGE_SIZE: nat := 256

  predicate Ascending<F>(rows: seq<Row<F>>) {
    forall i, j :: 0 <= i < j < |rows| ==> rows[i].rowid < rows[j].rowid
  }

  /** The rows with seq above `last`: WHERE seq > ? ORDER BY seq, on an ascending table. */
  function Above<F>(rows: seq<Row<F>>, last: int): seq<Row<F>> {
    if rows == [] then []
    else if rows[0].rowid > last then rows
    else Above(rows[1..], last)
  }

  /** The newest n entries. */
  function Newest<T>(s: seq<T>, n: nat): seq<T> {
    if |s| <= n then s else s[|s| - n..]
  }

  function Readable<F>(rows: seq<Row<F>>): seq<Row<F>> {
    if rows == [] then []
    else (if rows[0].ok then [rows[0]] else []) + Readable(rows[1..])
  }

  /** The unreadable rows after the last readable one. */
  function Dregs<F>(rows: seq<Row<F>>): seq<Row<F>> {
    if Readable(rows) == [] then rows else Dregs(rows[1..])
  }

  // ----- Facts about tables -------------------------------------------------

  lemma {:induction false} AboveIsSuffix<F>(rows: seq<Row<F>>, last: int)
    ensures |Above(rows, last)| <= |rows| && Above(rows, last) == rows[|rows| - |Above(rows, last)|..]
    ensures Ascending(rows) ==> Ascending(Above(rows, last))
    decreases |rows|
  {
    if rows != [] && rows[0].rowid <= last {
      AboveIsSuffix(rows[1..], last);
    }
  }

  /** On an ascending table `Above` is the filter SQL means. */
  lemma {:induction false} AboveIsFilter<F>(rows: seq<Row<F>>, last: int)
    requires Ascending(rows)
    ensures forall r :: r in Above(rows, last) <==> r in rows && r.rowid > last
    decreases |rows|
  {
    if rows != [] && rows[0].rowid <= last {
      AboveIsFilter(rows[1..], last);
      assert rows == [rows[0]] + rows[1..];
    }
  }

  lemma {:induction false} AboveTwice<F>(rows: seq<Row<F>>, low: int, high: int)
    requires Ascending(rows) && low <= high
    ensures Above(Above(rows, low), high) == Above(rows, high)
    decreases |rows|
  {
    if rows != [] && rows[0].rowid <= low {
      AboveTwice(rows[1..], low, high);
    }
  }

  /** Dropping through the row after a prefix leaves what follows it. */
  lemma {:induction false} AboveSplit<F>(front: seq<Row<F>>, row: Row<F>, back: seq<Row<F>>)
    requires Ascending(front + [row] + back)
    ensures Above(front + [row] + back, row.rowid) == back
    decreases |front|
  {
    var rows := front + [row] + back;
    if front == [] {
      assert rows == [row] + back;
      assert rows[1..] == back;
      if back != [] { assert rows[0].rowid < rows[1].rowid; }
    } else {
      assert rows[0].rowid < rows[|front|].rowid;
      assert rows[1..] == front[1..] + [row] + back;
      AboveSplit(front[1..], row, back);
    }
  }

  lemma {:induction false} ReadableJoin<F>(a: seq<Row<F>>, b: seq<Row<F>>)
    ensures Readable(a + b) == Readable(a) + Readable(b)
    decreases |a|
  {
    if a == [] {
      assert a + b == b && [] + Readable(b) == Readable(b);
    } else {
      var first := if a[0].ok then [a[0]] else [];
      ReadableJoin(a[1..], b);
      assert (a + b)[0] == a[0] && (a + b)[1..] == a[1..] + b;
      assert first + (Readable(a[1..]) + Readable(b)) == (first + Readable(a[1..])) + Readable(b);
    }
  }

  lemma {:induction false} ReadableIn<F>(rows: seq<Row<F>>, r: Row<F>)
    ensures r in Readable(rows) <==> r in rows && r.ok
    decreases |rows|
  {
    if rows != [] {
      ReadableIn(rows[1..], r);
      assert rows == [rows[0]] + rows[1..];
    }
  }

  // ----- Drop-oldest ----------------------------------------------------------

  function AppendAll<T>(s: seq<T>, xs: seq<T>, cap: nat): seq<T>
    decreases |xs|
  {
    if xs == [] then s else AppendAll(Newest(s + [xs[0]], cap), xs[1..], cap)
  }

  lemma NewestOfNewest<T>(a: seq<T>, b: seq<T>, cap: nat)
    ensures Newest(Newest(a, cap) + b, cap) == Newest(a + b, cap)
  {
  }

  /** n appends to a buffer within its bound leave the newest min(n + held, cap) entries, in order. */
  lemma {:induction false} AppendsKeepTheNewest<T>(s: seq<T>, xs: seq<T>, cap: nat)
    requires |s| <= cap
    ensures AppendAll(s, xs, cap) == Newest(s + xs, cap) == (s + xs)[if |s + xs| > cap then |s + xs| - cap else 0..]
    decreases |xs|
  {
    if xs == [] {
      assert s + xs == s;
    } else {
      assert s + xs == (s + [xs[0]]) + xs[1..];
      AppendsKeepTheNewest(Newest(s + [xs[0]], cap), xs[1..], cap);
      NewestOfNewest(s + [xs[0]], xs[1..], cap);
    }
  }

  // ----- The durable buffer -----------------------------------------------------

  class SqliteEventBuffer<F> {
    const capacity: nat
    var rows: seq<Row<F>>      // the table, by seq
    var lastSeq: nat           // the AUTOINCREMENT high-water mark
    var evictedRows: nat

    ghost predicate Valid()
      reads this
    {
      && capacity > 0
      && Ascending(rows)
      && forall r :: r in rows ==> r.rowid <= lastSeq
    }

    constructor (capacity: nat)
      requires capacity > 0
      ensures Valid() && this.capacity == capacity && rows == [] && evictedRows == 0
    {
      this.capacity := capacity;
      rows := [];
      lastSeq := 0;
      evictedRows := 0;
    }

    /** Inserts, then evicts the oldest rows beyond the capacity; never the new row. */
    method Append(frame: F) returns (seqNo: nat)
      requires Valid()
      modifies this
      ensures Valid()
      ensures seqNo == old(lastSeq) + 1 && lastSeq == seqNo
      ensures rows == Newest(old(rows) + [Row(seqNo, frame, true)], capacity)
      ensures rows != [] && rows[|rows| - 1] == Row(seqNo, frame, true)
      ensures evictedRows - old(evictedRows) == old(|rows|) + 1 - |rows|
    {
      seqNo := lastSeq + 1;
      lastSeq := seqNo;
      rows := rows + [Row(seqNo, frame, true)];
      var evicted := EnforceCapacity();
      if evicted > 0 {
        evictedRows := evictedRows + evicted;
      }
    }

    method EnforceCapacity() returns (evicted: nat)
      requires Valid()
      modifies this`rows
      ensures Valid() && rows == Newest(old(rows), capacity)
      ensures evicted == old(|rows|) - |rows|
    {
      var count := |rows|;
      if count <= capacity {
        return 0;
      }
      var excess := count - capacity;
      rows := rows[excess..];
      return excess;
    }

    /** DELETE ... WHERE seq <= ? */
    method DeleteThrough(through: int) returns (deleted: nat)
      requires Valid()
      modifies this`rows
      ensures Valid() && rows == Above(old(rows), through)
      ensures forall r :: r in rows <==> r in old(rows) && r.rowid > through
      ensures deleted == old(|rows|) - |rows|
    {
      AboveIsSuffix(rows, through);
      AboveIsFilter(rows, through);
      deleted := 0;
      ghost var was := rows;
      while rows != [] && rows[0].rowid <= through
        invariant Valid() && Above(rows, through) == Above(was, through)
        invariant deleted == |was| - |rows|
        decreases |rows|
      {
        rows := rows[1..];
        deleted := deleted + 1;
      }
    }
  }

  // ----- The pager ---------------------------------------------------------------

  /** iter_pending: the page in hand and the last seq it has passed. */
  datatype Pager<F> = Pager(last: int, page: seq<Row<F>>)

  function Start<F>(): Pager<F> {
    Pager(-1, [])
  }

  /** The seq the next query will ask beyond. */
  function Horizon<F>(p: Pager<F>): int {
    if p.page == [] then p.last else p.page[|p.page| - 1].rowid
  }

  /** Everything the pager would still walk over if the table stood still. */
  function Ahead<F>(p: Pager<F>, rows: seq<Row<F>>): seq<Row<F>> {
    p.page + Above(rows, Horizon(p))
  }

  predicate PagerOk<F>(p: Pager<F>) {
    && Ascending(p.page)
    && (p.page != [] ==> p.last < p.page[0].rowid)
  }

  /** SELECT ... LIMIT 256 */
  function Query<F>(rows: seq<Row<F>>, last: int): seq<Row<F>> {
    var all := Above(rows, last);
    if |all| <= PAGE_SIZE then all else all[..PAGE_SIZE]
  }

  lemma QueryIsPrefix<F>(rows: seq<Row<F>>, last: int)
    requires Ascending(rows)
    ensures Query(rows, last) + Above(rows, Horizon(Pager(last, Query(rows, last)))) == Above(rows, last)
  {
    var all, page := Above(rows, last), Query(rows, last);
    AboveIsSuffix(rows, last);
    if all != [] {
      var n := |page|;
      var front, row, back := all[..n - 1], all[n - 1], all[n..];
      assert all == front + [row] + back;
      AboveSplit(front, row, back);
      AboveIsFilter(rows, last);
      assert row in all;
      AboveTwice(rows, last, row.rowid);
      assert page == front + [row];
    }
  }

  lemma QuerySplits<F>(rows: seq<Row<F>>, last: int)
    requires Ascending(rows)
    ensures var p := Pager(last, Query(rows, last));
      PagerOk(p) && Ahead(p, rows) == Above(rows, last) && (p.page == [] <==> Above(rows, last) == [])
  {
    hide Above;
    AboveIsSuffix(rows, last);
    AboveIsFilter(rows, last);
    if Above(rows, last) != [] { assert Above(rows, last)[0] in Above(rows, last); }
    QueryIsPrefix(rows, last);
  }

  lemma AheadSteps<F>(p: Pager<F>, rows: seq<Row<F>>)
    requires PagerOk(p) && p.page != []
    ensures var q := Pager(p.page[0].rowid, p.page[1..]);
      PagerOk(q) && p.last < q.last && Ahead(p, rows) == [p.page[0]] + Ahead(q, rows)
  {
  }

  /** The pager with a page in hand, if there is anything to read. */
  function Filled<F>(rows: seq<Row<F>>, p: Pager<F>): Pager<F> {
    if p.page == [] then Pager(p.last, Query(rows, p.last)) else p
  }

  lemma FilledAhead<F>(rows: seq<Row<F>>, p: Pager<F>)
    requires Ascending(rows) && PagerOk(p)
    ensures var q := Filled(rows, p);
      PagerOk(q) && q.last == p.last && Ahead(q, rows) == Ahead(p, rows) && (q.page == [] <==> Ahead(p, rows) == [])
    ensures var q := Filled(rows, p); q.page != [] ==>
      var next := Pager(q.page[0].rowid, q.page[1..]);
      PagerOk(next) && p.last < next.last && Ahead(p, rows) == [q.page[0]] + Ahead(next, rows)
  {
    QuerySplits(rows, p.last);
    if Filled(rows, p).page != [] { AheadSteps(Filled(rows, p), rows); }
  }

  /** One __next__ against the table as it stands now; unreadable rows are passed over. */
  function Pull<F>(rows: seq<Row<F>>, p: Pager<F>): (Pager<F>, Option<Row<F>>)
    requires Ascending(rows) && PagerOk(p)
    decreases |Ahead(p, rows)|
  {
    FilledAhead(rows, p);
    var q := Filled(rows, p);
    if q.page == [] then (p, None)
    else
      var row, next := q.page[0], Pager(q.page[0].rowid, q.page[1..]);
      if row.ok then (next, Some(row)) else Pull(rows, next)
  }

  /** iter_pending between two yields: pages are queried as they run out. */
  method Next<F>(rows: seq<Row<F>>, start: Pager<F>) returns (p: Pager<F>, r: Option<Row<F>>)
    requires Ascending(rows) && PagerOk(start)
    ensures PagerOk(p) && (p, r) == Pull(rows, start)
  {
    p := start;
    while true
      invariant PagerOk(p) && Pull(rows, p) == Pull(rows, start)
      decreases |Ahead(p, rows)|
    {
      FilledAhead(rows, p);
      if p.page == [] {
        var page := Query(rows, p.last);
        if page == [] {
          return p, None;
        }
        p := Pager(p.last, page);
        FilledAhead(rows, p);
      }
      var row := p.page[0];
      p := Pager(row.rowid, p.page[1..]);
      if row.ok {
        return p, Some(row);
      }
    }
  }

  /** What a pull finds: `front` is passed over. */
  ghost predicate Found<F>(all: seq<Row<F>>, front: seq<Row<F>>, r: Option<Row<F>>, back: seq<Row<F>>) {
    && Readable(front) == []
    && if r.None? then all == front && back == [] else r.value.ok && all == front + [r.value] + back
  }

  lemma FoundBehind<F>(row: Row<F>, all: seq<Row<F>>, front: seq<Row<F>>, r: Option<Row<F>>, back: seq<Row<F>>)
    requires Found(all, front, r, back) && !row.ok
    ensures Found([row] + all, [row] + front, r, back)
  {
  }

  /** A pull hands out the first readable row ahead and passes over the unreadable ones before it. */
  lemma {:induction false} PullSplits<F>(rows: seq<Row<F>>, p: Pager<F>) returns (front: seq<Row<F>>)
    requires Ascending(rows) && PagerOk(p)
    ensures var (q, r) := Pull(rows, p);
      && PagerOk(q) && p.last <= q.last
      && Found(Ahead(p, rows), front, r, Ahead(q, rows))
      && (r.Some? ==> q.last == r.value.rowid && p.last < q.last)
    decreases |Ahead(p, rows)|
  {
    hide Ahead, Filled, Found, PagerOk;
    FilledAhead(rows, p);
    var f := Filled(rows, p);
    front := [];
    if f.page != [] {
      var row, next := f.page[0], Pager(f.page[0].rowid, f.page[1..]);
      if row.ok {
        FoundFirst(row, Ahead(next, rows));
      } else {
        var tail := PullSplits(rows, next);
        var (q, r) := Pull(rows, next);
        FoundBehind(row, Ahead(next, rows), tail, r, Ahead(q, rows));
        front := [row] + tail;
      }
    } else {
      FoundNothing(rows, p);
    }
  }

  lemma FoundFirst<F>(row: Row<F>, back: seq<Row<F>>)
    requires row.ok
    ensures Found([row] + back, [], Some(row), back)
  {
  }

  lemma FoundNothing<F>(rows: seq<Row<F>>, p: Pager<F>)
    ensures Ahead(p, rows) == [] ==> Found(Ahead(p, rows), [], None, Ahead(p, rows))
  {
  }

  // ----- The pager against a table that changes under it -----------------------------

  /** A table, a pager over it, what the pager has yielded, and whether it has returned. */
  datatype Walk<F> = Walk(rows: seq<Row<F>>, lastSeq: nat, pager: Pager<F>, yielded: seq<Row<F>>, done: bool)

  datatype WalkStep<F> = Pulled | Deleted(through: int) | Appended(frame: F, capacity: nat)

  ghost predicate WalkOk<F>(w: Walk<F>) {
    && Ascending(w.rows) && PagerOk(w.pager) && Ascending(w.yielded)
    && (forall r :: r in w.rows ==> r.rowid <= w.lastSeq)
    && Horizon(w.pager) <= w.lastSeq
    && (forall r :: r in w.yielded ==> r.ok && r.rowid <= w.pager.last)
    && (forall r :: r in w.rows && r.ok && r.rowid <= w.pager.last ==> r in w.yielded)
    && (forall r :: r in w.rows && w.pager.last < r.rowid <= Horizon(w.pager) ==> r in w.pager.page)
  }

  function Yields<F>(w: Walk<F>, p: Pager<F>, r: Option<Row<F>>): Walk<F> {
    w.(pager := p, yielded := if r.Some? then w.yielded + [r.value] else w.yielded)
  }

  function Walked<F>(w: Walk<F>, x: WalkStep<F>): Walk<F>
    requires Ascending(w.rows) && PagerOk(w.pager)
  {
    match x
    case Pulled =>
      if w.done then w
      else
        var (p, r) := Pull(w.rows, w.pager);
        Yields(w, p, r).(done := r.None?)
    case Deleted(through) => w.(rows := Above(w.rows, through))
    case Appended(frame, capacity) =>
      w.(rows := Newest(w.rows + [Row(w.lastSeq + 1, frame, true)], capacity), lastSeq := w.lastSeq + 1)
  }

  /** A page holds every row between the seq it was asked beyond and its own last. */
  lemma PageIsWhole<F>(rows: seq<Row<F>>, last: int)
    requires Ascending(rows) && Query(rows, last) != []
    ensures var page := Query(rows, last); var end := page[|page| - 1];
      end in rows && forall r :: r in rows && last < r.rowid <= end.rowid ==> r in page
  {
    hide Above;
    var page := Query(rows, last);
    var end := page[|page| - 1];
    QueryIsPrefix(rows, last);
    AboveIsFilter(rows, last);
    AboveIsFilter(rows, end.rowid);
    var beyond := Above(rows, end.rowid);
    assert page + beyond == Above(rows, last);
    AboveIsSuffix(rows, last);
    assert end == Above(rows, last)[|page| - 1];
    forall r | r in rows && last < r.rowid <= end.rowid ensures r in page {
      assert r in page + beyond && r !in beyond;
    }
  }

  lemma FillOk<F>(w: Walk<F>)
    requires WalkOk(w)
    ensures WalkOk(w.(pager := Filled(w.rows, w.pager)))
  {
    hide Query, Above;
    if w.pager.page == [] {
      QuerySplits(w.rows, w.pager.last);
      if Query(w.rows, w.pager.last) != [] { PageIsWhole(w.rows, w.pager.last); }
    }
  }

  lemma AdvanceOk<F>(w: Walk<F>)
    requires WalkOk(w) && w.pager.page != []
    ensures var row := w.pager.page[0];
      WalkOk(Yields(w, Pager(row.rowid, w.pager.page[1..]), if row.ok then Some(row) else None))
  {
  }

  lemma {:induction false} PullOk<F>(w: Walk<F>)
    requires WalkOk(w) && !w.done
    ensures WalkOk(Walked(w, Pulled))
    decreases |Ahead(w.pager, w.rows)|
  {
    FillOk(w);
    FilledAhead(w.rows, w.pager);
    var f := w.(pager := Filled(w.rows, w.pager));
    if f.pager.page != [] {
      AdvanceOk(f);
      var row := f.pager.page[0];
      var next := Pager(row.rowid, f.pager.page[1..]);
      if row.ok {
        assert Walked(w, Pulled) == Yields(f, next, Some(row));
      } else {
        PullOk(w.(pager := next));
        assert Yields(f, next, None) == w.(pager := next);
      }
    }
  }

  lemma NewestRows<F>(all: seq<Row<F>>, n: nat)
    requires Ascending(all)
    ensures Ascending(Newest(all, n)) && forall r :: r in Newest(all, n) ==> r in all
  {
  }

  lemma AppendAscending<F>(rows: seq<Row<F>>, row: Row<F>)
    requires Ascending(rows) && forall r :: r in rows ==> r.rowid < row.rowid
    ensures Ascending(rows + [row])
  {
  }

  lemma AppendedOk<F>(w: Walk<F>, frame: F, capacity: nat)
    requires WalkOk(w)
    ensures WalkOk(Walked(w, Appended(frame, capacity)))
  {
    var row := Row(w.lastSeq + 1, frame, true);
    AppendAscending(w.rows, row);
    NewestRows(w.rows + [row], capacity);
    var v := Walked(w, Appended(frame, capacity));
    forall r | r in v.rows ensures r in w.rows || r == row {
      assert r in w.rows + [row];
    }
  }

  lemma WalkedOk<F>(w: Walk<F>, x: WalkStep<F>)
    requires WalkOk(w)
    ensures WalkOk(Walked(w, x))
  {
    match x
    case Pulled => if !w.done { PullOk(w); }
    case Deleted(through) =>
      AboveIsSuffix(w.rows, through);
      AboveIsFilter(w.rows, through);
    case Appended(frame, capacity) => AppendedOk(w, frame, capacity);
  }

  ghost function WalkRun<F>(w: Walk<F>, xs: seq<WalkStep<F>>): (v: Walk<F>)
    requires WalkOk(w)
    ensures WalkOk(v)
    decreases |xs|
  {
    if xs == [] then w
    else
      WalkedOk(w, xs[0]);
      WalkRun(Walked(w, xs[0]), xs[1..])
  }

  /** A pager over a table at rest. */
  function Opened<F>(rows: seq<Row<F>>, lastSeq: nat): Walk<F> {
    Walk(rows, lastSeq, Start(), [], false)
  }

  /**
  However appends, evictions and deletes fall between its yields, the pager yields in
  strictly increasing seq, readable rows only; and when it returns, every readable row
  then in the table has been yielded.
  */
  lemma PagerYieldsSurvivorsOnce<F>(rows: seq<Row<F>>, lastSeq: nat, xs: seq<WalkStep<F>>)
    requires Ascending(rows) && forall r :: r in rows ==> r.rowid <= lastSeq
    ensures WalkOk(Opened(rows, lastSeq))
    ensures var w := WalkRun(Opened(rows, lastSeq), xs); var v := Walked(w, Pulled);
      && Ascending(w.yielded) && (forall r :: r in w.yielded ==> r.ok)
      && (!w.done && v.done ==> v.rows == w.rows && forall r :: r in v.rows && r.ok ==> r in v.yielded)
  {
    var w := WalkRun(Opened(rows, lastSeq), xs);
    if !w.done && Walked(w, Pulled).done { NothingIsMissed(w); }
  }

  lemma NothingIsMissed<F>(w: Walk<F>)
    requires WalkOk(w) && Pull(w.rows, w.pager).1.None?
    ensures forall r :: r in w.rows && r.ok ==> r in w.yielded
  {
    var front := PullSplits(w.rows, w.pager);
    AboveIsFilter(w.rows, Horizon(w.pager));
    forall r | r in w.rows && r.ok ensures r in w.yielded {
      if r.rowid > w.pager.last {
        assert r in Ahead(w.pager, w.rows);
        ReadableIn(Ahead(w.pager, w.rows), r);
      }
    }
  }

  lemma NothingReadableAhead<F>(w: Walk<F>, r: Row<F>)
    requires WalkOk(w) && Pull(w.rows, w.pager).1.None? && r in Ahead(w.pager, w.rows)
    ensures !r.ok
  {
    var front := PullSplits(w.rows, w.pager);
    ReadableIn(front, r);
  }

  /**
  The pager is no snapshot: while it is suspended at a yield with nothing readable left
  ahead, a row appended before it is resumed is the next one it yields.
  */
  lemma LaterAppendsAreYielded<F>(w: Walk<F>, frame: F, capacity: nat)
    requires WalkOk(w) && !w.done && capacity > 0 && Walked(w, Pulled).done
    ensures var v := Walked(w, Appended(frame, capacity));
      WalkOk(v) && !Walked(v, Pulled).done && Walked(v, Pulled).yielded == w.yielded + [Row(w.lastSeq + 1, frame, true)]
  {
    hide Pull, Above, Ahead;
    var row, v := Row(w.lastSeq + 1, frame, true), Walked(w, Appended(frame, capacity));
    AppendedOk(w, frame, capacity);
    var front := PullSplits(v.rows, v.pager);
    var (q, r) := Pull(v.rows, v.pager);
    NewRowIsAhead(w, row, capacity);
    if r.None? {
      ReadableIn(front, row);
      assert false;
    }
    assert r.value in front + [r.value] + Ahead(q, v.rows);
    if r.value != row { NothingReadableAhead(w, r.value); }
  }

  /** Once it has found nothing it has returned, and yields nothing any more. */
  lemma {:induction false} ReturnedPagerYieldsNothing<F>(w: Walk<F>, xs: seq<WalkStep<F>>)
    requires WalkOk(w) && w.done
    ensures WalkRun(w, xs).done && WalkRun(w, xs).yielded == w.yielded
    decreases |xs|
  {
    if xs != [] {
      WalkedOk(w, xs[0]);
      ReturnedPagerYieldsNothing(Walked(w, xs[0]), xs[1..]);
    }
  }

  lemma NewRowIsAhead<F>(w: Walk<F>, row: Row<F>, capacity: nat)
    requires WalkOk(w) && capacity > 0 && row.rowid == w.lastSeq + 1
    ensures var rows := Newest(w.rows + [row], capacity);
      row in Ahead(w.pager, rows) && forall r :: r in Ahead(w.pager, rows) ==> r == row || r in Ahead(w.pager, w.rows)
  {
    hide Above, Newest;
    AppendAscending(w.rows, row);
    NewRowIsAbove(w.rows, row, capacity, Horizon(w.pager));
  }

  lemma AboveHas<F>(rows: seq<Row<F>>, last: int, r: Row<F>)
    requires Ascending(rows)
    ensures r in Above(rows, last) <==> r in rows && r.rowid > last
  {
    AboveIsFilter(rows, last);
  }

  lemma NewRowIsAbove<F>(rows: seq<Row<F>>, row: Row<F>, capacity: nat, last: int)
    requires Ascending(rows) && Ascending(rows + [row]) && capacity > 0 && last < row.rowid
    ensures var kept := Newest(rows + [row], capacity);
      row in Above(kept, last) && forall r :: r in Above(kept, last) ==> r == row || r in Above(rows, last)
  {
    hide Above;
    var kept := Newest(rows + [row], capacity);
    NewestRows(rows + [row], capacity);
    assert kept[|kept| - 1] == row;
    AboveHas(kept, last, row);
    forall r | r in Above(kept, last) ensures r == row || r in Above(rows, last) {
      AboveHas(kept, last, r);
      AboveHas(rows, last, r);
      assert r in rows + [row];
    }
  }

  // ----- Draining: put the row on the stream's queue, then delete through it -------------------

  /** Unreadable rows that a drain deletes on its way. */
  function Skipped<F>(rows: seq<Row<F>>): seq<Row<F>> {
    if Readable(rows) == [] then []
    else (if rows[0].ok then [] else [rows[0]]) + Skipped(rows[1..])
  }

  lemma ReadableAfter<F>(front: seq<Row<F>>, row: Row<F>, back: seq<Row<F>>)
    requires Readable(front) == [] && row.ok
    ensures Readable(front + [row] + back) == [row] + Readable(back)
  {
    ReadableJoin(front + [row], back);
    ReadableJoin(front, [row]);
  }

  lemma {:induction false} DregsAfter<F>(front: seq<Row<F>>, row: Row<F>, back: seq<Row<F>>)
    requires Readable(front) == [] && row.ok
    ensures Dregs(front + [row] + back) == Dregs(back)
    decreases |front|
  {
    ReadableAfter(front, row, back);
    var rows := front + [row] + back;
    if front == [] {
      assert rows[1..] == back;
      if Readable(back) == [] { NoDregsBelow(back); }
    } else {
      assert rows[1..] == front[1..] + [row] + back;
      DregsAfter(front[1..], row, back);
    }
  }

  lemma NoDregsBelow<F>(rows: seq<Row<F>>)
    requires Readable(rows) == []
    ensures Dregs(rows) == rows && Skipped(rows) == []
  {
  }

  /** The pager walks exactly what is left of the table. */
  ghost predicate Draining<F>(p: Pager<F>, rows: seq<Row<F>>) {
    Ascending(rows) && PagerOk(p) && Ahead(p, rows) == rows
  }

  lemma DrainStarts<F>(rows: seq<Row<F>>)
    requires Ascending(rows)
    ensures Draining(Start(), rows)
  {
  }

  lemma DrainStep<F>(p: Pager<F>, rows: seq<Row<F>>)
    requires Draining(p, rows)
    ensures var (q, r) := Pull(rows, p);
      if r.None? then Readable(rows) == [] && Dregs(rows) == rows && Skipped(rows) == []
      else
        var rest := Above(rows, r.value.rowid);
        && Draining(q, rest) && |rest| < |rows|
        && Readable(rows) == [r.value] + Readable(rest)
        && Dregs(rows) == Dregs(rest)
  {
    var front := PullSplits(rows, p);
    var (q, r) := Pull(rows, p);
    if r.None? {
      NoDregsBelow(rows);
    } else {
      var back := Ahead(q, rows);
      ReadableAfter(front, r.value, back);
      AboveSplit(front, r.value, back);
      DregsAfter(front, r.value, back);
      DrainHorizon(q, rows, r.value.rowid);
    }
  }

  lemma DrainHorizon<F>(q: Pager<F>, rows: seq<Row<F>>, last: nat)
    requires Ascending(rows) && PagerOk(q) && q.last == last
    ensures Ahead(q, Above(rows, last)) == Ahead(q, rows) && Ascending(Above(rows, last))
  {
  }
}
