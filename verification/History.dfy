/**
  Windowed download of a time series from a server that ignores the start of the
  requested range and returns at least `countBack` entries up to its end.
  Models the two pagination loops of src/lighter_rest_client.cpp.
 */
module History {
  import opened Arithmetic

  /** A candle or a funding event; times are in milliseconds. */
  datatype Entry<+P> = Entry(time: int, payload: P)

  datatype Request = Request(startSec: int, endSec: int, countBack: int)

  const MAX_BARS_PER_CALL := 500

  /** C++ integer division truncates toward zero. */
  function ToSeconds(ms: int): int {
    if ms >= 0 then ms / 1000 else -(-ms / 1000)
  }

  function Min(a: int, b: int): int {
    if a < b then a else b
  }

  function Max(a: int, b: int): int {
    if a < b then b else a
  }

  // ---- The requests ----------------------------------------------------

  function WindowEnd(cursor: int, toSec: int, step: int): int {
    Min(cursor + step * (MAX_BARS_PER_CALL - 1), toSec)
  }

  function CountBack(cursor: int, end: int, step: int): int
    requires step > 0
  {
    Min((end - cursor) / step + 1, MAX_BARS_PER_CALL)
  }

  function Requests(cursor: int, toSec: int, step: int): seq<Request>
    requires step > 0
    decreases toSec - cursor
  {
    if cursor >= toSec then []
    else
      var end := WindowEnd(cursor, toSec, step);
      [Request(cursor, end, CountBack(cursor, end, step))] + Requests(end, toSec, step)
  }

  /** The cap of 500 entries never cuts a window short. */
  lemma CountCoversWindow(cursor: int, toSec: int, step: int)
    requires step > 0 && cursor < toSec
    ensures var end := WindowEnd(cursor, toSec, step);
            CountBack(cursor, end, step) == (end - cursor) / step + 1 <= 500
  {
    var width := WindowEnd(cursor, toSec, step) - cursor;
    assert width <= step * 499;
    QuotientBound(width, step, 499);
  }

  /** As many requests as windows of 499 intervals are needed to cover the range. */
  lemma {:induction false} RequestCount(cursor: int, toSec: int, step: int)
    requires step > 0
    ensures var width := step * 499;
            |Requests(cursor, toSec, step)| == if cursor >= toSec then 0 else (toSec - cursor + width - 1) / width
    decreases toSec - cursor
  {
    var width := step * (MAX_BARS_PER_CALL - 1);
    if cursor < toSec {
      RequestCount(WindowEnd(cursor, toSec, step), toSec, step);
      if cursor + width < toSec {
        assert (toSec - cursor + width - 1) == (toSec - (cursor + width) + width - 1) + width;
        QuotientStep(toSec - (cursor + width) + width - 1, width);
      } else {
        QuotientOne(toSec - cursor, width);
      }
    }
  }

  /** At most 499 intervals wide, asking for one entry more than the whole intervals it spans. */
  ghost predicate IsWindow(r: Request, step: int)
    requires step > 0
  {
    r.startSec < r.endSec <= r.startSec + step * 499 && r.countBack == (r.endSec - r.startSec) / step + 1
  }

  /** Requests that cover a range in order without gap or overlap, all but the last 499 intervals wide. */
  ghost predicate Tile(rs: seq<Request>, from: int, to: int, step: int)
    requires step > 0
  {
    && (rs == [] ==> from >= to)
    && (rs != [] ==> rs[0].startSec == from && rs[|rs| - 1].endSec == to)
    && (forall k :: 0 <= k < |rs| ==> IsWindow(rs[k], step))
    && (forall k :: 0 <= k < |rs| - 1 ==>
          rs[k].endSec == rs[k + 1].startSec && rs[k].endSec == rs[k].startSec + step * 499)
  }

  lemma TileCons(r: Request, rs: seq<Request>, to: int, step: int)
    requires step > 0 && IsWindow(r, step) && Tile(rs, r.endSec, to, step) && r.endSec <= to
    requires r.endSec < to ==> r.endSec == r.startSec + step * 499
    ensures rs != [] || r.endSec == to ==> Tile([r] + rs, r.startSec, to, step)
  {
    var all := [r] + rs;
    if rs != [] {
      assert IsWindow(rs[0], step);
      assert r.endSec < to by { TileRuns(rs, r.endSec, to, step); }
    }
    assert forall k :: 0 < k < |all| ==> all[k] == rs[k - 1];
  }

  lemma {:induction false} TileRuns(rs: seq<Request>, from: int, to: int, step: int)
    requires step > 0 && rs != [] && Tile(rs, from, to, step)
    ensures from < to
  {
    assert IsWindow(rs[0], step);
    if |rs| > 1 {
      assert rs[0].endSec == rs[0 + 1].startSec;
      assert forall k :: 0 <= k < |rs[1..]| ==> rs[1..][k] == rs[k + 1];
      TileRuns(rs[1..], rs[0].endSec, to, step);
    }
  }

  lemma {:induction false} RequestsTile(cursor: int, toSec: int, step: int)
    requires step > 0
    ensures Tile(Requests(cursor, toSec, step), cursor, toSec, step)
    decreases toSec - cursor
  {
    if cursor < toSec {
      var end := WindowEnd(cursor, toSec, step);
      CountCoversWindow(cursor, toSec, step);
      RequestsTile(end, toSec, step);
      TileCons(Request(cursor, end, CountBack(cursor, end, step)), Requests(end, toSec, step), toSec, step);
    }
  }

  // ---- What the client keeps -------------------------------------------

  /** Entries of a batch in [lo, hi] and later than everything kept before. */
  function Kept<P>(batch: seq<Entry<P>>, lo: int, hi: int, last: int): seq<Entry<P>> {
    if batch == [] then []
    else if lo <= batch[0].time <= hi && batch[0].time > last
    then [batch[0]] + Kept(batch[1..], lo, hi, batch[0].time)
    else Kept(batch[1..], lo, hi, last)
  }

  function LastTime<P>(kept: seq<Entry<P>>, last: int): int {
    if kept == [] then last else kept[|kept| - 1].time
  }

  lemma {:induction false} KeptSnoc<P>(batch: seq<Entry<P>>, c: Entry<P>, lo: int, hi: int, last: int)
    ensures var k := Kept(batch, lo, hi, last);
            Kept(batch + [c], lo, hi, last) ==
            if lo <= c.time <= hi && c.time > LastTime(k, last) then k + [c] else k
  {
    if batch == [] {
      assert [c][1..] == [];
    } else {
      assert (batch + [c])[1..] == batch[1..] + [c];
      var taken := lo <= batch[0].time <= hi && batch[0].time > last;
      KeptSnoc(batch[1..], c, lo, hi, if taken then batch[0].time else last);
    }
  }

  /** What each request contributes; `serve` is any server whatever. */
  function Batches<P>(serve: Request -> seq<Entry<P>>, cursor: int, toSec: int, step: int, lo: int, hi: int,
                      last: int): seq<seq<Entry<P>>>
    requires step > 0
    decreases toSec - cursor
  {
    if cursor >= toSec then []
    else
      var end := WindowEnd(cursor, toSec, step);
      var kept := Kept(serve(Request(cursor, end, CountBack(cursor, end, step))), lo, hi, last);
      [kept] + Batches(serve, end, toSec, step, lo, hi, LastTime(kept, last))
  }

  function Flatten<P>(batches: seq<seq<P>>): seq<P> {
    if batches == [] then [] else batches[0] + Flatten(batches[1..])
  }

  lemma {:induction false} FlattenConcat<P>(a: seq<seq<P>>, b: seq<seq<P>>)
    ensures Flatten(a + b) == Flatten(a) + Flatten(b)
  {
    if a == [] {
      assert a + b == b;
    } else {
      assert (a + b)[1..] == a[1..] + b;
      FlattenConcat(a[1..], b);
    }
  }

  function NonEmpty<P>(batches: seq<seq<P>>): seq<seq<P>> {
    if batches == [] then []
    else (if batches[0] == [] then [] else [batches[0]]) + NonEmpty(batches[1..])
  }

  lemma {:induction false} NonEmptyConcat<P>(a: seq<seq<P>>, b: seq<seq<P>>)
    ensures NonEmpty(a + b) == NonEmpty(a) + NonEmpty(b)
  {
    if a == [] {
      assert a + b == b;
    } else {
      assert (a + b)[1..] == a[1..] + b;
      NonEmptyConcat(a[1..], b);
    }
  }

  /** The writer is never called with nothing, and what it is given adds up to the result. */
  lemma {:induction false} WriterSeesResult<P>(batches: seq<seq<P>>)
    ensures forall b :: b in NonEmpty(batches) ==> b != []
    ensures Flatten(NonEmpty(batches)) == Flatten(batches)
  {
    if batches != [] {
      WriterSeesResult(batches[1..]);
      var rest := NonEmpty(batches[1..]);
      if batches[0] == [] {
        assert NonEmpty(batches) == rest;
      } else {
        assert ([batches[0]] + rest)[1..] == rest;
      }
    }
  }

  ghost predicate Ascending<P>(h: seq<Entry<P>>) {
    forall j, k :: 0 <= j < k < |h| ==> h[j].time < h[k].time
  }

  ghost predicate Within<P>(h: seq<Entry<P>>, lo: int, hi: int, last: int) {
    forall k :: 0 <= k < |h| ==> lo <= h[k].time <= hi && h[k].time > last
  }

  lemma {:induction false} KeptIsOrdered<P>(batch: seq<Entry<P>>, lo: int, hi: int, last: int)
    ensures Ascending(Kept(batch, lo, hi, last)) && Within(Kept(batch, lo, hi, last), lo, hi, last)
  {
    if batch != [] {
      var taken := lo <= batch[0].time <= hi && batch[0].time > last;
      KeptIsOrdered(batch[1..], lo, hi, if taken then batch[0].time else last);
    }
  }

  /** Whatever the server sends, the result is strictly ascending, in range, and later than the time started from. */
  lemma {:induction false} DownloadIsOrdered<P>(serve: Request -> seq<Entry<P>>, cursor: int, toSec: int, step: int,
                                                lo: int, hi: int, last: int)
    requires step > 0
    ensures var r := Flatten(Batches(serve, cursor, toSec, step, lo, hi, last));
            Ascending(r) && Within(r, lo, hi, last)
    decreases toSec - cursor
  {
    if cursor < toSec {
      var end := WindowEnd(cursor, toSec, step);
      var kept := Kept(serve(Request(cursor, end, CountBack(cursor, end, step))), lo, hi, last);
      KeptIsOrdered(serve(Request(cursor, end, CountBack(cursor, end, step))), lo, hi, last);
      DownloadIsOrdered(serve, end, toSec, step, lo, hi, LastTime(kept, last));
    }
  }

  // ---- The server's history --------------------------------------------

  /** The entries of a history in [lo, hi]. */
  function Filter<P>(h: seq<Entry<P>>, lo: int, hi: int): seq<Entry<P>> {
    if h == [] then []
    else if lo <= h[0].time <= hi then [h[0]] + Filter(h[1..], lo, hi)
    else Filter(h[1..], lo, hi)
  }

  /** Consecutive entries are at least `gapMs` apart. */
  ghost predicate Spaced<P>(h: seq<Entry<P>>, gapMs: int) {
    forall k :: 0 <= k < |h| - 1 ==> h[k].time + gapMs <= h[k + 1].time
  }

  /** How many entries are at or before `t`. */
  function Rank<P>(h: seq<Entry<P>>, t: int): nat {
    if h == [] then 0 else (if h[0].time <= t then 1 else 0) + Rank(h[1..], t)
  }

  function Slice<P>(h: seq<Entry<P>>, x: int, y: int): seq<Entry<P>>
    requires 0 <= x && y <= |h|
  {
    if x <= y then h[x..y] else []
  }

  /**
    The response is a run of the history ending with its last entry not after `endSec`, at
    least `countBack` long if there are that many.
   */
  ghost predicate IsSuffixUpTo<P>(h: seq<Entry<P>>, r: Request, response: seq<Entry<P>>) {
    exists a :: IsSuffixFrom(h, r, response, a)
  }

  ghost predicate IsSuffixFrom<P>(h: seq<Entry<P>>, r: Request, response: seq<Entry<P>>, a: nat) {
    var b := Rank(h, r.endSec * 1000);
    a <= b <= |h| && response == h[a..b] && (a == 0 || b - a >= r.countBack)
  }

  ghost predicate ServesSuffixes<P>(h: seq<Entry<P>>, serve: Request -> seq<Entry<P>>) {
    forall r: Request :: r.countBack >= 1 ==> IsSuffixUpTo(h, r, serve(r))
  }

  lemma {:induction false} SpacedApart<P>(h: seq<Entry<P>>, gapMs: int, j: nat, k: nat)
    requires Spaced(h, gapMs) && gapMs >= 0 && j <= k < |h|
    ensures h[j].time + (k - j) * gapMs <= h[k].time
    decreases k - j
  {
    if j < k {
      SpacedApart(h, gapMs, j, k - 1);
      assert (k - j) * gapMs == (k - 1 - j) * gapMs + gapMs;
      assert h[k - 1].time + gapMs <= h[k - 1 + 1].time;
    }
  }

  lemma {:induction false} SpacedIsAscending<P>(h: seq<Entry<P>>, gapMs: int)
    requires Spaced(h, gapMs) && gapMs > 0
    ensures Ascending(h)
  {
    if |h| > 1 {
      var rest := h[1..];
      assert forall k :: 0 <= k < |rest| ==> rest[k] == h[k + 1];
      SpacedIsAscending(rest, gapMs);
      forall j, k | 0 <= j < k < |h|
        ensures h[j].time < h[k].time
      {
        if j == 0 {
          assert h[0].time + gapMs <= h[0 + 1].time == rest[0].time;
          assert k > 1 ==> rest[0].time < rest[k - 1].time;
        } else {
          assert rest[j - 1].time < rest[k - 1].time;
        }
      }
    }
  }

  /** Rank splits an ascending history. */
  lemma {:induction false} RankSplits<P>(h: seq<Entry<P>>, t: int)
    requires Ascending(h)
    ensures Rank(h, t) <= |h|
    ensures forall k :: 0 <= k < |h| ==> (k < Rank(h, t) <==> h[k].time <= t)
  {
    if h != [] {
      var rest := h[1..];
      assert forall k :: 0 <= k < |rest| ==> rest[k] == h[k + 1];
      RankSplits(rest, t);
      assert rest != [] ==> h[0].time < rest[0].time && (0 < Rank(rest, t) <==> rest[0].time <= t);
      forall k | 0 <= k < |h|
        ensures k < Rank(h, t) <==> h[k].time <= t
      {
        if k > 0 { assert h[k] == rest[k - 1]; }
      }
    }
  }

  lemma RankIs<P>(h: seq<Entry<P>>, t: int, n: nat)
    requires Ascending(h) && n <= |h|
    requires n > 0 ==> h[n - 1].time <= t
    requires n < |h| ==> h[n].time > t
    ensures Rank(h, t) == n
  {
    RankSplits(h, t);
  }

  lemma {:induction false} NothingBefore<P>(h: seq<Entry<P>>, t: int)
    requires Ascending(h) && (h != [] ==> h[0].time > t)
    ensures Rank(h, t) == 0
  {
    if |h| > 1 {
      assert h[1].time > h[0].time;
      NothingBefore(h[1..], t);
    }
  }

  lemma RestAscends<P>(h: seq<Entry<P>>)
    requires Ascending(h) && h != []
    ensures Ascending(h[1..]) && (h[1..] != [] ==> h[1..][0].time > h[0].time)
  {
    var rest := h[1..];
    assert forall k :: 0 <= k < |rest| ==> rest[k] == h[k + 1];
  }

  lemma {:induction false} RankIsBounded<P>(h: seq<Entry<P>>, t: int)
    ensures Rank(h, t) <= |h|
  {
    if h != [] { RankIsBounded(h[1..], t); }
  }

  lemma SliceOfRest<P>(h: seq<Entry<P>>, x: nat, y: nat)
    requires y + 1 <= |h|
    ensures Slice(h, x + 1, y + 1) == Slice(h[1..], x, y)
  {}

  lemma SliceFrom<P>(h: seq<Entry<P>>, k: nat, y: int)
    requires k < y <= |h|
    ensures Slice(h, k, y) == [h[k]] + Slice(h, k + 1, y)
  {}

  lemma SliceIsEmpty<P>(h: seq<Entry<P>>, x: nat)
    ensures Slice(h, x, 0) == []
  {}

  /** On an ascending history the plain filter is a slice. */
  lemma {:induction false} FilterIsSlice<P>(h: seq<Entry<P>>, lo: int, hi: int)
    requires Ascending(h)
    ensures Rank(h, hi) <= |h|
    ensures Filter(h, lo, hi) == Slice(h, Rank(h, lo - 1), Rank(h, hi))
  {
    RankIsBounded(h, hi);
    if h != [] {
      var rest := h[1..];
      RestAscends(h);
      FilterIsSlice(rest, lo, hi);
      RankIsBounded(rest, hi);
      var x, y := Rank(rest, lo - 1), Rank(rest, hi);
      if h[0].time > hi {
        NothingBefore(rest, hi);
        SliceIsEmpty(rest, x);
        SliceIsEmpty(h, Rank(h, lo - 1));
      } else {
        SliceOfRest(h, x, y);
        if h[0].time >= lo {
          NothingBefore(rest, lo - 1);
          SliceFrom(h, 0, y + 1);
        }
      }
    }
  }

  lemma RankAt<P>(h: seq<Entry<P>>, t: int, k: nat)
    requires Ascending(h) && k < |h|
    ensures k < Rank(h, t) <==> h[k].time <= t
  {
    RankSplits(h, t);
  }

  /** What the client keeps of a slice of the history is a slice. */
  lemma {:induction false} KeptOfSlice<P>(h: seq<Entry<P>>, a: nat, b: nat, lo: int, hi: int, last: int)
    requires Ascending(h) && a <= b <= |h|
    ensures Rank(h, hi) <= |h|
    ensures Kept(h[a..b], lo, hi, last) == Slice(h, Max(a, Rank(h, Max(lo - 1, last))), Min(b, Rank(h, hi)))
    decreases b - a
  {
    RankIsBounded(h, hi);
    if a < b {
      assert h[a..b][0] == h[a] && h[a..b][1..] == h[a + 1..b];
      RankAt(h, hi, a);
      RankAt(h, Max(lo - 1, last), a);
      if lo <= h[a].time <= hi && h[a].time > last {
        KeptOfSlice(h, a + 1, b, lo, hi, h[a].time);
        RankIs(h, h[a].time, a + 1);
        SliceFrom(h, a, Min(b, Rank(h, hi)));
      } else {
        KeptOfSlice(h, a + 1, b, lo, hi, last);
      }
    }
  }

  // ---- The download is exact -------------------------------------------

  /** Every wanted entry is after the epoch and inside the whole seconds that are walked. */
  ghost predicate Walked<P>(h: seq<Entry<P>>, lo: int, hi: int, cursor: int, toSec: int) {
    forall k :: 0 <= k < |h| && lo <= h[k].time <= hi ==> 0 <= h[k].time && cursor * 1000 <= h[k].time <= toSec * 1000
  }

  /** `done` holds the wanted entries up to `covered`. */
  ghost predicate Collected<P>(h: seq<Entry<P>>, lo: int, hi: int, covered: int, done: seq<Entry<P>>)
    requires Ascending(h)
  {
    && Rank(h, Min(hi, covered)) <= |h|
    && done == Slice(h, Rank(h, lo - 1), Rank(h, Min(hi, covered)))
  }

  lemma SpanBound(n: nat, step: int, span: int)
    requires n * (step * 1000) <= span * 1000
    ensures step * n <= span
  {
    assert n * (step * 1000) == (step * n) * 1000;
  }

  /** The wanted entries of a window are in its response, however far before the window that starts. */
  lemma WindowIsServed<P>(h: seq<Entry<P>>, r: Request, step: int, a: nat, k: nat)
    requires step > 0 && Spaced(h, step * 1000) && Ascending(h)
    requires r.startSec < r.endSec && r.countBack == (r.endSec - r.startSec) / step + 1
    requires a == 0 || Rank(h, r.endSec * 1000) - a >= r.countBack
    requires k < |h| && r.startSec * 1000 <= h[k].time <= r.endSec * 1000
    ensures a <= k < Rank(h, r.endSec * 1000)
  {
    RankSplits(h, r.endSec * 1000);
    var n := Rank(h, r.endSec * 1000) - 1 - k;
    SpacedApart(h, step * 1000, k, k + n);
    SpanBound(n, step, r.endSec - r.startSec);
    QuotientAtLeast(r.endSec - r.startSec, step, n);
  }

  lemma RankMin<P>(h: seq<Entry<P>>, s: int, t: int)
    requires Ascending(h)
    ensures Rank(h, Min(s, t)) == Min(Rank(h, s), Rank(h, t)) <= |h|
  {
    RankSplits(h, s);
    RankSplits(h, t);
    RankIs(h, Min(s, t), Min(Rank(h, s), Rank(h, t)));
  }

  lemma SlicesJoin<P>(h: seq<Entry<P>>, x: nat, y: nat, y': nat, from: nat)
    requires y <= y' <= |h|
    requires from >= x && (x < y ==> from >= y)
    requires Max(x, y) < y' ==> from == Max(x, y)
    ensures Slice(h, x, y) + Slice(h, from, y') == Slice(h, x, y')
  {}

  /** The client's rule "later than the last kept" starts where the kept entries end. */
  lemma LastMarksEnd<P>(h: seq<Entry<P>>, lo: int, x: nat, y: nat, last: int)
    requires Ascending(h) && x == Rank(h, lo - 1) <= |h| && y <= |h|
    requires last == LastTime(Slice(h, x, y), -1)
    ensures var l := Rank(h, Max(lo - 1, last));
            && l >= x && (x < y ==> l >= y)
            && (Max(x, y) < |h| && h[Max(x, y)].time >= 0 ==> l == Max(x, y))
  {
    OrderedRanks(h, lo - 1, Max(lo - 1, last));
    RankSplits(h, lo - 1);
    RankSplits(h, Max(lo - 1, last));
    if x < y {
      assert h[y - 1].time == last;
    }
    if Max(x, y) < |h| && h[Max(x, y)].time >= 0 {
      RankIs(h, Max(lo - 1, last), Max(x, y));
    }
  }

  /** The next wanted entry, if the window reaches it, is in the response. */
  lemma NextIsServed<P>(h: seq<Entry<P>>, r: Request, step: int, lo: int, hi: int, covered: int, a: nat)
    requires step > 0 && Spaced(h, step * 1000) && Ascending(h)
    requires r.startSec < r.endSec && r.countBack == (r.endSec - r.startSec) / step + 1
    requires a == 0 || Rank(h, r.endSec * 1000) - a >= r.countBack
    requires r.startSec * 1000 - 1 <= covered
    requires forall k :: 0 <= k < |h| && lo <= h[k].time <= hi ==> 0 <= h[k].time
    ensures var next := Max(Rank(h, lo - 1), Rank(h, Min(hi, covered)));
            next < Rank(h, Min(hi, r.endSec * 1000)) ==>
              next < |h| && 0 <= h[next].time && a <= next
  {
    RankSplits(h, lo - 1);
    RankSplits(h, Min(hi, covered));
    RankSplits(h, Min(hi, r.endSec * 1000));
    var next := Max(Rank(h, lo - 1), Rank(h, Min(hi, covered)));
    if next < Rank(h, Min(hi, r.endSec * 1000)) {
      WindowIsServed(h, r, step, a, next);
    }
  }

  lemma KeptOfResponse<P>(h: seq<Entry<P>>, r: Request, response: seq<Entry<P>>, a: nat, lo: int, hi: int, last: int)
    requires Ascending(h) && IsSuffixFrom(h, r, response, a)
    ensures var y := Rank(h, Min(hi, r.endSec * 1000));
            y <= |h| && Kept(response, lo, hi, last) == Slice(h, Max(a, Rank(h, Max(lo - 1, last))), y)
  {
    RankMin(h, hi, r.endSec * 1000);
    KeptOfSlice(h, a, Rank(h, r.endSec * 1000), lo, hi, last);
  }

  /** What is kept of the response follows on what was collected before. */
  lemma WindowJoins<P>(h: seq<Entry<P>>, r: Request, response: seq<Entry<P>>, a: nat, lo: int, hi: int,
                       covered: int, done: seq<Entry<P>>, last: int)
    requires Ascending(h) && IsSuffixFrom(h, r, response, a) && covered <= r.endSec * 1000
    requires Collected(h, lo, hi, covered, done) && last == LastTime(done, -1)
    requires var next := Max(Rank(h, lo - 1), Rank(h, Min(hi, covered)));
             next < Rank(h, Min(hi, r.endSec * 1000)) ==> next < |h| && 0 <= h[next].time && a <= next
    ensures Collected(h, lo, hi, r.endSec * 1000, done + Kept(response, lo, hi, last))
  {
    var end := r.endSec * 1000;
    var x, y, y', l := Rank(h, lo - 1), Rank(h, Min(hi, covered)), Rank(h, Min(hi, end)), Rank(h, Max(lo - 1, last));
    RankIsBounded(h, lo - 1);
    KeptOfResponse(h, r, response, a, lo, hi, last);
    LastMarksEnd(h, lo, x, y, last);
    OrderedRanks(h, Min(hi, covered), Min(hi, end));
    SlicesJoin(h, x, y, y', Max(a, l));
  }

  /** One window adds exactly the wanted entries it newly covers. */
  lemma WindowIsExact<P>(h: seq<Entry<P>>, r: Request, response: seq<Entry<P>>, step: int, lo: int, hi: int,
                         covered: int, done: seq<Entry<P>>, last: int)
    requires step > 0 && Spaced(h, step * 1000) && Ascending(h)
    requires r.startSec < r.endSec && r.countBack == (r.endSec - r.startSec) / step + 1
    requires IsSuffixUpTo(h, r, response)
    requires r.startSec * 1000 - 1 <= covered <= r.endSec * 1000
    requires Collected(h, lo, hi, covered, done) && last == LastTime(done, -1)
    requires forall k :: 0 <= k < |h| && lo <= h[k].time <= hi ==> 0 <= h[k].time
    ensures Collected(h, lo, hi, r.endSec * 1000, done + Kept(response, lo, hi, last))
  {
    var a: nat :| IsSuffixFrom(h, r, response, a);
    NextIsServed(h, r, step, lo, hi, covered, a);
    WindowJoins(h, r, response, a, lo, hi, covered, done, last);
  }

  lemma OrderedRanks<P>(h: seq<Entry<P>>, s: int, t: int)
    requires Ascending(h) && s <= t
    ensures Rank(h, s) <= Rank(h, t) <= |h|
  {
    RankSplits(h, s);
    RankSplits(h, t);
  }

  lemma FirstWindowIsExact<P>(h: seq<Entry<P>>, serve: Request -> seq<Entry<P>>, cursor: int, toSec: int, step: int,
                              lo: int, hi: int, covered: int, done: seq<Entry<P>>)
    requires step > 0 && Spaced(h, step * 1000) && Ascending(h) && ServesSuffixes(h, serve)
    requires cursor < toSec
    requires cursor * 1000 - 1 <= covered <= cursor * 1000 && Collected(h, lo, hi, covered, done)
    requires forall k :: 0 <= k < |h| && lo <= h[k].time <= hi ==> 0 <= h[k].time
    ensures var end := WindowEnd(cursor, toSec, step);
            var r := Request(cursor, end, CountBack(cursor, end, step));
            cursor < end <= toSec && Collected(h, lo, hi, end * 1000, done + Kept(serve(r), lo, hi, LastTime(done, -1)))
  {
    CountCoversWindow(cursor, toSec, step);
    var end := WindowEnd(cursor, toSec, step);
    var r := Request(cursor, end, CountBack(cursor, end, step));
    QuotientAtLeast(end - cursor, step, 0);
    assert IsSuffixUpTo(h, r, serve(r));
    WindowIsExact(h, r, serve(r), step, lo, hi, covered, done, LastTime(done, -1));
  }

  lemma {:induction false} DownloadIsExact<P>(h: seq<Entry<P>>, serve: Request -> seq<Entry<P>>, cursor: int,
                                              toSec: int, step: int, lo: int, hi: int,
                                              covered: int, done: seq<Entry<P>>)
    requires step > 0 && Spaced(h, step * 1000) && Ascending(h) && ServesSuffixes(h, serve)
    requires cursor <= toSec
    requires cursor * 1000 - 1 <= covered <= cursor * 1000 && Collected(h, lo, hi, covered, done)
    requires cursor == toSec ==> covered == cursor * 1000
    requires forall k :: 0 <= k < |h| && lo <= h[k].time <= hi ==> 0 <= h[k].time
    ensures Collected(h, lo, hi, toSec * 1000,
                      done + Flatten(Batches(serve, cursor, toSec, step, lo, hi, LastTime(done, -1))))
    decreases toSec - cursor
  {
    var last := LastTime(done, -1);
    if cursor == toSec {
      assert done + [] == done;
    } else {
      var end := WindowEnd(cursor, toSec, step);
      var r := Request(cursor, end, CountBack(cursor, end, step));
      var kept := Kept(serve(r), lo, hi, last);
      FirstWindowIsExact(h, serve, cursor, toSec, step, lo, hi, covered, done);
      assert LastTime(kept, last) == LastTime(done + kept, -1);
      DownloadIsExact(h, serve, end, toSec, step, lo, hi, end * 1000, done + kept);
      var rest := Batches(serve, end, toSec, step, lo, hi, LastTime(kept, last));
      assert Batches(serve, cursor, toSec, step, lo, hi, last) == [kept] + rest;
      assert ([kept] + rest)[1..] == rest;
      assert done + kept + Flatten(rest) == done + (kept + Flatten(rest));
    }
  }

  /** The server as the exchange runs it: the last `countBack` entries up to the end, whatever the start. */
  function LastEntries<P>(h: seq<Entry<P>>, r: Request): seq<Entry<P>> {
    var b := Min(Rank(h, r.endSec * 1000), |h|);
    if r.countBack <= 0 then [] else h[Max(0, b - r.countBack)..b]
  }

  lemma LastEntriesIsServed<P>(h: seq<Entry<P>>)
    requires Ascending(h)
    ensures ServesSuffixes(h, (r: Request) => LastEntries(h, r))
  {
    var serve := (r: Request) => LastEntries(h, r);
    forall r: Request | r.countBack >= 1
      ensures IsSuffixUpTo(h, r, serve(r))
    {
      RankSplits(h, r.endSec * 1000);
      assert IsSuffixFrom(h, r, serve(r), Max(0, Rank(h, r.endSec * 1000) - r.countBack));
    }
  }
}
