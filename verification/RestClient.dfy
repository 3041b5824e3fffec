/** Candle and funding downloads. Models src/lighter_rest_client.cpp. */
module RestClient {
  import opened Wrappers
  import opened History

  // ---- Candles ---------------------------------------------------------

  /** `Unlisted` stands for any value outside the enumeration. */
  datatype CandleInterval = M1 | M5 | M15 | M30 | H1 | H4 | H12 | D1 | Unlisted

  function IntervalMs(i: CandleInterval): (ms: int)
    ensures i != Unlisted ==> ms >= 60000 && ms % 1000 == 0
  {
    match i
    case M1 => 60000
    case M5 => 60000 * 5
    case M15 => 60000 * 15
    case M30 => 60000 * 30
    case H1 => 60000 * 60
    case H4 => 60000 * 240
    case H12 => 60000 * 720
    case D1 => 86400000
    case Unlisted => 0
  }

  lemma IntervalTable()
    ensures IntervalMs(M1) == 60_000 && IntervalMs(M5) == 300_000 && IntervalMs(M15) == 900_000
    ensures IntervalMs(M30) == 1_800_000 && IntervalMs(H1) == 3_600_000 && IntervalMs(H4) == 14_400_000
    ensures IntervalMs(H12) == 43_200_000 && IntervalMs(D1) == 86_400_000 && IntervalMs(Unlisted) == 0
  {}

  function CandleBatches<P>(serve: Request -> seq<Entry<P>>, intervalMs: int, from: int, to: int): seq<seq<Entry<P>>>
    requires intervalMs >= 1000
  {
    Batches(serve, ToSeconds(from), ToSeconds(to), intervalMs / 1000, from, to - intervalMs, -1)
  }

  lemma SecondsRoundTowardZero(ms: int)
    ensures ms >= 0 ==> ToSeconds(ms) * 1000 <= ms < ToSeconds(ms) * 1000 + 1000
    ensures ms < 0 ==> ToSeconds(ms) * 1000 - 1000 < ms <= ToSeconds(ms) * 1000 <= 0
  {}

  lemma CandlesAreWalked<P>(h: seq<Entry<P>>, intervalMs: int, from: int, to: int)
    requires intervalMs >= 60000
    requires forall k :: 0 <= k < |h| && from <= h[k].time <= to - intervalMs ==> h[k].time >= 0
    ensures Walked(h, from, to - intervalMs, ToSeconds(from), ToSeconds(to))
    ensures ToSeconds(from) >= ToSeconds(to) ==> forall k :: 0 <= k < |h| ==> !(from <= h[k].time <= to - intervalMs)
  {
    SecondsRoundTowardZero(from);
    SecondsRoundTowardZero(to);
  }

  /** With every wanted entry inside the seconds walked, the download is the plain filter. */
  lemma WalkedDownloadIsFilter<P>(h: seq<Entry<P>>, serve: Request -> seq<Entry<P>>, cursor: int, toSec: int,
                                  step: int, lo: int, hi: int)
    requires step > 0 && Spaced(h, step * 1000) && ServesSuffixes(h, serve)
    requires Walked(h, lo, hi, cursor, toSec) && cursor < toSec
    ensures Flatten(Batches(serve, cursor, toSec, step, lo, hi, -1)) == Filter(h, lo, hi)
  {
    SpacedIsAscending(h, step * 1000);
    var covered := cursor * 1000 - 1;
    RankSplits(h, lo - 1);
    RankSplits(h, Min(hi, covered));
    var x, y := Rank(h, lo - 1), Rank(h, Min(hi, covered));
    if x < |h| {
      assert h[x].time >= lo;
    }
    assert x >= y;
    assert Collected(h, lo, hi, covered, []);
    DownloadIsExact(h, serve, cursor, toSec, step, lo, hi, covered, []);
    var r := Flatten(Batches(serve, cursor, toSec, step, lo, hi, -1));
    assert [] + r == r;
    FilterIsSlice(h, lo, hi);
    RankMin(h, hi, toSec * 1000);
    RankSplits(h, hi);
    RankSplits(h, toSec * 1000);
    var z := Rank(h, toSec * 1000);
    if Max(x, z) < |h| {
      assert h[Max(x, z)].time > toSec * 1000 && h[Max(x, z)].time >= lo;
    }
    assert Max(x, z) >= Rank(h, hi);
  }

  lemma {:induction false} FilterMembers<P>(h: seq<Entry<P>>, lo: int, hi: int)
    ensures forall c :: c in Filter(h, lo, hi) <==> c in h && lo <= c.time <= hi
  {
    if h != [] {
      FilterMembers(h[1..], lo, hi);
      assert forall c :: c in h <==> c == h[0] || c in h[1..];
    }
  }

  lemma CandlesAfterEpochAreExact<P>(h: seq<Entry<P>>, serve: Request -> seq<Entry<P>>, ms: int, from: int, to: int)
    requires ms >= 60000 && ms % 1000 == 0 && Spaced(h, ms) && ServesSuffixes(h, serve)
    requires forall c :: c in h && from <= c.time <= to - ms ==> c.time >= 0
    ensures Flatten(CandleBatches(serve, ms, from, to)) == Filter(h, from, to - ms)
  {
    CandlesAreWalked(h, ms, from, to);
    if ToSeconds(from) < ToSeconds(to) {
      WalkedDownloadIsFilter(h, serve, ToSeconds(from), ToSeconds(to), ms / 1000, from, to - ms);
    } else {
      FilterEmpty(h, from, to - ms);
    }
  }

  lemma CandlesBeforeEpochAreMissed<P>(serve: Request -> seq<Entry<P>>, ms: int, from: int, to: int, c: Entry<P>)
    requires ms >= 60000 && c.time < 0
    ensures c !in Flatten(CandleBatches(serve, ms, from, to))
  {
    DownloadIsOrdered(serve, ToSeconds(from), ToSeconds(to), ms / 1000, from, to - ms, -1);
  }

  /**
    The candles downloaded are exactly those that open at or after `from` and close by
    `to`, in order and once each, if and only if none of them opens before the epoch.
   */
  lemma CandlesAreExact<P>(h: seq<Entry<P>>, serve: Request -> seq<Entry<P>>, interval: CandleInterval, from: int,
                           to: int)
    requires interval != Unlisted && Spaced(h, IntervalMs(interval)) && ServesSuffixes(h, serve)
    ensures var ms := IntervalMs(interval);
            Flatten(CandleBatches(serve, ms, from, to)) == Filter(h, from, to - ms) <==>
            forall c :: c in h && from <= c.time <= to - ms ==> c.time >= 0
  {
    var ms := IntervalMs(interval);
    FilterMembers(h, from, to - ms);
    if forall c :: c in h && from <= c.time <= to - ms ==> c.time >= 0 {
      CandlesAfterEpochAreExact(h, serve, ms, from, to);
    } else {
      var c :| c in h && from <= c.time <= to - ms && c.time < 0;
      CandlesBeforeEpochAreMissed(serve, ms, from, to, c);
      assert c in Filter(h, from, to - ms);
    }
  }

  lemma {:induction false} FilterEmpty<P>(h: seq<Entry<P>>, lo: int, hi: int)
    ensures Filter(h, lo, hi) == [] <==> forall k :: 0 <= k < |h| ==> !(lo <= h[k].time <= hi)
  {
    if h != [] {
      FilterEmpty(h[1..], lo, hi);
      assert forall k :: 0 <= k < |h[1..]| ==> h[1..][k] == h[k + 1];
      assert forall k :: 0 < k < |h| ==> h[k] == h[1..][k - 1];
    }
  }

  /** One turn of either download loop. */
  lemma LoopTurn<P>(serve: Request -> seq<Entry<P>>, r: Request, toSec: int, step: int, lo: int, hi: int, last: int,
                    done: seq<seq<Entry<P>>>, sent: seq<Request>, kept: seq<Entry<P>>)
    requires step > 0 && r.startSec < toSec
    requires r == Request(r.startSec, WindowEnd(r.startSec, toSec, step), CountBack(r.startSec, r.endSec, step))
    requires kept == Kept(serve(r), lo, hi, last)
    ensures done + [kept] + Batches(serve, r.endSec, toSec, step, lo, hi, LastTime(kept, last))
         == done + Batches(serve, r.startSec, toSec, step, lo, hi, last)
    ensures sent + [r] + Requests(r.endSec, toSec, step) == sent + Requests(r.startSec, toSec, step)
    ensures Flatten(done + [kept]) == Flatten(done) + kept
    ensures NonEmpty(done + [kept]) == NonEmpty(done) + if kept == [] then [] else [kept]
  {
    FlattenConcat(done, [kept]);
    NonEmptyConcat(done, [kept]);
    assert Flatten([kept]) == kept && NonEmpty([kept]) == if kept == [] then [] else [kept];
  }

  /** The window at the cursor, sized so that its entries fit one response. */
  method NextRequest(cursorSec: int, toSec: int, intervalSec: int) returns (r: Request)
    requires intervalSec > 0 && cursorSec < toSec
    ensures r.startSec == cursorSec < r.endSec
    ensures r.endSec == if cursorSec + intervalSec * 499 < toSec then cursorSec + intervalSec * 499 else toSec
    ensures r.countBack == (r.endSec - cursorSec) / intervalSec + 1 <= 500
    ensures r.endSec == WindowEnd(cursorSec, toSec, intervalSec)
    ensures r.countBack == CountBack(cursorSec, r.endSec, intervalSec)
  {
    var windowSec := intervalSec * (MAX_BARS_PER_CALL - 1);
    var batchEndSec := Min(cursorSec + windowSec, toSec);
    var countBack := (batchEndSec - cursorSec) / intervalSec + 1;
    CountCoversWindow(cursorSec, toSec, intervalSec);
    if countBack > MAX_BARS_PER_CALL {
      countBack := MAX_BARS_PER_CALL;
    }
    r := Request(cursorSec, batchEndSec, countBack);
  }

  /** `written` lists the writer's calls and `requests` the requests sent. */
  method GetHistoricalPrices<P>(interval: CandleInterval, from: int, to: int, serve: Request -> seq<Entry<P>>)
    returns (r: Result<seq<Entry<P>>, string>, written: seq<seq<Entry<P>>>, requests: seq<Request>)
    ensures interval == Unlisted ==> r.Failure? && written == [] && requests == []
    ensures interval != Unlisted ==>
              var batches := CandleBatches(serve, IntervalMs(interval), from, to);
              && r == Success(Flatten(batches)) && written == NonEmpty(batches)
              && requests == Requests(ToSeconds(from), ToSeconds(to), IntervalMs(interval) / 1000)
  {
    written, requests := [], [];
    var intervalMs := IntervalMs(interval);
    if intervalMs <= 0 {
      return Failure("Lighter: invalid candle interval"), written, requests;
    }
    var retVal;
    retVal, written, requests := DownloadCandles(intervalMs, from, to, serve);
    r := Success(retVal);
  }

  method DownloadCandles<P>(intervalMs: int, from: int, to: int, serve: Request -> seq<Entry<P>>)
    returns (retVal: seq<Entry<P>>, written: seq<seq<Entry<P>>>, requests: seq<Request>)
    requires intervalMs >= 1000
    ensures var batches := CandleBatches(serve, intervalMs, from, to);
            retVal == Flatten(batches) && written == NonEmpty(batches)
    ensures requests == Requests(ToSeconds(from), ToSeconds(to), intervalMs / 1000)
  {
    retVal, written, requests := [], [], [];
    var intervalSec := intervalMs / 1000;
    var toSec := ToSeconds(to);
    var cursorSec := ToSeconds(from);
    var lastOpenTime := -1;
    ghost var done: seq<seq<Entry<P>>> := [];
    assert [] + CandleBatches(serve, intervalMs, from, to) == CandleBatches(serve, intervalMs, from, to);
    while cursorSec < toSec
      invariant retVal == Flatten(done) && written == NonEmpty(done)
      invariant done + Batches(serve, cursorSec, toSec, intervalSec, from, to - intervalMs, lastOpenTime)
             == CandleBatches(serve, intervalMs, from, to)
      invariant requests + Requests(cursorSec, toSec, intervalSec) == Requests(ToSeconds(from), toSec, intervalSec)
      decreases toSec - cursorSec
    {
      var request := NextRequest(cursorSec, toSec, intervalSec);
      var batch := serve(request);
      var kept := KeepCandles(batch, intervalMs, from, to, lastOpenTime);
      ghost var last := lastOpenTime;
      lastOpenTime := LastTime(kept, lastOpenTime);
      if kept != [] {
        written := written + [kept];
        retVal := retVal + kept;
      }
      LoopTurn(serve, request, toSec, intervalSec, from, to - intervalMs, last, done, requests, kept);
      requests := requests + [request];
      done := done + [kept];
      cursorSec := request.endSec;
    }
    assert done + [] == done;
  }

  /** The inner loop: one pass over a batch, with the three rules by which a candle is skipped. */
  method KeepCandles<P>(batch: seq<Entry<P>>, intervalMs: int, from: int, to: int, lastOpenTime: int)
    returns (kept: seq<Entry<P>>)
    ensures kept == Kept(batch, from, to - intervalMs, lastOpenTime)
  {
    kept := [];
    var last := lastOpenTime;
    for k := 0 to |batch|
      invariant kept == Kept(batch[..k], from, to - intervalMs, lastOpenTime)
      invariant last == LastTime(kept, lastOpenTime)
    {
      KeptSnoc(batch[..k], batch[k], from, to - intervalMs, lastOpenTime);
      assert batch[..k + 1] == batch[..k] + [batch[k]];
      var c := batch[k];
      if c.time < from {
        continue;
      }
      if c.time + intervalMs > to {
        continue;
      }
      if c.time <= last {
        continue;
      }
      kept := kept + [c];
      last := c.time;
    }
    assert batch[..|batch|] == batch;
  }

  // ---- Funding ---------------------------------------------------------

  const SECONDS_LIMIT := 100000000000

  /** A timestamp that looks like seconds is turned into milliseconds. */
  function Normalise(t: int): int {
    if 0 < t < SECONDS_LIMIT then t * 1000 else t
  }

  function NormaliseAll<P>(batch: seq<Entry<P>>): seq<Entry<P>> {
    if batch == [] then []
    else [batch[0].(time := Normalise(batch[0].time))] + NormaliseAll(batch[1..])
  }

  lemma {:induction false} NormaliseAllConcat<P>(a: seq<Entry<P>>, b: seq<Entry<P>>)
    ensures NormaliseAll(a + b) == NormaliseAll(a) + NormaliseAll(b)
  {
    if a == [] {
      assert a + b == b;
    } else {
      assert (a + b)[1..] == a[1..] + b;
      NormaliseAllConcat(a[1..], b);
    }
  }

  /**
    A whole-second event of the millisecond era is recovered from milliseconds always,
    and from seconds exactly while the seconds stay below the limit.
   */
  lemma EventTimeIsRecovered(t: int)
    requires t >= 100_000_000_000 && t % 1000 == 0
    ensures Normalise(t) == t
    ensures Normalise(t / 1000) == t <==> t < 100_000_000_000_000
  {}

  /** Times that are neither stay as they came. */
  lemma OddTimesStay(t: int)
    requires t <= 0
    ensures Normalise(t) == t
  {}

  /** A batch as it may arrive: each event in milliseconds, or in seconds. */
  ghost predicate Arrives<P>(events: seq<Entry<P>>, batch: seq<Entry<P>>) {
    && |batch| == |events|
    && forall k :: 0 <= k < |events| ==>
         && batch[k].payload == events[k].payload
         && (batch[k].time == events[k].time || batch[k].time * 1000 == events[k].time)
  }

  lemma {:induction false} ArrivalIsNormalised<P>(events: seq<Entry<P>>, batch: seq<Entry<P>>)
    requires Arrives(events, batch)
    requires forall k :: 0 <= k < |events| ==> 100_000_000_000 <= events[k].time < 100_000_000_000_000
    ensures NormaliseAll(batch) == events
  {
    if events != [] {
      assert Arrives(events[1..], batch[1..]) by {
        assert forall k :: 0 <= k < |events[1..]| ==> events[1..][k] == events[k + 1] && batch[1..][k] == batch[k + 1];
      }
      ArrivalIsNormalised(events[1..], batch[1..]);
    }
  }

  const FUNDING_INTERVAL_SEC := 3600

  function FundingBatches<P>(serve: Request -> seq<Entry<P>>, startTime: int, endTime: int): seq<seq<Entry<P>>> {
    Batches((r: Request) => NormaliseAll(serve(r)), ToSeconds(startTime), ToSeconds(endTime), FUNDING_INTERVAL_SEC,
            startTime, endTime, -1)
  }

  /** Hourly, on whole seconds, in the years a 12- to 14-digit millisecond time can name. */
  ghost predicate FundingHistory<P>(h: seq<Entry<P>>) {
    && Spaced(h, 3_600_000)
    && forall k :: 0 <= k < |h| ==> 100_000_000_000 <= h[k].time < 100_000_000_000_000 && h[k].time % 1000 == 0
  }

  /** The funding server answers with a long enough run of the history, in either unit. */
  ghost predicate ServesFunding<P>(h: seq<Entry<P>>, serve: Request -> seq<Entry<P>>) {
    forall r: Request :: r.countBack >= 1 ==> exists a: nat ::
      var b := Rank(h, r.endSec * 1000);
      a <= b <= |h| && Arrives(h[a..b], serve(r)) && (a == 0 || b - a >= r.countBack)
  }

  lemma FundingResponse<P>(h: seq<Entry<P>>, r: Request, batch: seq<Entry<P>>, a: nat)
    requires FundingHistory(h)
    requires var b := Rank(h, r.endSec * 1000);
             a <= b <= |h| && Arrives(h[a..b], batch) && (a == 0 || b - a >= r.countBack)
    ensures IsSuffixFrom(h, r, NormaliseAll(batch), a)
  {
    var b := Rank(h, r.endSec * 1000);
    assert forall k :: 0 <= k < b - a ==> h[a..b][k] == h[a + k];
    ArrivalIsNormalised(h[a..b], batch);
  }

  lemma FundingIsServed<P>(h: seq<Entry<P>>, serve: Request -> seq<Entry<P>>)
    requires FundingHistory(h) && ServesFunding(h, serve)
    ensures ServesSuffixes(h, (r: Request) => NormaliseAll(serve(r)))
  {
    var normal := (r: Request) => NormaliseAll(serve(r));
    forall r: Request | r.countBack >= 1
      ensures IsSuffixUpTo(h, r, normal(r))
    {
      var b := Rank(h, r.endSec * 1000);
      var a: nat :| a <= b <= |h| && Arrives(h[a..b], serve(r)) && (a == 0 || b - a >= r.countBack);
      FundingResponse(h, r, serve(r), a);
    }
  }

  lemma FundingIsWalked<P>(h: seq<Entry<P>>, startTime: int, endTime: int)
    requires FundingHistory(h)
    ensures Walked(h, startTime, endTime, ToSeconds(startTime), ToSeconds(endTime))
  {
    SecondsRoundTowardZero(startTime);
    SecondsRoundTowardZero(endTime);
  }

  lemma FundingIsWhole<P>(h: seq<Entry<P>>, serve: Request -> seq<Entry<P>>, startTime: int, endTime: int)
    requires FundingHistory(h) && ServesFunding(h, serve)
    requires ToSeconds(startTime) < ToSeconds(endTime)
    ensures Flatten(FundingBatches(serve, startTime, endTime)) == Filter(h, startTime, endTime)
  {
    FundingIsServed(h, serve);
    FundingIsWalked(h, startTime, endTime);
    WalkedDownloadIsFilter(h, (r: Request) => NormaliseAll(serve(r)), ToSeconds(startTime), ToSeconds(endTime),
                           FUNDING_INTERVAL_SEC, startTime, endTime);
  }

  /**
    The funding events downloaded are exactly those in [startTime, endTime], ascending
    and in milliseconds, if and only if the range crosses a whole second or holds none.
   */
  lemma FundingIsExact<P>(h: seq<Entry<P>>, serve: Request -> seq<Entry<P>>, startTime: int, endTime: int)
    requires FundingHistory(h) && ServesFunding(h, serve)
    ensures Flatten(FundingBatches(serve, startTime, endTime)) == Filter(h, startTime, endTime) <==>
            ToSeconds(startTime) < ToSeconds(endTime) || forall c :: c in h ==> !(startTime <= c.time <= endTime)
  {
    FilterMembers(h, startTime, endTime);
    if ToSeconds(startTime) < ToSeconds(endTime) {
      FundingIsWhole(h, serve, startTime, endTime);
    } else {
      FilterEmpty(h, startTime, endTime);
    }
  }

  method GetFundingRates<P>(startTime: int, endTime: int, serve: Request -> seq<Entry<P>>)
    returns (retVal: seq<Entry<P>>, requests: seq<Request>)
    ensures retVal == Flatten(FundingBatches(serve, startTime, endTime))
    ensures requests == Requests(ToSeconds(startTime), ToSeconds(endTime), 3600)
  {
    retVal, requests := [], [];
    var toSec := ToSeconds(endTime);
    var cursorSec := ToSeconds(startTime);
    var lastTime := -1;
    ghost var normal := (r: Request) => NormaliseAll(serve(r));
    ghost var all := FundingBatches(serve, startTime, endTime);
    ghost var done: seq<seq<Entry<P>>> := [];
    assert [] + all == all;
    while cursorSec < toSec
      invariant retVal == Flatten(done)
      invariant done + Batches(normal, cursorSec, toSec, FUNDING_INTERVAL_SEC, startTime, endTime, lastTime) == all
      invariant requests + Requests(cursorSec, toSec, FUNDING_INTERVAL_SEC)
             == Requests(ToSeconds(startTime), toSec, FUNDING_INTERVAL_SEC)
      decreases toSec - cursorSec
    {
      var request := NextRequest(cursorSec, toSec, FUNDING_INTERVAL_SEC);
      var batch := ToMilliseconds(serve(request));
      assert batch == normal(request);
      var kept := KeepFundings(batch, startTime, endTime, lastTime);
      LoopTurn(normal, request, toSec, FUNDING_INTERVAL_SEC, startTime, endTime, lastTime, done, requests, kept);
      lastTime := LastTime(kept, lastTime);
      retVal := retVal + kept;
      requests := requests + [request];
      done := done + [kept];
      cursorSec := request.endSec;
    }
    assert done + [] == done;
  }

  method ToMilliseconds<P>(batch: seq<Entry<P>>) returns (normal: seq<Entry<P>>)
    ensures normal == NormaliseAll(batch)
  {
    normal := [];
    for k := 0 to |batch|
      invariant normal == NormaliseAll(batch[..k])
    {
      NormaliseAllConcat(batch[..k], [batch[k]]);
      assert batch[..k + 1] == batch[..k] + [batch[k]];
      var fr := batch[k];
      if fr.time > 0 && fr.time < SECONDS_LIMIT {
        fr := fr.(time := fr.time * 1000);
      }
      normal := normal + [fr];
    }
    assert batch[..|batch|] == batch;
  }

  method KeepFundings<P>(batch: seq<Entry<P>>, startTime: int, endTime: int, lastTime: int)
    returns (kept: seq<Entry<P>>)
    ensures kept == Kept(batch, startTime, endTime, lastTime)
  {
    kept := [];
    var last := lastTime;
    for k := 0 to |batch|
      invariant kept == Kept(batch[..k], startTime, endTime, lastTime)
      invariant last == LastTime(kept, lastTime)
    {
      KeptSnoc(batch[..k], batch[k], startTime, endTime, lastTime);
      assert batch[..k + 1] == batch[..k] + [batch[k]];
      var fr := batch[k];
      if fr.time < startTime {
        continue;
      }
      if fr.time > endTime {
        continue;
      }
      if fr.time <= last {
        continue;
      }
      kept := kept + [fr];
      last := fr.time;
    }
    assert batch[..|batch|] == batch;
  }
}
