/** Pacing of HTTP requests. Models P::throttle of src/lighter_rest_client.cpp. */
module Throttling {
  import opened Arithmetic

  /** A call that reads the clock at `now` and wakes `lag` later than it asked to. */
  datatype Call = Call(now: int, lag: nat)

  class Throttle {
    const minRequestInterval: int
    var lastRequestAt: int

    constructor (minRequestInterval: int)
      requires minRequestInterval > 0
      ensures this.minRequestInterval == minRequestInterval && lastRequestAt == 0
    {
      this.minRequestInterval := minRequestInterval;
      lastRequestAt := 0;
    }

    /** Waits, if need be, and stamps the request with the clock after the wait. */
    method Wait(c: Call) returns (slept: int)
      modifies this`lastRequestAt
      ensures slept >= 0 && lastRequestAt == c.now + slept + c.lag == Stamp(old(lastRequestAt), minRequestInterval, c)
      ensures slept > 0 ==> c.now + slept == old(lastRequestAt) + minRequestInterval
      ensures c.now + slept >= old(lastRequestAt) + minRequestInterval
    {
      slept := 0;
      var elapsed := c.now - lastRequestAt;
      if elapsed < minRequestInterval {
        slept := minRequestInterval - elapsed;
      }
      lastRequestAt := c.now + slept + c.lag;
    }
  }

  function Stamp(last: int, interval: int, c: Call): int {
    if c.now - last < interval then last + interval + c.lag else c.now + c.lag
  }

  /** A request is stamped as soon as the interval allows: not before, and later only by what the wake-up lags. */
  lemma StampIsPrompt(last: int, interval: int, c: Call)
    ensures Stamp(last, interval, c) - c.lag >= c.now && Stamp(last, interval, c) - c.lag >= last + interval
    ensures Stamp(last, interval, c) - c.lag == c.now || Stamp(last, interval, c) - c.lag == last + interval
  {}

  /** The stamps of a serialised run of calls. */
  function Stamps(last: int, interval: int, calls: seq<Call>): seq<int>
    decreases |calls|
  {
    if calls == [] then []
    else
      var s := Stamp(last, interval, calls[0]);
      [s] + Stamps(s, interval, calls[1..])
  }

  ghost predicate Apart(stamps: seq<int>, interval: int) {
    forall k :: 0 <= k < |stamps| - 1 ==> stamps[k] + interval <= stamps[k + 1]
  }

  /** Whatever the clock says, requests are stamped at least the interval apart. */
  lemma {:induction false} StampsAreApart(last: int, interval: int, calls: seq<Call>)
    ensures Apart(Stamps(last, interval, calls), interval)
    ensures calls != [] ==> last + interval <= Stamps(last, interval, calls)[0]
    decreases |calls|
  {
    if calls != [] {
      var s := Stamp(last, interval, calls[0]);
      StampsAreApart(s, interval, calls[1..]);
      var rest := Stamps(s, interval, calls[1..]);
      assert calls[1..] == [] ==> rest == [];
      forall k | 0 <= k < |[s] + rest| - 1
        ensures ([s] + rest)[k] + interval <= ([s] + rest)[k + 1]
      {
        if k > 0 { assert rest[k - 1] + interval <= rest[k - 1 + 1]; }
      }
    }
  }

  function CountIn(stamps: seq<int>, a: int, b: int): nat {
    if stamps == [] then 0
    else CountIn(stamps[..|stamps| - 1], a, b) + if a <= stamps[|stamps| - 1] <= b then 1 else 0
  }

  lemma {:induction false} CountSpan(stamps: seq<int>, interval: int, a: int, b: int, top: int)
    requires interval > 0 && Apart(stamps, interval)
    requires stamps != [] ==> stamps[|stamps| - 1] <= top
    requires top <= b
    ensures CountIn(stamps, a, b) > 0 ==> (CountIn(stamps, a, b) - 1) * interval <= top - a
  {
    if stamps != [] {
      var n := |stamps| - 1;
      var before := stamps[..n];
      if n > 0 {
        assert stamps[n - 1] + interval <= stamps[n - 1 + 1];
      }
      CountSpan(before, interval, a, b, stamps[n] - interval);
      var c := CountIn(before, a, b);
      assert c * interval == (c - 1) * interval + interval;
    }
  }

  /** Any closed window of the given width holds at most width/interval + 1 requests. */
  lemma RateIsBounded(last: int, interval: int, calls: seq<Call>, a: int, width: nat)
    requires interval > 0
    ensures CountIn(Stamps(last, interval, calls), a, a + width) <= width / interval + 1
  {
    var stamps := Stamps(last, interval, calls);
    StampsAreApart(last, interval, calls);
    WindowIsBounded(stamps, interval, a, width);
  }

  lemma {:induction false} WindowIsBounded(stamps: seq<int>, interval: int, a: int, width: nat)
    requires interval > 0 && Apart(stamps, interval)
    ensures CountIn(stamps, a, a + width) <= width / interval + 1
  {
    if stamps != [] {
      var n := |stamps| - 1;
      if stamps[n] > a + width {
        WindowIsBounded(stamps[..n], interval, a, width);
      } else {
        CountSpan(stamps, interval, a, a + width, a + width);
        var c := CountIn(stamps, a, a + width);
        if c > 0 {
          assert interval * (c - 1) == (c - 1) * interval;
          QuotientAtLeast(width, interval, c - 1);
        }
      }
    }
  }
}
