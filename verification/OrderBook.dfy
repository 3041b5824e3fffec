/**
  The local order book: each side is a sorted list of levels that stands for a map
  from price to size, built from snapshots and deltas.
  Models src/lighter_ws_stream_manager.cpp.
 */
module OrderBooks {
  import opened Wrappers
  import Text

  datatype Level = Level(price: real, size: real)

  /** Bids run from high to low, asks from low to high. */
  datatype Kind = Bids | Asks

  predicate Before(kind: Kind, p: real, q: real) {
    if kind.Bids? then p > q else p < q
  }

  // ---- A side as a map -------------------------------------------------

  ghost predicate Sorted(kind: Kind, side: seq<Level>) {
    forall i, j :: 0 <= i < j < |side| ==> Before(kind, side[i].price, side[j].price)
  }

  /** The map a side stands for. */
  ghost function Contents(side: seq<Level>): map<real, real> {
    if side == [] then map[] else Contents(side[1..])[side[0].price := side[0].size]
  }

  lemma {:induction false} PriceIsAbsent(side: seq<Level>, price: real)
    requires forall i :: 0 <= i < |side| ==> side[i].price != price
    ensures price !in Contents(side)
  {
    if side != [] { PriceIsAbsent(side[1..], price); }
  }

  /** A sorted side stands for the map that has exactly its levels. */
  lemma {:induction false} LevelsAreContents(kind: Kind, side: seq<Level>, l: Level)
    requires Sorted(kind, side)
    ensures l in side <==> l.price in Contents(side) && Contents(side)[l.price] == l.size
  {
    if side != [] {
      LevelsAreContents(kind, side[1..], l);
      PriceIsAbsent(side[1..], side[0].price);
      assert l in side <==> l == side[0] || l in side[1..];
    }
  }

  lemma {:induction false} PricesFollow(kind: Kind, side: seq<Level>, q: real)
    requires forall i :: 0 <= i < |side| ==> Before(kind, q, side[i].price)
    ensures forall p :: p in Contents(side) ==> Before(kind, q, p)
  {
    if side != [] { PricesFollow(kind, side[1..], q); }
  }

  /** One level of a message: a size of zero removes its price, and no price but a positive one is kept. */
  function Put(m: map<real, real>, l: Level): map<real, real> {
    if l.price <= 0.0 then m
    else if l.size == 0.0 then m - {l.price}
    else m[l.price := l.size]
  }

  function Fold(m: map<real, real>, levels: seq<Level>): map<real, real> {
    if levels == [] then m else Put(Fold(m, levels[..|levels| - 1]), levels[|levels| - 1])
  }

  lemma {:induction false} FoldConcat(m: map<real, real>, a: seq<Level>, b: seq<Level>)
    ensures Fold(m, a + b) == Fold(Fold(m, a), b)
    decreases |b|
  {
    if b == [] {
      assert a + b == a;
    } else {
      assert (a + b)[..|a + b| - 1] == a + b[..|b| - 1];
      FoldConcat(m, a, b[..|b| - 1]);
    }
  }

  /** The last level at a price gives it this size. */
  ghost predicate LastWrite(levels: seq<Level>, p: real, z: real) {
    exists k :: 0 <= k < |levels| && levels[k] == Level(p, z) && forall j :: k < j < |levels| ==> levels[j].price != p
  }

  lemma LastWriteSnoc(levels: seq<Level>, p: real, z: real)
    requires levels != []
    ensures var last := levels[|levels| - 1];
            LastWrite(levels, p, z) <==>
            if last.price == p then last.size == z else LastWrite(levels[..|levels| - 1], p, z)
  {
    var n := |levels| - 1;
    var last, front := levels[n], levels[..n];
    if last == Level(p, z) {
      assert LastWrite(levels, p, z);
    }
    if last.price != p && LastWrite(front, p, z) {
      var k :| 0 <= k < n && front[k] == Level(p, z) && forall j :: k < j < n ==> front[j].price != p;
      assert levels[k] == Level(p, z) && forall j :: k < j < n ==> levels[j] == front[j];
    }
    if last.price != p && LastWrite(levels, p, z) {
      var k :| 0 <= k < |levels| && levels[k] == Level(p, z) && forall j :: k < j < |levels| ==> levels[j].price != p;
      assert front[k] == Level(p, z);
    }
  }

  /**
    A side holds a level exactly when that was the last one written at its price, with a price
    above zero and a size that is not zero.
   */
  lemma {:induction false} FoldIsLastWrite(levels: seq<Level>, p: real, z: real)
    ensures p in Fold(map[], levels) && Fold(map[], levels)[p] == z <==> p > 0.0 && z != 0.0 && LastWrite(levels, p, z)
    decreases |levels|
  {
    if levels != [] {
      LastWriteSnoc(levels, p, z);
      FoldIsLastWrite(levels[..|levels| - 1], p, z);
    }
  }

  lemma FoldKeysArePositive(levels: seq<Level>, p: real)
    requires p in Fold(map[], levels)
    ensures p > 0.0 && Fold(map[], levels)[p] != 0.0
  {
    FoldIsLastWrite(levels, p, Fold(map[], levels)[p]);
  }

  // ---- The best price --------------------------------------------------

  /** The first price of all, or zero on an empty side. */
  ghost predicate IsTop(kind: Kind, m: map<real, real>, best: real) {
    if m == map[] then best == 0.0 else best in m && forall p :: p in m && p != best ==> Before(kind, best, p)
  }

  lemma {:induction false} FirstExists(kind: Kind, prices: set<real>)
    requires exists p :: p in prices
    ensures exists best :: best in prices && forall p :: p in prices && p != best ==> Before(kind, best, p)
  {
    var best :| best in prices;
    var rest := prices - {best};
    assert forall q :: q in prices ==> q == best || q in rest;
    if exists q :: q in rest {
      FirstExists(kind, rest);
      var r :| r in rest && forall p :: p in rest && p != r ==> Before(kind, r, p);
      best := if Before(kind, best, r) then best else r;
    }
    assert forall p :: p in prices && p != best ==> Before(kind, best, p);
  }

  /** Every side has one best price: the highest bid, the lowest ask. */
  lemma TopExists(kind: Kind, m: map<real, real>)
    ensures exists best :: IsTop(kind, m, best)
  {
    if forall p :: p !in m {
      assert m == map[];
      assert IsTop(kind, m, 0.0);
    } else {
      FirstExists(kind, m.Keys);
      var best :| best in m.Keys && forall p :: p in m.Keys && p != best ==> Before(kind, best, p);
      assert IsTop(kind, m, best);
    }
  }

  ghost function Top(kind: Kind, m: map<real, real>): (best: real)
    ensures IsTop(kind, m, best)
  {
    TopExists(kind, m);
    var best :| IsTop(kind, m, best);
    best
  }

  lemma TopIsUnique(kind: Kind, m: map<real, real>, best: real)
    requires IsTop(kind, m, best)
    ensures best == Top(kind, m)
  {}

  /** The first level of a sorted side is its true extremum. */
  method Begin(kind: Kind, side: seq<Level>) returns (best: real)
    requires Sorted(kind, side)
    ensures best == Top(kind, Contents(side))
  {
    best := if side == [] then 0.0 else side[0].price;
    if side != [] {
      PricesFollow(kind, side[1..], best);
      assert best in Contents(side) && forall p :: p in Contents(side) && p != best ==> p in Contents(side[1..]);
    }
    TopIsUnique(kind, Contents(side), best);
  }

  // ---- Updating a side -------------------------------------------------

  /** Where a price is, or would go. */
  method Locate(kind: Kind, side: seq<Level>, price: real) returns (at: nat)
    requires Sorted(kind, side)
    ensures at <= |side|
    ensures forall i :: 0 <= i < at ==> Before(kind, side[i].price, price)
    ensures forall i :: at <= i < |side| ==> !Before(kind, side[i].price, price)
  {
    at := 0;
    var end := |side|;
    while at < end
      invariant at <= end <= |side|
      invariant forall i :: 0 <= i < at ==> Before(kind, side[i].price, price)
      invariant forall i :: end <= i < |side| ==> !Before(kind, side[i].price, price)
    {
      var mid := (at + end) / 2;
      if Before(kind, side[mid].price, price) {
        at := mid + 1;
      } else {
        end := mid;
      }
    }
  }

  function Erased(side: seq<Level>, at: nat): (next: seq<Level>)
    requires at < |side|
    ensures |next| == |side| - 1
    ensures forall i :: 0 <= i < |next| ==> next[i] == side[if i < at then i else i + 1]
  {
    side[..at] + side[at + 1..]
  }

  lemma ErasedIsSorted(kind: Kind, side: seq<Level>, at: nat)
    requires Sorted(kind, side) && at < |side|
    ensures Sorted(kind, Erased(side, at))
  {}

  lemma EraseAfterPut(m: map<real, real>, l: Level, price: real)
    requires l.price != price
    ensures m[l.price := l.size] - {price} == (m - {price})[l.price := l.size]
  {}

  lemma {:induction false} ErasedContents(kind: Kind, side: seq<Level>, at: nat)
    requires Sorted(kind, side) && at < |side|
    ensures Contents(Erased(side, at)) == Contents(side) - {side[at].price}
  {
    if at == 0 {
      assert Erased(side, 0) == side[1..];
      PriceIsAbsent(side[1..], side[0].price);
    } else {
      ErasedContents(kind, side[1..], at - 1);
      assert Erased(side, at)[1..] == Erased(side[1..], at - 1);
      EraseAfterPut(Contents(side[1..]), side[0], side[at].price);
    }
  }

  function Inserted(side: seq<Level>, at: nat, level: Level): (next: seq<Level>)
    requires at <= |side|
    ensures |next| == |side| + 1 && next[at] == level
    ensures forall i :: 0 <= i < |next| && i != at ==> next[i] == side[if i < at then i else i - 1]
  {
    side[..at] + [level] + side[at..]
  }

  lemma InsertedIsSorted(kind: Kind, side: seq<Level>, at: nat, level: Level)
    requires Sorted(kind, side) && at <= |side|
    requires forall i :: 0 <= i < at ==> Before(kind, side[i].price, level.price)
    requires forall i :: at <= i < |side| ==> Before(kind, level.price, side[i].price)
    ensures Sorted(kind, Inserted(side, at, level))
  {}

  lemma {:induction false} InsertedContents(side: seq<Level>, at: nat, level: Level)
    requires at <= |side| && forall i :: 0 <= i < at ==> side[i].price != level.price
    ensures Contents(Inserted(side, at, level)) == Contents(side)[level.price := level.size]
  {
    if at == 0 {
      assert Inserted(side, 0, level)[1..] == side;
    } else {
      InsertedContents(side[1..], at - 1, level);
      assert Inserted(side, at, level)[1..] == Inserted(side[1..], at - 1, level);
    }
  }

  lemma {:induction false} ReplacedContents(kind: Kind, side: seq<Level>, at: nat, level: Level)
    requires Sorted(kind, side) && at < |side| && side[at].price == level.price
    ensures Contents(side[at := level]) == Contents(side)[level.price := level.size]
  {
    if at == 0 {
      assert side[0 := level][1..] == side[1..];
    } else {
      ReplacedContents(kind, side[1..], at - 1, level);
      assert side[at := level][1..] == side[1..][at - 1 := level];
    }
  }

  method EraseAt(kind: Kind, side: seq<Level>, price: real) returns (next: seq<Level>)
    requires Sorted(kind, side)
    ensures Sorted(kind, next)
    ensures Contents(next) == Contents(side) - {price}
  {
    var at := Locate(kind, side, price);
    if at < |side| && side[at].price == price {
      ErasedIsSorted(kind, side, at);
      ErasedContents(kind, side, at);
      next := Erased(side, at);
    } else {
      PriceIsAbsent(side, price);
      next := side;
    }
  }

  method Assign(kind: Kind, side: seq<Level>, level: Level) returns (next: seq<Level>)
    requires Sorted(kind, side)
    ensures Sorted(kind, next)
    ensures Contents(next) == Contents(side)[level.price := level.size]
  {
    var at := Locate(kind, side, level.price);
    if at < |side| && side[at].price == level.price {
      ReplacedContents(kind, side, at, level);
      next := side[at := level];
    } else {
      InsertedIsSorted(kind, side, at, level);
      InsertedContents(side, at, level);
      next := Inserted(side, at, level);
    }
  }

  method ApplyLevels(kind: Kind, side: seq<Level>, levels: seq<Level>) returns (next: seq<Level>)
    requires Sorted(kind, side)
    ensures Sorted(kind, next)
    ensures Contents(next) == Fold(Contents(side), levels)
  {
    next := side;
    for k := 0 to |levels|
      invariant Sorted(kind, next)
      invariant Contents(next) == Fold(Contents(side), levels[..k])
    {
      assert levels[..k + 1][..k] == levels[..k];
      if levels[k].price <= 0.0 {
        continue;
      }
      if levels[k].size == 0.0 {
        next := EraseAt(kind, next, levels[k].price);
      } else {
        next := Assign(kind, next, levels[k]);
      }
    }
    assert levels[..|levels|] == levels;
  }

  // ---- Messages --------------------------------------------------------

  /** The two sides of an order_book object; a side that is missing or no array is None. */
  datatype Delta = Delta(bids: Option<seq<Level>>, asks: Option<seq<Level>>)

  datatype BookMessage = BookMessage(marketId: int, delta: Delta, snapshot: bool)

  function LevelsOf(delta: Delta, kind: Kind): seq<Level> {
    var side := if kind.Bids? then delta.bids else delta.asks;
    if side.Some? then side.value else []
  }

  /** The levels a market was sent for one side since its last snapshot, in order. */
  function LevelsSince(history: seq<BookMessage>, marketId: int, kind: Kind): seq<Level> {
    if history == [] then []
    else
      var front, last := history[..|history| - 1], history[|history| - 1];
      if last.marketId != marketId then LevelsSince(front, marketId, kind)
      else (if last.snapshot then [] else LevelsSince(front, marketId, kind)) + LevelsOf(last.delta, kind)
  }

  /** One side of a market, as its messages define it. */
  function Depth(history: seq<BookMessage>, marketId: int, kind: Kind): map<real, real> {
    Fold(map[], LevelsSince(history, marketId, kind))
  }

  datatype Emission =
    | BookUpdate(marketId: int, bestBid: real, bestAsk: real)
    | AccountUpdate(message: Message)
    | Unsubscribe(channel: string)
    | Subscribe(channel: string)

  predicate Crossed(bestBid: real, bestAsk: real) {
    bestBid > 0.0 && bestAsk > 0.0 && bestBid > bestAsk
  }

  function BookChannel(marketId: int): string {
    "order_book" + "/" + FormatInt(marketId)
  }

  /** What the last message of a history, one about this market, makes the manager do. */
  ghost function Answer(history: seq<BookMessage>, marketId: int, session: bool, bookCB: bool): seq<Emission> {
    var bid, ask := Top(Bids, Depth(history, marketId, Bids)), Top(Asks, Depth(history, marketId, Asks));
    if Crossed(bid, ask) then
      if session then [Unsubscribe(BookChannel(marketId)), Subscribe(BookChannel(marketId))] else []
    else if bookCB then [BookUpdate(marketId, bid, ask)]
    else []
  }

  lemma {:induction false} UnseenMarketIsEmpty(history: seq<BookMessage>, marketId: int, kind: Kind)
    requires forall m :: m in history ==> m.marketId != marketId
    ensures Depth(history, marketId, kind) == map[]
  {
    if history != [] {
      var front := history[..|history| - 1];
      assert forall m :: m in front ==> m in history;
      assert history[|history| - 1] in history;
      UnseenMarketIsEmpty(front, marketId, kind);
    }
  }

  /**
    A message folds its levels into its market, from nothing if it is a snapshot, and leaves
    every other market alone.
   */
  lemma MessageFolds(history: seq<BookMessage>, m: BookMessage, kind: Kind)
    ensures Depth(history + [m], m.marketId, kind) ==
            Fold(if m.snapshot then map[] else Depth(history, m.marketId, kind), LevelsOf(m.delta, kind))
    ensures forall id :: id != m.marketId ==> Depth(history + [m], id, kind) == Depth(history, id, kind)
  {
    assert (history + [m])[..|history|] == history;
    FoldConcat(map[], LevelsSince(history, m.marketId, kind), LevelsOf(m.delta, kind));
    assert [] + LevelsOf(m.delta, kind) == LevelsOf(m.delta, kind);
  }

  /** A side's best price is zero exactly when the side is empty. */
  lemma TopIsPositive(history: seq<BookMessage>, marketId: int, kind: Kind)
    ensures var m := Depth(history, marketId, kind);
            Top(kind, m) >= 0.0 && (Top(kind, m) == 0.0 <==> m == map[])
  {
    var m := Depth(history, marketId, kind);
    if m != map[] {
      FoldKeysArePositive(LevelsSince(history, marketId, kind), Top(kind, m));
    }
  }

  /** The manager asks for a fresh snapshot exactly when some bid is above some ask. */
  lemma ResubscribesIffCrossed(history: seq<BookMessage>, marketId: int, bookCB: bool)
    ensures var channel := BookChannel(marketId);
            Answer(history, marketId, true, bookCB) == [Unsubscribe(channel), Subscribe(channel)] <==>
            exists p, q :: p in Depth(history, marketId, Bids) && q in Depth(history, marketId, Asks) && p > q
  {
    var bids, asks := Depth(history, marketId, Bids), Depth(history, marketId, Asks);
    TopIsPositive(history, marketId, Bids);
    TopIsPositive(history, marketId, Asks);
    assert IsTop(Bids, bids, Top(Bids, bids)) && IsTop(Asks, asks, Top(Asks, asks));
    if p, q :| p in bids && q in asks && p > q {
      assert bids != map[] && asks != map[];
      assert Top(Bids, bids) >= p && Top(Asks, asks) <= q;
    }
  }

  /** A bid above every other, an ask below every other; zero for a side with no level. */
  ghost predicate AreBest(bids: map<real, real>, asks: map<real, real>, bestBid: real, bestAsk: real) {
    && (if bids == map[] then bestBid == 0.0 else bestBid in bids && forall p :: p in bids ==> 0.0 < p <= bestBid)
    && (if asks == map[] then bestAsk == 0.0 else bestAsk in asks && forall p :: p in asks ==> 0.0 < bestAsk <= p)
  }

  lemma TopsAreBest(history: seq<BookMessage>, marketId: int)
    ensures var bids, asks := Depth(history, marketId, Bids), Depth(history, marketId, Asks);
            AreBest(bids, asks, Top(Bids, bids), Top(Asks, asks))
  {
    var bids, asks := Depth(history, marketId, Bids), Depth(history, marketId, Asks);
    TopIsPositive(history, marketId, Bids);
    TopIsPositive(history, marketId, Asks);
    forall p | p in bids ensures 0.0 < p { FoldKeysArePositive(LevelsSince(history, marketId, Bids), p); }
  }

  /**
    A crossed book makes the manager take its channel down and up again, if it has a
    session, and report nothing; any other makes it report the best prices, if a callback
    is installed, and nothing else.
   */
  lemma EveryMessageIsAnswered(history: seq<BookMessage>, marketId: int, session: bool, bookCB: bool, bestBid: real,
                               bestAsk: real)
    requires AreBest(Depth(history, marketId, Bids), Depth(history, marketId, Asks), bestBid, bestAsk)
    ensures var channel := "order_book/" + FormatInt(marketId);
            Answer(history, marketId, session, bookCB) ==
            if bestAsk != 0.0 && bestBid > bestAsk then
              if session then [Unsubscribe(channel), Subscribe(channel)] else []
            else if bookCB then [BookUpdate(marketId, bestBid, bestAsk)]
            else []
  {
    TopsAreBest(history, marketId);
    assert "order_book" + "/" == "order_book/";
    assert BookChannel(marketId) == "order_book/" + FormatInt(marketId);
  }

  /** A callback reports the true best prices of the market's messages so far, not crossed. */
  ghost predicate IsTrueUpdate(history: seq<BookMessage>, e: Emission) {
    e.BookUpdate? ==>
      && AreBest(Depth(history, e.marketId, Bids), Depth(history, e.marketId, Asks), e.bestBid, e.bestAsk)
      && (e.bestBid != 0.0 && e.bestAsk != 0.0 ==> 0.0 < e.bestBid <= e.bestAsk)
  }

  lemma AnswerIsTrue(history: seq<BookMessage>, marketId: int, session: bool, bookCB: bool)
    ensures forall e :: e in Answer(history, marketId, session, bookCB) ==> IsTrueUpdate(history, e)
  {
    TopsAreBest(history, marketId);
    TopIsPositive(history, marketId, Bids);
    TopIsPositive(history, marketId, Asks);
  }

  // ---- Channels --------------------------------------------------------

  const INT_MAX := 0x7fff_ffff

  function FormatInt(n: int): string {
    if n < 0 then "-" + Text.Digits(-n) else Text.Digits(n)
  }

  function IndexOfSeparator(s: string): nat {
    if s == "" || s[0] == ':' || s[0] == '/' then 0 else 1 + IndexOfSeparator(s[1..])
  }

  function DigitRun(s: string): (n: nat)
    ensures n <= |s| && forall k :: 0 <= k < n ==> '0' <= s[k] <= '9'
  {
    if s == "" || !('0' <= s[0] <= '9') then 0 else 1 + DigitRun(s[1..])
  }

  function SkipSpaces(s: string): string {
    if s != "" && (s[0] == ' ' || '\t' <= s[0] <= '\r') then SkipSpaces(s[1..]) else s
  }

  /** Digits, then anything; None where there is no digit or the number does not fit an int. */
  function ReadNumber(s: string, negative: bool): Option<int> {
    var n := DigitRun(s);
    var size: int := Text.ParseDigits(s[..n]);
    var value := if negative then -size else size;
    if n > 0 && -INT_MAX - 1 <= value <= INT_MAX then Some(value) else None
  }

  /** std::stoi: spaces, a sign, a number; None where it throws. */
  function Stoi(s: string): Option<int> {
    var t := SkipSpaces(s);
    if t == "" then None
    else ReadNumber(if t[0] == '-' || t[0] == '+' then t[1..] else t, t[0] == '-')
  }

  function ChannelId(channel: string): int {
    var pos := IndexOfSeparator(channel);
    if pos >= |channel| then -1
    else
      match Stoi(channel[pos + 1..])
      case None => -1
      case Some(id) => id
  }

  lemma {:induction false} DigitRunOfDigits(s: string)
    requires forall k :: 0 <= k < |s| ==> '0' <= s[k] <= '9'
    ensures DigitRun(s) == |s|
  {
    if s != "" { DigitRunOfDigits(s[1..]); }
  }

  lemma ReadNumberInvertsDigits(n: nat, negative: bool)
    requires n <= if negative then INT_MAX + 1 else INT_MAX
    ensures ReadNumber(Text.Digits(n), negative) == Some(if negative then 0 - n else n)
  {
    var digits := Text.Digits(n);
    DigitRunOfDigits(digits);
    Text.ParseInvertsDigits(n);
    assert digits[..|digits|] == digits;
  }

  lemma StoiReadsSign(digits: string, minus: string)
    requires digits != "" && '0' <= digits[0] <= '9' && (minus == "" || minus == "-")
    ensures Stoi(minus + digits) == ReadNumber(digits, minus == "-")
  {
    var s := minus + digits;
    assert s[0] == if minus == "" then digits[0] else '-';
    assert SkipSpaces(s) == s;
    assert s[|minus|..] == digits;
    assert minus == "" ==> s == digits;
  }

  lemma StoiInvertsFormat(n: int)
    requires -INT_MAX - 1 <= n <= INT_MAX
    ensures Stoi(FormatInt(n)) == Some(n)
  {
    if n < 0 {
      ReadNumberInvertsDigits(-n, true);
      StoiReadsSign(Text.Digits(-n), "-");
    } else {
      ReadNumberInvertsDigits(n, false);
      StoiReadsSign(Text.Digits(n), "");
      assert "" + Text.Digits(n) == Text.Digits(n);
    }
  }

  lemma {:induction false} SeparatorFollows(name: string, rest: string)
    requires ':' !in name && '/' !in name
    requires rest != "" && (rest[0] == ':' || rest[0] == '/')
    ensures IndexOfSeparator(name + rest) == |name|
  {
    if name == "" {
      assert name + rest == rest;
    } else {
      assert (name + rest)[1..] == name[1..] + rest;
      SeparatorFollows(name[1..], rest);
    }
  }

  lemma ChannelIdReadsSuffix(name: string, separator: string, id: string)
    requires ':' !in name && '/' !in name && (separator == ":" || separator == "/")
    ensures ChannelId(name + separator + id) == match Stoi(id) case None => -1 case Some(n) => n
  {
    var channel := name + separator + id;
    assert channel == name + (separator + id);
    SeparatorFollows(name, separator + id);
    assert channel[|name| + 1..] == id;
  }

  lemma NameHasNoSeparator()
    ensures ':' !in "order_book" && '/' !in "order_book"
  {}

  lemma SuffixNamesMarket(name: string, separator: string, marketId: int)
    requires ':' !in name && '/' !in name && (separator == ":" || separator == "/")
    requires -INT_MAX - 1 <= marketId <= INT_MAX
    ensures ChannelId(name + separator + FormatInt(marketId)) == marketId
  {
    StoiInvertsFormat(marketId);
    ChannelIdReadsSuffix(name, separator, FormatInt(marketId));
  }

  /** The channel a market is subscribed under, and the one its messages carry, both name that market. */
  lemma ChannelNamesMarket(marketId: int)
    requires -INT_MAX - 1 <= marketId <= INT_MAX
    ensures ChannelId(BookChannel(marketId)) == marketId
    ensures ChannelId("order_book" + ":" + FormatInt(marketId)) == marketId
  {
    NameHasNoSeparator();
    SuffixNamesMarket("order_book", "/", marketId);
    SuffixNamesMarket("order_book", ":", marketId);
  }

  lemma {:induction false} NoSeparatorFound(s: string)
    requires ':' !in s && '/' !in s
    ensures IndexOfSeparator(s) == |s|
  {
    if s != "" { NoSeparatorFound(s[1..]); }
  }

  /** A channel with no separator, or no number after it, stands for market -1. */
  lemma UnreadableChannelIsMinusOne(name: string, separator: string, rest: string)
    requires ':' !in name && '/' !in name && (separator == ":" || separator == "/")
    requires rest != "" ==>
               && rest[0] !in {' ', '\t', '\n', '\U{000b}', '\U{000c}', '\r', '+', '-'}
               && !('0' <= rest[0] <= '9')
    ensures ChannelId(name) == -1 && ChannelId(name + separator + rest) == -1
  {
    NoSeparatorFound(name);
    ChannelIdReadsSuffix(name, separator, rest);
  }

  /** A parsed message: its type, its channel, and its order_book object, where it has them. */
  datatype Message = Message(kind: Option<string>, channel: Option<string>, orderBook: Option<Delta>)

  function ChannelOf(message: Message): string {
    if message.channel.Some? then message.channel.value else ""
  }

  predicate IsAccountKind(kind: string) {
    || kind == "subscribed/account_all_orders" || kind == "update/account_all_orders"
    || kind == "subscribed/account_all" || kind == "update/account_all"
  }

  // ---- The manager -----------------------------------------------------

  datatype Book = Book(bids: seq<Level>, asks: seq<Level>)

  /** The book is the last-write-wins fold of the market's levels since its last snapshot. */
  ghost predicate IsBookOf(book: Book, history: seq<BookMessage>, marketId: int) {
    && Sorted(Bids, book.bids) && Contents(book.bids) == Depth(history, marketId, Bids)
    && Sorted(Asks, book.asks) && Contents(book.asks) == Depth(history, marketId, Asks)
  }

  ghost predicate Mentions(levels: seq<Level>, p: real) {
    exists j :: 0 <= j < |levels| && levels[j].price == p
  }

  lemma LastWriteConcat(a: seq<Level>, b: seq<Level>, p: real, z: real)
    ensures LastWrite(a + b, p, z) <==> LastWrite(b, p, z) || (!Mentions(b, p) && LastWrite(a, p, z))
    decreases |b|
  {
    if b == [] {
      assert a + b == a;
    } else {
      var front, last := b[..|b| - 1], b[|b| - 1];
      assert (a + b)[..|a + b| - 1] == a + front;
      LastWriteSnoc(a + b, p, z);
      LastWriteSnoc(b, p, z);
      LastWriteConcat(a, front, p, z);
      assert b == front + [last];
      assert Mentions(b, p) <==> last.price == p || Mentions(front, p) by {
        if last.price == p { assert b[|front|].price == p; }
        if Mentions(front, p) {
          var j :| 0 <= j < |front| && front[j].price == p;
          assert b[j].price == p;
        }
      }
    }
  }

  /** Message n gave the price this size, and no message about the market speaks of it or starts afresh after that. */
  ghost predicate IsWordAt(history: seq<BookMessage>, n: nat, marketId: int, kind: Kind, p: real, z: real) {
    && n < |history| && history[n].marketId == marketId && LastWrite(LevelsOf(history[n].delta, kind), p, z)
    && forall k :: n < k < |history| ==> Passes(history[k], marketId, kind, p)
  }

  ghost predicate Passes(m: BookMessage, marketId: int, kind: Kind, p: real) {
    m.marketId == marketId ==> !m.snapshot && !Mentions(LevelsOf(m.delta, kind), p)
  }

  ghost predicate IsWord(history: seq<BookMessage>, marketId: int, kind: Kind, p: real, z: real) {
    exists n: nat :: IsWordAt(history, n, marketId, kind, p, z)
  }

  lemma WordAtSnoc(history: seq<BookMessage>, m: BookMessage, n: nat, marketId: int, kind: Kind, p: real, z: real)
    requires n < |history|
    ensures IsWordAt(history + [m], n, marketId, kind, p, z) <==>
            IsWordAt(history, n, marketId, kind, p, z) && Passes(m, marketId, kind, p)
  {
    var all := history + [m];
    assert all[|history|] == m && forall k :: 0 <= k < |history| ==> all[k] == history[k];
  }

  lemma WordSnoc(history: seq<BookMessage>, m: BookMessage, marketId: int, kind: Kind, p: real, z: real)
    ensures IsWord(history + [m], marketId, kind, p, z) <==>
            || (m.marketId == marketId && LastWrite(LevelsOf(m.delta, kind), p, z))
            || (Passes(m, marketId, kind, p) && IsWord(history, marketId, kind, p, z))
  {
    var all := history + [m];
    if IsWord(all, marketId, kind, p, z) {
      var n: nat :| IsWordAt(all, n, marketId, kind, p, z);
      if n < |history| { WordAtSnoc(history, m, n, marketId, kind, p, z); }
    }
    if m.marketId == marketId && LastWrite(LevelsOf(m.delta, kind), p, z) {
      assert IsWordAt(all, |history|, marketId, kind, p, z);
    }
    if Passes(m, marketId, kind, p) && IsWord(history, marketId, kind, p, z) {
      var n: nat :| IsWordAt(history, n, marketId, kind, p, z);
      WordAtSnoc(history, m, n, marketId, kind, p, z);
    }
  }

  lemma {:induction false} LevelsSinceIsWord(history: seq<BookMessage>, marketId: int, kind: Kind, p: real, z: real)
    ensures LastWrite(LevelsSince(history, marketId, kind), p, z) <==> IsWord(history, marketId, kind, p, z)
    decreases |history|
  {
    if history != [] {
      var front, last := history[..|history| - 1], history[|history| - 1];
      assert history == front + [last];
      LevelsSinceIsWord(front, marketId, kind, p, z);
      WordSnoc(front, last, marketId, kind, p, z);
      var prior := if last.snapshot then [] else LevelsSince(front, marketId, kind);
      LastWriteConcat(prior, LevelsOf(last.delta, kind), p, z);
    }
  }

  /** Message n gave the level's price its size among the bids, and is the last about the market to touch that price. */
  ghost predicate IsBidWord(history: seq<BookMessage>, n: nat, marketId: int, l: Level) {
    && n < |history| && history[n].marketId == marketId
    && history[n].delta.bids.Some? && LastWrite(history[n].delta.bids.value, l.price, l.size)
    && forall k :: n < k < |history| && history[k].marketId == marketId ==>
         !history[k].snapshot && (history[k].delta.bids.Some? ==> !Mentions(history[k].delta.bids.value, l.price))
  }

  /** Message n gave the level's price its size among the asks, and is the last about the market to touch that price. */
  ghost predicate IsAskWord(history: seq<BookMessage>, n: nat, marketId: int, l: Level) {
    && n < |history| && history[n].marketId == marketId
    && history[n].delta.asks.Some? && LastWrite(history[n].delta.asks.value, l.price, l.size)
    && forall k :: n < k < |history| && history[k].marketId == marketId ==>
         !history[k].snapshot && (history[k].delta.asks.Some? ==> !Mentions(history[k].delta.asks.value, l.price))
  }

  /**
    A level is among the bids exactly when it is the last word on its price in the bids of
    the market's messages, with no snapshot after it, and has neither a zero price nor a
    zero size.
   */
  lemma BidsAreLastWords(book: Book, history: seq<BookMessage>, marketId: int, l: Level)
    requires IsBookOf(book, history, marketId)
    ensures l in book.bids <==>
            l.price > 0.0 && l.size != 0.0 && exists n: nat :: IsBidWord(history, n, marketId, l)
  {
    LevelsAreContents(Bids, book.bids, l);
    FoldIsLastWrite(LevelsSince(history, marketId, Bids), l.price, l.size);
    LevelsSinceIsWord(history, marketId, Bids, l.price, l.size);
    forall n: nat
      ensures IsWordAt(history, n, marketId, Bids, l.price, l.size) <==> IsBidWord(history, n, marketId, l)
    {}
  }

  /** And the same for the asks. */
  lemma AsksAreLastWords(book: Book, history: seq<BookMessage>, marketId: int, l: Level)
    requires IsBookOf(book, history, marketId)
    ensures l in book.asks <==>
            l.price > 0.0 && l.size != 0.0 && exists n: nat :: IsAskWord(history, n, marketId, l)
  {
    LevelsAreContents(Asks, book.asks, l);
    FoldIsLastWrite(LevelsSince(history, marketId, Asks), l.price, l.size);
    LevelsSinceIsWord(history, marketId, Asks, l.price, l.size);
    forall n: nat
      ensures IsWordAt(history, n, marketId, Asks, l.price, l.size) <==> IsAskWord(history, n, marketId, l)
    {}
  }

  /** A snapshot leaves exactly its own levels, whatever was there before; a side it lacks ends empty. */
  lemma SnapshotReplacesBook(book: Book, history: seq<BookMessage>, m: BookMessage, l: Level)
    requires m.snapshot && IsBookOf(book, history + [m], m.marketId)
    ensures l in book.bids <==>
            m.delta.bids.Some? && l.price > 0.0 && l.size != 0.0 && LastWrite(m.delta.bids.value, l.price, l.size)
    ensures l in book.asks <==>
            m.delta.asks.Some? && l.price > 0.0 && l.size != 0.0 && LastWrite(m.delta.asks.value, l.price, l.size)
  {
    LevelsAreContents(Bids, book.bids, l);
    LevelsAreContents(Asks, book.asks, l);
    MessageFolds(history, m, Bids);
    MessageFolds(history, m, Asks);
    FoldIsLastWrite(LevelsOf(m.delta, Bids), l.price, l.size);
    FoldIsLastWrite(LevelsOf(m.delta, Asks), l.price, l.size);
  }

  /** A delta without one of the sides leaves that side as it was. */
  lemma MissingSideStays(before: Book, after: Book, history: seq<BookMessage>, m: BookMessage, l: Level)
    requires !m.snapshot && IsBookOf(before, history, m.marketId) && IsBookOf(after, history + [m], m.marketId)
    ensures m.delta.bids.None? ==> (l in after.bids <==> l in before.bids)
    ensures m.delta.asks.None? ==> (l in after.asks <==> l in before.asks)
  {
    MessageFolds(history, m, Bids);
    MessageFolds(history, m, Asks);
    LevelsAreContents(Bids, before.bids, l);
    LevelsAreContents(Bids, after.bids, l);
    LevelsAreContents(Asks, before.asks, l);
    LevelsAreContents(Asks, after.asks, l);
  }

  method ApplyDelta(book: Book, delta: Delta) returns (next: Book)
    requires Sorted(Bids, book.bids) && Sorted(Asks, book.asks)
    ensures Sorted(Bids, next.bids) && Contents(next.bids) == Fold(Contents(book.bids), LevelsOf(delta, Bids))
    ensures Sorted(Asks, next.asks) && Contents(next.asks) == Fold(Contents(book.asks), LevelsOf(delta, Asks))
  {
    var bids, asks := book.bids, book.asks;
    if delta.bids.Some? {
      bids := ApplyLevels(Bids, bids, delta.bids.value);
    }
    if delta.asks.Some? {
      asks := ApplyLevels(Asks, asks, delta.asks.value);
    }
    next := Book(bids, asks);
  }

  /** One message about the book's own market: a snapshot starts it afresh. */
  method TakeIn(book: Book, m: BookMessage, ghost history: seq<BookMessage>) returns (next: Book)
    requires IsBookOf(book, history, m.marketId)
    ensures IsBookOf(next, history + [m], m.marketId)
  {
    MessageFolds(history, m, Bids);
    MessageFolds(history, m, Asks);
    next := ApplyDelta(if m.snapshot then Book([], []) else book, m.delta);
  }

  lemma OtherBooksStand(book: Book, history: seq<BookMessage>, m: BookMessage, marketId: int)
    requires IsBookOf(book, history, marketId) && marketId != m.marketId
    ensures IsBookOf(book, history + [m], marketId)
  {
    MessageFolds(history, m, Bids);
    MessageFolds(history, m, Asks);
  }

  /** The callback was true at some moment of the history, right after a message about its market. */
  ghost predicate WasTrue(history: seq<BookMessage>, e: Emission) {
    e.BookUpdate? ==>
      exists n :: 0 < n <= |history| && history[n - 1].marketId == e.marketId && IsTrueUpdate(history[..n], e)
  }

  /** Every callback was true when it was made. */
  ghost predicate AllTrue(history: seq<BookMessage>, emitted: seq<Emission>) {
    forall e :: e in emitted ==> WasTrue(history, e)
  }

  lemma WasTrueGrows(history: seq<BookMessage>, m: BookMessage, e: Emission)
    requires WasTrue(history, e)
    ensures WasTrue(history + [m], e)
  {
    if e.BookUpdate? {
      var n :| 0 < n <= |history| && history[n - 1].marketId == e.marketId && IsTrueUpdate(history[..n], e);
      assert (history + [m])[..n] == history[..n];
    }
  }

  lemma AnswerKeepsAllTrue(history: seq<BookMessage>, emitted: seq<Emission>, m: BookMessage, session: bool,
                           bookCB: bool)
    requires AllTrue(history, emitted)
    ensures AllTrue(history + [m], emitted + Answer(history + [m], m.marketId, session, bookCB))
  {
    var history' := history + [m];
    var answer := Answer(history', m.marketId, session, bookCB);
    AnswerIsTrue(history', m.marketId, session, bookCB);
    assert history'[..|history'|] == history';
    forall e | e in emitted + answer
      ensures WasTrue(history', e)
    {
      if e in emitted { WasTrueGrows(history, m, e); }
    }
  }

  class WSStreamManager {
    var books: map<int, Book>
    var session: bool
    var bookCB: bool
    var accountCB: bool
    var emitted: seq<Emission>
    ghost var history: seq<BookMessage>

    ghost predicate Valid()
      reads this
    {
      BooksValid() && AllTrue(history, emitted)
    }

    /** Every market heard of has the book its messages define. */
    ghost predicate BooksValid()
      reads this`books, this`history
    {
      && (forall m :: m in history ==> m.marketId in books)
      && (forall id :: id in books ==> IsBookOf(books[id], history, id))
    }

    constructor ()
      ensures Valid() && history == [] && emitted == [] && books == map[]
    {
      books, emitted, history := map[], [], [];
      session, bookCB, accountCB := false, false, false;
    }

    /** The first half of onOrderBookMessage: the market's book takes in the message. */
    method UpdateBook(marketId: int, orderBook: Delta, snapshot: bool) returns (book: Book)
      requires BooksValid()
      modifies this`books, this`history
      ensures BooksValid()
      ensures history == old(history) + [BookMessage(marketId, orderBook, snapshot)]
      ensures IsBookOf(book, history, marketId) && books == old(books)[marketId := book]
    {
      var m := BookMessage(marketId, orderBook, snapshot);
      if marketId in books {
        book := books[marketId];
      } else {
        UnseenMarketIsEmpty(history, marketId, Bids);
        UnseenMarketIsEmpty(history, marketId, Asks);
        book := Book([], []);
      }
      book := TakeIn(book, m, history);
      forall id | id in books && id != marketId
        ensures IsBookOf(books[id], history + [m], id)
      {
        OtherBooksStand(books[id], history, m, id);
      }
      books := books[marketId := book];
      history := history + [m];
    }

    method OnOrderBookMessage(marketId: int, orderBook: Delta, snapshot: bool)
      requires Valid()
      modifies this`books, this`emitted, this`history
      ensures Valid()
      ensures history == old(history) + [BookMessage(marketId, orderBook, snapshot)]
      ensures emitted == old(emitted) + Answer(history, marketId, session, bookCB)
    {
      var book := UpdateBook(marketId, orderBook, snapshot);
      var bestBid := Begin(Bids, book.bids);
      var bestAsk := Begin(Asks, book.asks);
      AnswerKeepsAllTrue(old(history), emitted, BookMessage(marketId, orderBook, snapshot), session, bookCB);
      if Crossed(bestBid, bestAsk) {
        if session {
          emitted := emitted + [Unsubscribe(BookChannel(marketId))] + [Subscribe(BookChannel(marketId))];
        }
      } else if bookCB {
        emitted := emitted + [BookUpdate(marketId, bestBid, bestAsk)];
      }
    }

    method OnMessage(message: Message)
      requires Valid()
      modifies this`books, this`emitted, this`history
      ensures Valid()
      ensures var marketId := if message.channel.Some? then ChannelId(message.channel.value) else -1;
              if message.orderBook.Some? && message.kind == Some("subscribed/order_book") then
                && history == old(history) + [BookMessage(marketId, message.orderBook.value, true)]
                && emitted == old(emitted) + Answer(history, marketId, session, bookCB)
              else if message.orderBook.Some? && message.kind == Some("update/order_book") then
                && history == old(history) + [BookMessage(marketId, message.orderBook.value, false)]
                && emitted == old(emitted) + Answer(history, marketId, session, bookCB)
              else
                && history == old(history)
                && emitted == old(emitted) +
                   if accountCB && message.kind.Some? && message.kind.value in {
                        "subscribed/account_all_orders", "update/account_all_orders",
                        "subscribed/account_all", "update/account_all"}
                   then [AccountUpdate(message)] else []
    {
      if message.kind.None? {
        return;
      }
      var kind := message.kind.value;
      if kind == "subscribed/order_book" || kind == "update/order_book" {
        if message.orderBook.Some? {
          OnOrderBookMessage(ChannelId(ChannelOf(message)), message.orderBook.value, kind == "subscribed/order_book");
        }
      } else if IsAccountKind(kind) {
        if accountCB {
          emitted := emitted + [AccountUpdate(message)];
        }
      }
    }
  }
}
