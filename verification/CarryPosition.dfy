/** One carry position (long spot, short perpetual): its profit, its funding and the history of its closing attempts. */
module CarryPositions {
  import opened Wrappers
  import opened Logs
  import opened Money
  import opened Walking

  datatype CarryPolicy = CarryPolicy(
    exitBasisPct: real,
    fundingFlipPeriods: nat,
    maxHoldHours: int,
    minLiquidationDistancePct: real,
    maxBasisWideningPct: real,
    fundingIntervalMs: int,
    flattenOnEmergencyStop: bool,
    maxAbsFundingRate: real)

  // --- profit ---------------------------------------------------------------------------------

  /** What was opened; `base` and `quote` are the spot venue's accounts, `perp` is the perpetual venue's quote account. */
  datatype Entry = Entry(
    size: real,
    spotPrice: real,
    perpPrice: real,
    fees: real,
    base: (string, string),
    quote: (string, string),
    perp: (string, string))
  {
    /** Two assets on the spot venue, and another venue for the perpetual. */
    predicate Apart() { base != quote && perp.0 != base.0 && perp.0 != quote.0 }
  }

  function SpotPnl(e: Entry, spotPrice: real): real { (spotPrice - e.spotPrice) * e.size }
  function PerpPnl(e: Entry, perpPrice: real): real { (e.perpPrice - perpPrice) * e.size }

  /** Long spot and short perp valued at a pair of prices, funding added and fees subtracted. */
  function Net(e: Entry, spotPrice: real, perpPrice: real, funding: real, fees: real): real {
    SpotPnl(e, spotPrice) + PerpPnl(e, perpPrice) + funding - fees
  }

  /** The profit is what the basis lost between entry and exit, per unit, plus funding less fees. */
  lemma NetIsBasisChange(e: Entry, spotPrice: real, perpPrice: real, funding: real, fees: real)
    ensures Net(e, spotPrice, perpPrice, funding, fees)
            == e.size * ((e.perpPrice - e.spotPrice) - (perpPrice - spotPrice)) + funding - fees
  {
  }

  /** A market move that shifts both prices alike changes nothing: the position is hedged. */
  lemma NetIgnoresParallelShift(e: Entry, spotPrice: real, perpPrice: real, funding: real, fees: real, shift: real)
    ensures Net(e, spotPrice + shift, perpPrice + shift, funding, fees) == Net(e, spotPrice, perpPrice, funding, fees)
  {
    NetIsBasisChange(e, spotPrice, perpPrice, funding, fees);
    NetIsBasisChange(e, spotPrice + shift, perpPrice + shift, funding, fees);
  }

  // --- marks and exit rules -----------------------------------------------------------------------

  datatype Mark = Mark(spotPrice: real, perpPrice: real, basisPct: real, unrealized: real, liquidationPct: real, hoursOpen: real)

  /** Best bid of the spot book and best ask of the perp book, where there is one. */
  datatype Prices = Prices(spotBid: Option<real>, perpAsk: Option<real>)

  function PriceOr(quoted: Option<real>, entry: real): real {
    if quoted.Some? && quoted.value != 0.0 then quoted.value else entry
  }

  /** Distance to the liquidation price of a 1x short, in percent of the current price. */
  function LiquidationPct(entryPerp: real, perpPrice: real): real {
    if perpPrice > 0.0 then (2.0 * entryPerp * 0.95 - perpPrice) / perpPrice * 100.0 else 0.0
  }

  /** A positive price is too close to liquidation exactly when it exceeds 190 / (100 + minimum) of the entry price. */
  lemma LiquidationExitIff(entryPerp: real, perpPrice: real, minimum: real)
    requires perpPrice > 0.0
    ensures LiquidationPct(entryPerp, perpPrice) < minimum <==> 190.0 * entryPerp < (100.0 + minimum) * perpPrice
  {
    var q := (2.0 * entryPerp * 0.95 - perpPrice) / perpPrice;
    assert q * perpPrice == 1.9 * entryPerp - perpPrice;
    ScaledCompare(minimum, q * 100.0, perpPrice);
    assert q * 100.0 * perpPrice == 190.0 * entryPerp - 100.0 * perpPrice;
  }

  datatype ExitReason = Converged | FundingNegative | HeldTooLong | NearLiquidation | BasisWidened | Requested(why: string) | Flatten

  function ExitRule(p: CarryPolicy, m: Mark, streak: nat, entryBasisPct: real): Option<ExitReason> {
    if m.basisPct <= p.exitBasisPct then Some(Converged)
    else if streak >= p.fundingFlipPeriods then Some(FundingNegative)
    else if m.hoursOpen >= p.maxHoldHours as real then Some(HeldTooLong)
    else if m.liquidationPct < p.minLiquidationDistancePct then Some(NearLiquidation)
    else if m.basisPct - entryBasisPct > p.maxBasisWideningPct then Some(BasisWidened)
    else None
  }

  // --- funding --------------------------------------------------------------------------------

  datatype Period = Period(ts: int, rate: real, payment: real)

  /** Received on one settlement: rate times perp price times size, negative when the rate is. */
  function Payment(e: Entry, rate: real, prices: Prices): real {
    rate * PriceOr(prices.perpAsk, e.perpPrice) * e.size
  }

  function Collected(log: seq<Period>): real {
    if log == [] then 0.0 else Collected(log[..|log|-1]) + log[|log|-1].payment
  }

  /** Collected over two stretches of time is collected in all: what the rates made of the position's value at the time. */
  lemma {:induction false} CollectedSplits(a: seq<Period>, b: seq<Period>, ts: int, e: Entry, rate: real, prices: Prices)
    ensures Collected(a + b) == Collected(a) + Collected(b)
    ensures Collected([Period(ts, rate, Payment(e, rate, prices))])
            == rate * (e.size * (match prices.perpAsk { case Some(ask) => if ask == 0.0 then e.perpPrice else ask case None => e.perpPrice }))
  {
    var one := [Period(ts, rate, Payment(e, rate, prices))];
    assert one[..0] == [];
    if b == [] {
      assert a + b == a;
    } else {
      var n := |b| - 1;
      CollectedSplits(a, b[..n], ts, e, rate, prices);
      assert (a + b)[..|a|+n] == a + b[..n];
    }
  }

  /** How many settled periods a position keeps. */
  const KEPT_PERIODS := 200

  /** Length of the negative suffix. */
  function Streak(log: seq<Period>): (k: nat)
    ensures k <= |log|
    ensures forall i | |log| - k <= i < |log| :: log[i].rate < 0.0
    ensures k < |log| ==> log[|log|-1-k].rate >= 0.0
  {
    if log == [] || log[|log|-1].rate >= 0.0 then 0 else Streak(log[..|log|-1]) + 1
  }

  /** Settlements at least one interval apart, the first one an interval after opening. */
  ghost predicate Spaced(openedMs: int, times: seq<int>, interval: int) {
    times != [] ==>
      var n := |times| - 1;
      times[n] - (if n == 0 then openedMs else times[n-1]) >= interval && Spaced(openedMs, times[..n], interval)
  }

  /** So their number times the interval fits in the time since opening. */
  lemma {:induction false} SpacedCount(openedMs: int, times: seq<int>, interval: int)
    requires Spaced(openedMs, times, interval)
    ensures |times| * interval <= (if times == [] then 0 else times[|times|-1] - openedMs)
  {
    if times != [] {
      var n := |times| - 1;
      SpacedCount(openedMs, times[..n], interval);
      assert |times| * interval == n * interval + interval;
    }
  }

  // --- closing attempts ----------------------------------------------------------------------------

  datatype Status = Open | Closing | Closed

  /**
   * One attempt; a leg is `Ok` when it filled to 99.9%, and `sold` and `bought` are the base its spot sale and its
   * perpetual buy-back really traded. Where submitting raised, no buy-back has answered.
   */
  datatype Attempt =
    | VenueMissing | InventoryMissing | QuoteFailed
    | SubmitRaised(sold: real)
    | Submitted(spotOk: bool, perpOk: bool, sold: real, bought: real)
  {
    predicate Complete() { Submitted? && spotOk && perpOk }

    /** The base traded on one side: sold on the spot venue, bought back on the perpetual one. */
    function Traded(side: Side): real {
      match this
      case SubmitRaised(sold) => if side.Sell? then sold else 0.0
      case Submitted(_, _, sold, bought) => if side.Sell? then sold else bought
      case _ => 0.0
    }
  }

  /** An attempt in which neither leg filled to 99.9% leaves the position open, even if it sold a part. */
  predicate Retryable(a: Attempt) {
    a.VenueMissing? || a.InventoryMissing? || a.QuoteFailed? || (a.Submitted? && !a.spotOk && !a.perpOk)
  }

  function StatusAfter(a: Attempt): Status {
    if Retryable(a) then Open else if a.Complete() then Closed else Closing
  }

  function StatusOf(attempts: seq<Attempt>): Status {
    if attempts == [] then Open else StatusAfter(attempts[|attempts|-1])
  }

  /** Only the last attempt can have filled a leg to 99.9% or got lost: nothing is submitted after it. */
  ghost predicate OneShot(attempts: seq<Attempt>) {
    forall i | 0 <= i < |attempts| - 1 :: Retryable(attempts[i])
  }

  /** All the base the attempts traded on one side. */
  function TotalTraded(attempts: seq<Attempt>, side: Side): real {
    if attempts == [] then 0.0 else TotalTraded(attempts[..|attempts|-1], side) + attempts[|attempts|-1].Traded(side)
  }

  lemma NextAttempt(attempts: seq<Attempt>, a: Attempt, side: Side)
    ensures OneShot(attempts) && StatusOf(attempts).Open? ==> OneShot(attempts + [a])
    ensures StatusOf(attempts + [a]) == StatusAfter(a)
    ensures TotalTraded(attempts + [a], side) == TotalTraded(attempts, side) + a.Traded(side)
  {
    assert (attempts + [a])[..|attempts|] == attempts;
  }

  /** Every order traded at most the size it asked for. */
  ghost predicate TradesWithin(attempts: seq<Attempt>, side: Side, size: real) {
    forall i | 0 <= i < |attempts| :: 0.0 <= attempts[i].Traded(side) <= size
  }

  ghost predicate NothingTraded(attempts: seq<Attempt>, side: Side) {
    forall i | 0 <= i < |attempts| :: attempts[i].Traded(side) == 0.0
  }

  lemma {:induction false} TotalZeroIff(attempts: seq<Attempt>, side: Side, size: real)
    requires TradesWithin(attempts, side, size)
    ensures TotalTraded(attempts, side) >= 0.0
    ensures TotalTraded(attempts, side) == 0.0 <==> NothingTraded(attempts, side)
  {
    if attempts != [] {
      var before := attempts[..|attempts|-1];
      TotalZeroIff(before, side, size);
      assert NothingTraded(attempts, side) ==> NothingTraded(before, side);
      if NothingTraded(before, side) && attempts[|attempts|-1].Traded(side) == 0.0 {
        assert forall i | 0 <= i < |attempts| - 1 :: attempts[i] == before[i];
      }
    }
  }

  /** A position trades its size at most once on each side, provided the attempts it repeated traded nothing there. */
  lemma TradedAtMostOnce(attempts: seq<Attempt>, side: Side, size: real)
    requires size > 0.0 && TradesWithin(attempts, side, size) && OneShot(attempts)
    requires forall i | 0 <= i < |attempts| && Retryable(attempts[i]) :: attempts[i].Traded(side) == 0.0
    ensures 0.0 <= TotalTraded(attempts, side) <= size
  {
    if attempts != [] { TotalZeroIff(attempts[..|attempts|-1], side, size); }
  }

  /** One more full-size order stays within the position, whatever it trades, if and only if no earlier one traded anything. */
  lemma NextOrderSafeIff(attempts: seq<Attempt>, side: Side, size: real)
    requires size > 0.0 && TradesWithin(attempts, side, size)
    ensures (forall a: Attempt | 0.0 <= a.Traded(side) <= size :: TotalTraded(attempts + [a], side) <= size) <==>
            NothingTraded(attempts, side)
  {
    TotalZeroIff(attempts, side, size);
    forall a: Attempt
      ensures TotalTraded(attempts + [a], side) == TotalTraded(attempts, side) + a.Traded(side)
    {
      NextAttempt(attempts, a, side);
    }
    var full := Submitted(true, true, size, size);
    assert full.Traded(side) == size;
    assert TotalTraded(attempts + [full], side) == TotalTraded(attempts, side) + size;
  }

  // --- the position ------------------------------------------------------------------------------------

  class Position {
    const id: string
    const entry: Entry
    const entryBasisPct: real
    const openedAtMs: int
    const intervalMs: int
    var status: Status
    var fundingCollected: real
    var periods: seq<Period>
    var negativeStreak: nat
    var lastFundingMs: Option<int>
    var fees: real
    var realizedNet: Option<real>
    var exitPrices: Option<(real, real)>
    var exitReason: Option<ExitReason>
    ghost var settled: seq<Period>
    ghost var settleTimes: seq<int>
    ghost var attempts: seq<Attempt>

    ghost predicate FundingValid()
      reads `fundingCollected, `periods, `negativeStreak, `settled, `lastFundingMs, `settleTimes
    {
      && fundingCollected == Collected(settled) && periods == Newest(settled, KEPT_PERIODS) && negativeStreak == Streak(settled)
      && openedAtMs >= 0 && intervalMs > 0
      && Spaced(openedAtMs, settleTimes, intervalMs)
      && lastFundingMs == (if settleTimes == [] then None else Some(settleTimes[|settleTimes|-1]))
      && (forall i | 0 <= i < |settleTimes| :: settleTimes[i] > 0)
      && |settled| <= |settleTimes|
    }

    ghost predicate Valid()
      reads this
    {
      && FundingValid() && entry.Apart() && entry.size > 0.0
      && status == StatusOf(attempts) && OneShot(attempts)
      && (status.Closed? <==> realizedNet.Some?) && (status.Closed? <==> exitPrices.Some?)
      && (realizedNet.Some? ==> realizedNet.value == Net(entry, exitPrices.value.0, exitPrices.value.1, fundingCollected, fees))
      && (!status.Closed? ==> fees == entry.fees)
    }

    constructor (id: string, e: Entry, openedAtMs: int, intervalMs: int)
      requires openedAtMs >= 0 && intervalMs > 0 && e.Apart() && e.size > 0.0
      ensures Valid() && status == Open && attempts == [] && settled == [] && fundingCollected == 0.0
      ensures this.id == id && entry == e && this.intervalMs == intervalMs && this.openedAtMs == openedAtMs
      ensures entryBasisPct == Pct(e.perpPrice - e.spotPrice, e.spotPrice)
    {
      this.id, entry, this.openedAtMs, this.intervalMs := id, e, openedAtMs, intervalMs;
      entryBasisPct := Pct(e.perpPrice - e.spotPrice, e.spotPrice);
      status, fundingCollected, periods, negativeStreak, lastFundingMs := Open, 0.0, [], 0, None;
      fees, realizedNet, exitPrices, exitReason := e.fees, None, None, None;
      settled, settleTimes, attempts := [], [], [];
    }

    function MarkAt(prices: Prices, nowMs: int): Mark
      reads this
    {
      var spot, perp := PriceOr(prices.spotBid, entry.spotPrice), PriceOr(prices.perpAsk, entry.perpPrice);
      Mark(spot, perp, if spot > 0.0 then (perp - spot) / spot * 100.0 else 0.0,
           Net(entry, spot, perp, fundingCollected, fees), LiquidationPct(entry.perpPrice, perp),
           (nowMs - openedAtMs) as real / 3600000.0)
    }

    /** A mark values the position at the best bid and ask, or at its entry prices without them: its share of the fall of the basis. */
    lemma MarkedNet(prices: Prices, nowMs: int)
      ensures var m := MarkAt(prices, nowMs);
              && m.unrealized == entry.size * ((entry.perpPrice - entry.spotPrice) - (m.perpPrice - m.spotPrice)) + fundingCollected - fees
              && m.spotPrice == (match prices.spotBid { case Some(bid) => if bid == 0.0 then entry.spotPrice else bid case None => entry.spotPrice })
              && m.perpPrice == (match prices.perpAsk { case Some(ask) => if ask == 0.0 then entry.perpPrice else ask case None => entry.perpPrice })
    {
      var m := MarkAt(prices, nowMs);
      NetIsBasisChange(entry, m.spotPrice, m.perpPrice, fundingCollected, fees);
    }

    /** One settled rate: a short receives a positive one. The kept history is the newest 200 periods. */
    method AccrueFunding(rate: Option<real>, prices: Prices, nowMs: int)
      requires FundingValid() && |settled| < |settleTimes|
      modifies this`fundingCollected, this`periods, this`negativeStreak, this`settled
      ensures FundingValid()
      ensures rate.None? ==> settled == old(settled)
      ensures rate.Some? ==>
                settled == old(settled) + [Period(nowMs, rate.value, Payment(entry, rate.value, prices))]
    {
      hide Payment, Spaced;
      if rate.None? { return; }
      var payment := Payment(entry, rate.value, prices);
      var p := Period(nowMs, rate.value, payment);
      NewestPush(settled, KEPT_PERIODS, p);
      assert (settled + [p])[..|settled|] == settled;
      fundingCollected := fundingCollected + payment;
      var kept := periods + [p];
      periods := Newest(kept, KEPT_PERIODS);
      negativeStreak := if rate.value < 0.0 then negativeStreak + 1 else 0;
      settled := settled + [p];
    }

    function LastSettlement(): int
      reads this
    {
      if lastFundingMs.Some? && lastFundingMs.value != 0 then lastFundingMs.value else openedAtMs
    }

    /** Moves the settlement clock on. */
    method Advance(settleMs: int)
      requires FundingValid() && settleMs - LastSettlement() >= intervalMs
      modifies this`lastFundingMs, this`settleTimes
      ensures FundingValid() && |settled| < |settleTimes|
      ensures settleTimes == old(settleTimes) + [settleMs] && lastFundingMs == Some(settleMs)
    {
      hide Collected, Streak, Newest;
      assert settleTimes != [] ==> settleTimes[|settleTimes|-1] > 0;
      assert (settleTimes + [settleMs])[..|settleTimes|] == settleTimes;
      lastFundingMs := Some(settleMs);
      settleTimes := settleTimes + [settleMs];
    }

    /** A due settlement: the clock is moved on even when the rate is unknown. `settleMs` is read after `checkMs`. */
    method AccrueIfDue(answer: RateAnswer, prices: Prices, checkMs: int, settleMs: int) returns (done: bool)
      requires Valid() && status.Open? && checkMs <= settleMs
      modifies this`fundingCollected, this`periods, this`negativeStreak, this`settled, this`lastFundingMs, this`settleTimes
      ensures Valid()
      ensures done <==> checkMs - old(LastSettlement()) >= intervalMs && answer.Answered?
      ensures done ==> settleTimes == old(settleTimes) + [settleMs] && lastFundingMs == Some(settleMs)
      ensures done && answer.rate.Some? ==>
                settled == old(settled) + [Period(settleMs, answer.rate.value, Payment(entry, answer.rate.value, prices))]
      ensures !done || answer.rate.None? ==> settled == old(settled)
      ensures !done ==> unchanged(this)
    {
      hide Payment, Net, OneShot, StatusOf, FundingValid;
      if checkMs - LastSettlement() < intervalMs { return false; }
      if answer.Unavailable? { return false; }
      Advance(settleMs);
      AccrueFunding(answer.rate, prices, settleMs);
      return true;
    }

    /** Accruals, with a known rate or without one, are at least an interval apart and fit in the time since opening. */
    lemma AccrualsFitIn(nowMs: int)
      requires FundingValid()
      requires settleTimes != [] ==> settleTimes[|settleTimes|-1] <= nowMs
      requires openedAtMs <= nowMs
      ensures |settled| * intervalMs <= |settleTimes| * intervalMs <= nowMs - openedAtMs
    {
      SpacedCount(openedAtMs, settleTimes, intervalMs);
      FewerFit(|settled|, |settleTimes|, intervalMs);
    }
  }

  lemma FewerFit(a: int, b: int, c: int)
    requires a <= b && c > 0
    ensures a * c <= b * c
  {
  }

  /** What the funding-rate provider says: it may fail, or not know the rate. */
  datatype RateAnswer = Unavailable | Answered(rate: Option<real>)
}
