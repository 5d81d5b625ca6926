/** The lifecycle of carry positions: opening, funding, monitoring and closing, with the reservations involved. */
module PositionManagers {
  import opened Wrappers
  import opened Money
  import opened CarryPositions
  import Breakers
  import Inventories
  import Ledgers

  /** A leg as the executor reports it. */
  datatype Leg = Leg(terminalFill: bool, filled: real, avgPrice: real, feeQuote: real)

  /** Submitting sells spot first and then buys the perp back; either call may raise. */
  datatype Submission = Raised(soldBefore: Option<Leg>) | Returned(sell: Leg, buy: Leg)

  /** What the outside world answers to one closing attempt. */
  datatype CloseEnv = CloseEnv(venuesPresent: bool, quotesOk: bool, submission: Submission) {
    function Sold(): Option<Leg> { if submission.Returned? then Some(submission.sell) else submission.soldBefore }
  }

  datatype CloseResult = NotSubmitted | Propagated | Complete(net: real) | OneLeg | NoLeg

  predicate LegOk(size: real, leg: Leg) { leg.terminalFill && leg.filled >= size * 0.999 }

  function CloseId(id: string): string { "close:" + id }

  function AttemptOf(size: real, env: CloseEnv, inventoryThere: bool): Attempt {
    if !env.venuesPresent then VenueMissing
    else if !inventoryThere then InventoryMissing
    else if !env.quotesOk then QuoteFailed
    else match env.submission
      case Raised(before) => SubmitRaised(if before.Some? then before.value.filled else 0.0)
      case Returned(sell, buy) => Submitted(LegOk(size, sell), LegOk(size, buy), sell.filled, buy.filled)
  }

  /** What an attempt goes on record as, and what it says was traded; a leg is complete from 99.9% of the size on. */
  lemma AttemptRecords(size: real, env: CloseEnv, there: bool)
    ensures var a, asked := AttemptOf(size, env, there), env.venuesPresent && there && env.quotesOk;
            && (a.VenueMissing? <==> !env.venuesPresent) && (a.InventoryMissing? <==> env.venuesPresent && !there)
            && (a.QuoteFailed? <==> env.venuesPresent && there && !env.quotesOk)
            && (a.Submitted? <==> asked && env.submission.Returned?) && (a.SubmitRaised? <==> asked && env.submission.Raised?)
            && (a.SubmitRaised? ==> a.sold == match env.submission.soldBefore { case Some(leg) => leg.filled case None => 0.0 })
            && (a.Submitted? ==>
                  var sell, buy := env.submission.sell, env.submission.buy;
                  && a.sold == sell.filled && a.bought == buy.filled
                  && (a.spotOk <==> sell.terminalFill && 1000.0 * sell.filled >= 999.0 * size)
                  && (a.perpOk <==> buy.terminalFill && 1000.0 * buy.filled >= 999.0 * size))
            && (StatusAfter(a) == Closed <==> a.Submitted? && a.spotOk && a.perpOk)
            && (StatusAfter(a) == Closing <==> a.SubmitRaised? || (a.Submitted? && a.spotOk != a.perpOk))
  {
  }

  /** The simulator never sells more than asked. */
  predicate SaneEnv(size: real, env: CloseEnv) { env.Sold().Some? ==> 0.0 <= env.Sold().value.filled <= size }

  function Without<T(==)>(s: seq<T>, x: T): seq<T> {
    if s == [] then [] else if s[0] == x then s[1..] else [s[0]] + Without(s[1..], x)
  }

  ghost predicate Distinct<T>(s: seq<T>) { forall i, j | 0 <= i < j < |s| :: s[i] != s[j] }

  lemma {:induction false} WithoutSound<T>(s: seq<T>, x: T)
    requires Distinct(s)
    ensures Distinct(Without(s, x))
    ensures forall y :: y in Without(s, x) <==> y in s && y != x
  {
    if s != [] {
      assert s == [s[0]] + s[1..];
      assert s[0] !in s[1..];
      assert Distinct(s[1..]);
      if s[0] != x { WithoutSound(s[1..], x); }
    }
  }

  lemma CloseIdInjective(a: string, b: string)
    requires CloseId(a) == CloseId(b)
    ensures a == b
  {
    assert CloseId(a)[6..] == a && CloseId(b)[6..] == b;
  }

  /** A position never sends an order again once one of its attempts filled a leg to 99.9% or got lost. */
  lemma NothingAfterAFullLeg(attempts: seq<Attempt>, i: nat)
    requires OneShot(attempts) && i < |attempts| && !Retryable(attempts[i])
    ensures i == |attempts| - 1 && StatusOf(attempts) != Open
    ensures StatusOf(attempts) == Closed <==> attempts[i].Complete()
  {
  }

  /**
   * A first attempt leaves the position open with a next order that can sell, or buy back, more than the position if and
   * only if the attempt traded something there and neither leg filled to 99.9%.
   */
  lemma OvertradesNextIff(size: real, sell: Leg, buy: Leg, side: Walking.Side)
    requires size > 0.0 && 0.0 <= sell.filled <= size && 0.0 <= buy.filled <= size
    ensures var a := Submitted(LegOk(size, sell), LegOk(size, buy), sell.filled, buy.filled);
            && StatusAfter(a).Open?
            && (exists b: Attempt | 0.0 <= b.Traded(side) <= size :: TotalTraded([a] + [b], side) > size)
            <==>
            (if side.Sell? then sell.filled else buy.filled) > 0.0 && !LegOk(size, sell) && !LegOk(size, buy)
  {
    var a := Submitted(LegOk(size, sell), LegOk(size, buy), sell.filled, buy.filled);
    assert NothingTraded([a], side) <==> [a][0].Traded(side) == 0.0;
    assert TradesWithin([a], side, size);
    NextOrderSafeIff([a], side, size);
  }

  /** The reservations while a close is under way: with its own one if the inventory view covers it. */
  function WithCloseReservation(lines: map<(string, string), real>, rs: seq<Inventories.Reservation>, pos: Position): seq<Inventories.Reservation> {
    var needs := [Inventories.Need(pos.entry.base, pos.entry.size)];
    if Inventories.Covered(lines, rs, needs) then Inventories.Put(rs, Inventories.Reservation(CloseId(pos.id), needs)) else rs
  }

  /** Dropping the close's own reservation restores the reservations, granted or not. */
  lemma GivenBack(lines: map<(string, string), real>, rs: seq<Inventories.Reservation>, pos: Position)
    requires Inventories.UniqueIds(rs) && !Inventories.Holds(rs, CloseId(pos.id))
    ensures Inventories.Drop(WithCloseReservation(lines, rs, pos), CloseId(pos.id)) == rs
    ensures forall id :: id != CloseId(pos.id) ==>
              (Inventories.Holds(WithCloseReservation(lines, rs, pos), id) <==> Inventories.Holds(rs, id))
  {
    var r := Inventories.Reservation(CloseId(pos.id), [Inventories.Need(pos.entry.base, pos.entry.size)]);
    Inventories.DropUndoesPut(rs, r);
    Inventories.DropIds(rs, CloseId(pos.id));
    Inventories.PutIds(rs, r);
  }

  ghost predicate AnyGlobal(bs: seq<Breakers.Breaker>) { exists i | 0 <= i < |bs| :: bs[i].scope == "global" }

  /** Tripping a breaker of another scope makes nothing global. */
  lemma TrippedScopes(bs: seq<Breakers.Breaker>, b: Breakers.Breaker)
    requires b.scope != "global"
    ensures AnyGlobal(Breakers.Tripped(bs, b)) <==> AnyGlobal(bs)
  {
    var t := Breakers.Tripped(bs, b);
    var i := Breakers.Find(bs, b.Key());
    assert forall k | 0 <= k < |bs| :: t[k].scope == bs[k].scope;
    if i == |bs| { assert t == bs + [b]; }
  }

  lemma OtherCloseIds(pos: Position, all: set<Position>)
    requires pos in all && forall p, q | p in all && q in all && p != q :: p.id != q.id
    ensures forall p | p in all && p != pos :: CloseId(p.id) != CloseId(pos.id)
  {
    forall p | p in all && p != pos
      ensures CloseId(p.id) != CloseId(pos.id)
    {
      if CloseId(p.id) == CloseId(pos.id) { CloseIdInjective(p.id, pos.id); }
    }
  }

  const CARRY_SCOPE := "strategy:carry"

  function CarryBreaker(reason: Breakers.BreakerReason, detail: string, nowMs: int): Breakers.Breaker {
    Breakers.Breaker(reason, detail, CARRY_SCOPE, true, nowMs)
  }

  function IncompleteClose(nowMs: int): Breakers.Breaker {
    CarryBreaker(Breakers.PositionDiscrepancy, "carry close incomplete", nowMs)
  }

  /** A trip for carry trades leaves a breaker of that scope and reason on, and an incomplete close is one. */
  lemma CarryBreakerIsOn(bs: seq<Breakers.Breaker>, reason: Breakers.BreakerReason, detail: string, nowMs: int)
    ensures exists b | b in Breakers.Tripped(bs, CarryBreaker(reason, detail, nowMs)) ::
              b.scope == "strategy:carry" && b.reason == reason && b.detail == detail
    ensures IncompleteClose(nowMs) == CarryBreaker(Breakers.PositionDiscrepancy, "carry close incomplete", nowMs)
  {
    hide Breakers.ReasonName;
    var new_ := CarryBreaker(reason, detail, nowMs);
    var i, after := Breakers.Find(bs, new_.Key()), Breakers.Tripped(bs, new_);
    if i < |bs| {
      Breakers.KeyInjective(bs[i].scope, bs[i].reason, new_.scope, reason);
      assert after[i] in after;
    } else {
      assert after[|bs|] == new_;
    }
  }

  /** What a spot sale earns after its fee; an order that filled nothing is not settled. */
  function Proceeds(sold: Option<Leg>): real {
    if sold.Some? && sold.value.filled > 0.0 then sold.value.filled * sold.value.avgPrice - sold.value.feeQuote else 0.0
  }

  /** The perpetual account after a buy-back. */
  function BoughtBack(m: Ledgers.Margin, buy: Leg): Ledgers.Margin {
    if buy.filled > 0.0 then Ledgers.ClosedShort(m, buy.filled * buy.avgPrice, buy.feeQuote) else m
  }

  /** An order that filled nothing settles nothing, fee included; any other pays its fills less its fee. */
  lemma OnlyFillsSettle(leg: Leg, m: Ledgers.Margin)
    ensures Proceeds(None) == 0.0
    ensures leg.filled <= 0.0 ==> Proceeds(Some(leg)) == 0.0 && BoughtBack(m, leg) == m
    ensures leg.filled > 0.0 ==>
              && Proceeds(Some(leg)) == leg.filled * leg.avgPrice - leg.feeQuote
              && BoughtBack(m, leg).Worth() == m.Worth() - leg.filled * leg.avgPrice - leg.feeQuote
  {
  }

  /** The spot base account after an attempt: what was sold is gone; an exception keeps the unsold part reserved. */
  function BaseAfter(was: Ledgers.Account, size: real, a: Attempt): Ledgers.Account {
    if a.SubmitRaised? then Ledgers.Account(was.free - size, was.used + size - a.sold)
    else Ledgers.Account(was.free - a.Traded(Walking.Sell), was.used)
  }

  /** What submitting makes of the held base: the sale is paid from it and the rest released unless an exception escapes. */
  function SubmittedBase(held: Ledgers.Account, size: real, env: CloseEnv): Ledgers.Account {
    if !env.quotesOk then Ledgers.Released(held, Max(0.0, size - 0.0))
    else
      var paid := if env.Sold().Some? && env.Sold().value.filled > 0.0 then Ledgers.SoldReserved(held, env.Sold().value.filled) else held;
      if env.submission.Raised? then paid else Ledgers.Released(paid, Max(0.0, size - env.submission.sell.filled))
  }

  /** Nothing is lost or made: what an attempt sells is what the account's total loses. */
  lemma SalesAccounted(was: Ledgers.Account, size: real, env: CloseEnv, there: bool)
    ensures var a := AttemptOf(size, env, there);
            && BaseAfter(was, size, a).Total() == was.Total() - a.Traded(Walking.Sell)
            && (was.used >= 0.0 && SaneEnv(size, env) && size > 0.0 ==> BaseAfter(was, size, a).used >= 0.0)
  {
    hide LegOk;
  }

  function Credited(was: Ledgers.Account, amount: real): Ledgers.Account { was.(free := was.free + amount) }

  /** Reserving and submitting together leave exactly the account of the attempt, unless the reservation is refused. */
  lemma SubmittedIsBaseAfter(was: Ledgers.Account, size: real, env: CloseEnv)
    requires was.used >= 0.0 && size > 0.0 && SaneEnv(size, env) && env.venuesPresent
    ensures SubmittedBase(Ledgers.Held(was, size), size, env) == BaseAfter(was, size, AttemptOf(size, env, true))
  {
    hide LegOk;
  }

  /** Realised profit at the fills of both closing legs, all fees included. */
  function RealizedNet(e: Entry, funding: real, sell: Leg, buy: Leg): real {
    Net(e, sell.avgPrice, buy.avgPrice, funding, e.fees + sell.feeQuote + buy.feeQuote)
  }

  // --- the exit conditions without percentages of a mark ---------------------------------------------

  /** The perpetual is above the spot price by at most `pct` percent of it; 0 where there is no spot price. */
  predicate BasisWithin(spot: real, perp: real, pct: real) {
    if spot > 0.0 then 100.0 * (perp - spot) <= pct * spot else 0.0 <= pct
  }

  /** The price has come within `pct` percent of where a short from `entry` is liquidated. */
  predicate NearTo(entry: real, perp: real, pct: real) {
    if perp > 0.0 then 190.0 * entry < (100.0 + pct) * perp else 0.0 < pct
  }

  lemma BasisWithinIff(spot: real, perp: real, pct: real)
    ensures (if spot > 0.0 then (perp - spot) / spot * 100.0 else 0.0) <= pct <==> BasisWithin(spot, perp, pct)
  {
    if spot > 0.0 {
      var q := (perp - spot) / spot;
      assert q * spot == perp - spot;
      ScaledCompare(q * 100.0, pct, spot);
      assert q * 100.0 * spot == 100.0 * (perp - spot);
    }
  }

  lemma NearToIff(entry: real, perp: real, pct: real)
    ensures LiquidationPct(entry, perp) < pct <==> NearTo(entry, perp, pct)
  {
    if perp > 0.0 { LiquidationExitIff(entry, perp, pct); }
  }

  lemma HoursIff(ms: int, hours: int)
    ensures ms as real / 3600000.0 >= hours as real <==> ms >= hours * 3600000
  {
    assert ms as real / 3600000.0 * 3600000.0 == ms as real;
    assert hours as real * 3600000.0 == (hours * 3600000) as real;
  }

  class PositionManager {
    const inventory: Inventories.InventoryManager
    const ledger: Ledgers.PaperLedger
    const breakers: Breakers.CircuitBreakerManager
    const simulated: bool
    const policy: CarryPolicy
    var open: seq<Position>
    var bookedNetUsd: real
    ghost var ever: set<Position>

    /** Open are exactly the positions never closed; no open one holds a closing reservation. */
    ghost predicate Valid()
      reads this, ever, inventory, breakers, breakers.repo
    {
      && inventory.Valid() && breakers.Valid() && policy.fundingIntervalMs > 0
      && (forall p | p in ever :: p.Valid() && (p in open <==> !p.status.Closed?))
      && (forall p | p in open :: p in ever) && Distinct(open)
      && (forall p, q | p in ever && q in ever && p != q :: p.id != q.id)
      && (forall p | p in ever && p.status.Open? :: !Inventories.Holds(inventory.reservations, CloseId(p.id)))
    }

    constructor (inventory: Inventories.InventoryManager, ledger: Ledgers.PaperLedger, breakers: Breakers.CircuitBreakerManager,
                 simulated: bool, policy: CarryPolicy)
      requires inventory.Valid() && breakers.Valid() && policy.fundingIntervalMs > 0
      ensures Valid() && open == [] && ever == {}
      ensures this.inventory == inventory && this.ledger == ledger && this.breakers == breakers
    {
      this.inventory, this.ledger, this.breakers, this.simulated, this.policy := inventory, ledger, breakers, simulated, policy;
      open, bookedNetUsd, ever := [], 0.0, {};
    }

    /** The perpetual venue's quote account and collateral bucket. */
    ghost function PerpMargin(pos: Position): Ledgers.Margin
      reads ledger
    {
      Ledgers.Margin(ledger.Get(pos.entry.perp), ledger.Get(Ledgers.Collateral(pos.entry.perp)))
    }

    ghost predicate InventoryThere(pos: Position)
      reads ledger
    {
      simulated ==> pos.entry.size <= ledger.Get(pos.entry.base).free
    }

    /** Releases what a closing attempt reserved, the unsold part of it in the paper ledger. */
    method ReleaseClose(pos: Position, sold: real)
      requires inventory.Valid() && pos.entry.Apart()
      modifies inventory`reservations, ledger
      ensures inventory.Valid() && inventory.reservations == Inventories.Drop(old(inventory.reservations), CloseId(pos.id))
      ensures simulated ==>
                && ledger.Get(pos.entry.base) ==
                   Ledgers.Released(old(ledger.Get(pos.entry.base)), Max(0.0, pos.entry.size - sold))
                && ledger.Get(pos.entry.quote) == old(ledger.Get(pos.entry.quote)) && PerpMargin(pos) == old(PerpMargin(pos))
      ensures !simulated ==> ledger.accounts == old(ledger.accounts)
    {
      inventory.Release(CloseId(pos.id));
      if simulated { ledger.Release(pos.entry.base, Max(0.0, pos.entry.size - sold)); }
    }

    /** The simulator books a sale on the ledger; a real venue does not touch it. */
    method BookSale(pos: Position, sold: Option<Leg>)
      requires pos.entry.Apart()
      modifies ledger
      ensures simulated ==>
                && ledger.Get(pos.entry.base) ==
                   (if sold.Some? && sold.value.filled > 0.0
                    then Ledgers.SoldReserved(old(ledger.Get(pos.entry.base)), sold.value.filled) else old(ledger.Get(pos.entry.base)))
                && ledger.Get(pos.entry.quote) == Credited(old(ledger.Get(pos.entry.quote)), Proceeds(sold))
                && PerpMargin(pos) == old(PerpMargin(pos))
      ensures !simulated || sold.None? ==> ledger.accounts == old(ledger.accounts)
    {
      if simulated && sold.Some? && sold.value.filled > 0.0 {
        ledger.SettleFill(pos.entry.base, pos.entry.quote, Walking.Sell, sold.value.filled,
                          sold.value.filled * sold.value.avgPrice, sold.value.feeQuote, true);
      }
    }

    /** Likewise for the buy-back, on the account of the perpetual venue. */
    method BookBuyBack(pos: Position, buy: Leg)
      requires pos.entry.Apart()
      modifies ledger
      ensures simulated ==> PerpMargin(pos) == BoughtBack(old(PerpMargin(pos)), buy)
      ensures ledger.Get(pos.entry.base) == old(ledger.Get(pos.entry.base))
      ensures ledger.Get(pos.entry.quote) == old(ledger.Get(pos.entry.quote))
      ensures !simulated ==> ledger.accounts == old(ledger.accounts)
    {
      if simulated && buy.filled > 0.0 {
        ledger.SettlePerp(pos.entry.perp, Walking.Buy, buy.filled * buy.avgPrice, buy.feeQuote, true);
      }
    }

    /**
     * Holds what the close will sell. An inventory that refuses is only logged; a paper ledger that refuses ends the
     * attempt.
     */
    method ReserveClose(pos: Position) returns (ok: bool)
      requires inventory.Valid() && !Inventories.Holds(inventory.reservations, CloseId(pos.id))
      requires pos.entry.Apart()
      modifies inventory`reservations, ledger
      ensures inventory.Valid() && ok == old(InventoryThere(pos))
      ensures !ok ==> inventory.reservations == old(inventory.reservations)
      ensures ok ==> inventory.reservations == WithCloseReservation(old(inventory.lines), old(inventory.reservations), pos)
      ensures simulated ==>
                ledger.Get(pos.entry.base) ==
                if ok then Ledgers.Held(old(ledger.Get(pos.entry.base)), pos.entry.size) else old(ledger.Get(pos.entry.base))
      ensures ledger.Get(pos.entry.quote) == old(ledger.Get(pos.entry.quote)) && PerpMargin(pos) == old(PerpMargin(pos))
      ensures !simulated ==> ledger.accounts == old(ledger.accounts)
    {
      var needs := [Inventories.Need(pos.entry.base, pos.entry.size)];
      var granted := inventory.Reserve(CloseId(pos.id), needs);
      if simulated {
        ok := ledger.Reserve(pos.entry.base, pos.entry.size);
        if !ok {
          Inventories.DropUndoesPut(old(inventory.reservations), Inventories.Reservation(CloseId(pos.id), needs));
          Inventories.DropIds(old(inventory.reservations), CloseId(pos.id));
          inventory.Release(CloseId(pos.id));
          return false;
        }
      }
      return true;
    }

    twostate predicate Settled(pos: Position, sell: Leg, buy: Leg, reason: ExitReason, nowMs: int, r: CloseResult)
      reads this, pos, breakers
    {
      && pos.status == StatusAfter(Submitted(LegOk(pos.entry.size, sell), LegOk(pos.entry.size, buy), sell.filled, buy.filled))
      && (if pos.status.Closed? then
            var net := RealizedNet(pos.entry, pos.fundingCollected, sell, buy);
            && r == Complete(net) && pos.realizedNet == Some(net) && bookedNetUsd == old(bookedNetUsd) + net
            && pos.exitPrices == Some((sell.avgPrice, buy.avgPrice)) && pos.exitReason == Some(reason)
            && pos.fees == pos.entry.fees + sell.feeQuote + buy.feeQuote
            && open == Without(old(open), pos) && breakers.active == old(breakers.active)
          else
            && r == (if pos.status.Open? then NoLeg else OneLeg)
            && open == old(open) && bookedNetUsd == old(bookedNetUsd)
            && pos.fees == old(pos.fees) && pos.realizedNet == old(pos.realizedNet) && pos.exitPrices == old(pos.exitPrices)
            && breakers.active == Breakers.Tripped(old(breakers.active), IncompleteClose(nowMs)))
    }

    /** Both legs have answered: book the close, or note what is left open. */
    method Settle(pos: Position, sell: Leg, buy: Leg, reason: ExitReason, nowMs: int) returns (r: CloseResult)
      requires pos.fees == pos.entry.fees && breakers.Valid() && Distinct(open)
      modifies this`open, this`bookedNetUsd, pos`status, pos`fees, pos`realizedNet, pos`exitPrices, pos`exitReason
      modifies breakers, breakers.repo`rows
      ensures breakers.Valid()
      ensures Settled(pos, sell, buy, reason, nowMs, r)
    {
      hide SpotPnl, PerpPnl, Breakers.Tripped;
      var spotOk, perpOk := LegOk(pos.entry.size, sell), LegOk(pos.entry.size, buy);
      if spotOk && perpOk {
        var fees := pos.fees + sell.feeQuote + buy.feeQuote;
        var net := SpotPnl(pos.entry, sell.avgPrice) + PerpPnl(pos.entry, buy.avgPrice) + pos.fundingCollected - fees;
        pos.status, pos.exitReason, pos.exitPrices := Closed, Some(reason), Some((sell.avgPrice, buy.avgPrice));
        pos.realizedNet, pos.fees := Some(net), fees;
        bookedNetUsd := bookedNetUsd + net;
        open := Without(open, pos);
        r := Complete(net);
      } else {
        pos.status := if !(spotOk || perpOk) then Open else Closing;
        var _ := breakers.Trip(Breakers.PositionDiscrepancy, "carry close incomplete", CARRY_SCOPE, true, nowMs);
        r := if spotOk != perpOk then OneLeg else NoLeg;
      }
    }

    /**
     * What one closing attempt `a` leaves behind, in the position, the reservations, the paper ledger, the books and
     * the breakers. Every return path gives back the reservation; only an exception from submitting an order keeps it.
     */
    twostate predicate Attempted(pos: Position, env: CloseEnv, reason: ExitReason, nowMs: int, r: CloseResult, a: Attempt)
      reads this, pos, inventory, ledger, breakers
    {
      && a == AttemptOf(pos.entry.size, env, old(InventoryThere(pos)))
      && pos.status == StatusAfter(a)
      && open == (if a.Complete() then Without(old(open), pos) else old(open))
      && inventory.reservations == (if a.SubmitRaised? then WithCloseReservation(inventory.lines, old(inventory.reservations), pos)
                                    else old(inventory.reservations))
      && (simulated && old(ledger.Get(pos.entry.base)).used >= 0.0 && SaneEnv(pos.entry.size, env) ==>
           ledger.Get(pos.entry.base) == BaseAfter(old(ledger.Get(pos.entry.base)), pos.entry.size, a))
      && (simulated ==>
           ledger.Get(pos.entry.quote) ==
           Credited(old(ledger.Get(pos.entry.quote)), if a.Submitted? || a.SubmitRaised? then Proceeds(env.Sold()) else 0.0))
      && (simulated ==>
           PerpMargin(pos) == (if a.Submitted? && env.submission.Returned? then BoughtBack(old(PerpMargin(pos)), env.submission.buy)
                               else old(PerpMargin(pos))))
      && (if a.Complete() && env.submission.Returned? then
            var sell, buy := env.submission.sell, env.submission.buy;
            var net := RealizedNet(pos.entry, pos.fundingCollected, sell, buy);
            && r == Complete(net) && pos.realizedNet == Some(net) && bookedNetUsd == old(bookedNetUsd) + net
            && pos.exitPrices == Some((sell.avgPrice, buy.avgPrice)) && pos.exitReason == Some(reason)
            && pos.fees == pos.entry.fees + sell.feeQuote + buy.feeQuote
            && breakers.active == old(breakers.active)
          else
            && r == (if a.SubmitRaised? then Propagated else if !a.Submitted? then NotSubmitted
                     else if a.spotOk || a.perpOk then OneLeg else NoLeg)
            && pos.realizedNet == old(pos.realizedNet) && pos.exitPrices == old(pos.exitPrices) && pos.fees == old(pos.fees)
            && bookedNetUsd == old(bookedNetUsd)
            && breakers.active == (if a.Submitted? then Breakers.Tripped(old(breakers.active), IncompleteClose(nowMs))
                                   else old(breakers.active)))
    }

    /** Quotes, orders and bookkeeping, once the base is held. */
    method SubmitClose(pos: Position, env: CloseEnv, reason: ExitReason, nowMs: int) returns (r: CloseResult)
      requires inventory.Valid() && breakers.Valid() && Distinct(open)
      requires pos.fees == pos.entry.fees && pos.entry.Apart() && pos.status.Closing?
      modifies this`open, this`bookedNetUsd, inventory`reservations, ledger, breakers, breakers.repo`rows
      modifies pos`status, pos`fees, pos`realizedNet, pos`exitPrices, pos`exitReason
      ensures inventory.Valid() && breakers.Valid()
      ensures env.quotesOk && env.submission.Returned? ==>
                Settled(pos, env.submission.sell, env.submission.buy, reason, nowMs, r)
      ensures !(env.quotesOk && env.submission.Returned?) ==>
                && r == (if env.quotesOk then Propagated else NotSubmitted)
                && pos.status == (if env.quotesOk then Closing else Open)
                && pos.realizedNet == old(pos.realizedNet) && pos.exitPrices == old(pos.exitPrices) && pos.fees == old(pos.fees)
                && bookedNetUsd == old(bookedNetUsd) && open == old(open) && breakers.active == old(breakers.active)
      ensures inventory.reservations ==
              if env.quotesOk && env.submission.Raised? then old(inventory.reservations)
              else Inventories.Drop(old(inventory.reservations), CloseId(pos.id))
      ensures simulated ==> ledger.Get(pos.entry.base) == SubmittedBase(old(ledger.Get(pos.entry.base)), pos.entry.size, env)
      ensures simulated ==>
                ledger.Get(pos.entry.quote) ==
                Credited(old(ledger.Get(pos.entry.quote)), if env.quotesOk then Proceeds(env.Sold()) else 0.0)
      ensures simulated ==>
                PerpMargin(pos) == (if env.quotesOk && env.submission.Returned? then BoughtBack(old(PerpMargin(pos)), env.submission.buy)
                                    else old(PerpMargin(pos)))
    {
      hide LegOk, RealizedNet, Breakers.Tripped, Ledgers.Released, Ledgers.SoldReserved,
        Ledgers.Lookup, Without, Inventories.Drop, Inventories.Holds, Position.FundingValid;
      if !env.quotesOk {
        ReleaseClose(pos, 0.0);
        pos.status := Open;
        return NotSubmitted;
      }
      BookSale(pos, env.Sold());
      if env.submission.Raised? { return Propagated; }
      BookBuyBack(pos, env.submission.buy);
      ReleaseClose(pos, env.submission.sell.filled);
      r := Settle(pos, env.submission.sell, env.submission.buy, reason, nowMs);
    }

    /** The steps of a closing attempt, in their order. */
    method TryClose(pos: Position, env: CloseEnv, reason: ExitReason, nowMs: int) returns (r: CloseResult, ghost a: Attempt)
      requires inventory.Valid() && breakers.Valid() && Distinct(open)
      requires pos.Valid() && pos.status.Open?
      requires !Inventories.Holds(inventory.reservations, CloseId(pos.id))
      modifies this`open, this`bookedNetUsd, inventory`reservations, ledger, breakers, breakers.repo`rows
      modifies pos`status, pos`fees, pos`realizedNet, pos`exitPrices, pos`exitReason
      ensures inventory.Valid() && breakers.Valid() && Attempted(pos, env, reason, nowMs, r, a)
    {
      hide LegOk, RealizedNet, Breakers.Tripped, Net, WithCloseReservation, Ledgers.Held, Ledgers.Released, Ledgers.SoldReserved,
        Ledgers.Lookup, Without, Inventories.Holds, Position.FundingValid, OneShot, StatusOf;
      a := AttemptOf(pos.entry.size, env, InventoryThere(pos));
      ghost var rs := inventory.reservations;
      ghost var account := ledger.Get(pos.entry.base);
      pos.status := Closing;
      if !env.venuesPresent {
        pos.status := Open;
        return NotSubmitted, a;
      }
      var held := ReserveClose(pos);
      if !held {
        pos.status := Open;
        return NotSubmitted, a;
      }
      GivenBack(inventory.lines, rs, pos);
      if account.used >= 0.0 && SaneEnv(pos.entry.size, env) { SubmittedIsBaseAfter(account, pos.entry.size, env); }
      r := SubmitClose(pos, env, reason, nowMs);
    }

    method CloseAndLog(pos: Position, env: CloseEnv, reason: ExitReason, nowMs: int) returns (r: CloseResult, ghost a: Attempt)
      requires inventory.Valid() && breakers.Valid() && Distinct(open)
      requires pos.Valid() && pos.status.Open?
      requires !Inventories.Holds(inventory.reservations, CloseId(pos.id))
      modifies this`open, this`bookedNetUsd, inventory`reservations, ledger, breakers, breakers.repo`rows
      modifies pos`status, pos`attempts, pos`fees, pos`realizedNet, pos`exitPrices, pos`exitReason
      ensures inventory.Valid() && breakers.Valid() && Attempted(pos, env, reason, nowMs, r, a)
      ensures pos.Valid() && pos.attempts == old(pos.attempts) + [a]
    {
      hide LegOk, Breakers.Tripped, Net, WithCloseReservation, Ledgers.Lookup, Without, Inventories.Holds, Position.FundingValid,
        OneShot, StatusOf, BaseAfter, Credited, Proceeds, BoughtBack, SaneEnv, Distinct, PerpMargin, InventoryThere;
      r, a := TryClose(pos, env, reason, nowMs);
      NextAttempt(pos.attempts, a, Walking.Sell);
      pos.attempts := pos.attempts + [a];
    }

    /**
     * One closing attempt. Callers pass open positions only; the position leaves exactly when both legs fill. Over all
     * attempts the base in the ledger and the base sold add up to the same amount, whatever an attempt ran into.
     */
    method Close(pos: Position, env: CloseEnv, reason: ExitReason, nowMs: int) returns (r: CloseResult, ghost a: Attempt)
      requires Valid() && pos in open && pos.status.Open?
      modifies this`open, this`bookedNetUsd, inventory`reservations, ledger, breakers, breakers.repo`rows
      modifies pos`status, pos`attempts, pos`fees, pos`realizedNet, pos`exitPrices, pos`exitReason
      ensures Valid() && Attempted(pos, env, reason, nowMs, r, a) && pos.attempts == old(pos.attempts) + [a]
      ensures pos !in open <==> a.Complete()
      ensures simulated && old(ledger.Get(pos.entry.base)).used >= 0.0 && SaneEnv(pos.entry.size, env) ==>
                && ledger.Get(pos.entry.base).used >= 0.0
                && ledger.Get(pos.entry.base).Total() + TotalTraded(pos.attempts, Walking.Sell) ==
                   old(ledger.Get(pos.entry.base).Total() + TotalTraded(pos.attempts, Walking.Sell))
      ensures AnyGlobal(breakers.active) == old(AnyGlobal(breakers.active))
    {
      hide LegOk, Breakers.Tripped, RealizedNet, WithCloseReservation, Ledgers.Lookup, Without, Inventories.Holds, AttemptOf, Position.FundingValid,
        TotalTraded, BaseAfter, Credited, Proceeds, BoughtBack, SaneEnv, PerpMargin;
      GivenBack(inventory.lines, inventory.reservations, pos);
      OtherCloseIds(pos, ever);
      TrippedScopes(breakers.active, IncompleteClose(nowMs));
      NextAttempt(pos.attempts, AttemptOf(pos.entry.size, env, InventoryThere(pos)), Walking.Sell);
      SalesAccounted(ledger.Get(pos.entry.base), pos.entry.size, env, InventoryThere(pos));
      r, a := CloseAndLog(pos, env, reason, nowMs);
      WithoutSound(old(open), pos);
    }

    // --- passes over all positions ---------------------------------------------------------------

    /** Why a monitoring pass would close a position; an emergency stop or a global breaker suspends automatic exits. */
    function Wanted(pos: Position, prices: Prices, stopped: bool, tripped: bool, nowMs: int): (r: Option<ExitReason>)
      reads pos
      ensures (stopped && !policy.flattenOnEmergencyStop) || (!stopped && tripped) ==> r.None?
    {
      if stopped then (if policy.flattenOnEmergencyStop then Some(Flatten) else None)
      else if tripped then None
      else ExitRule(policy, pos.MarkAt(prices, nowMs), pos.negativeStreak, pos.entryBasisPct)
    }

    /**
     * When a pass closes a position by itself, and why: five conditions on prices, funding streak and clock, of which the
     * first that holds is the reason.
     */
    lemma WantedIs(pos: Position, prices: Prices, stopped: bool, tripped: bool, nowMs: int)
      ensures var spot := if prices.spotBid.Some? && prices.spotBid.value != 0.0 then prices.spotBid.value else pos.entry.spotPrice;
              var perp := if prices.perpAsk.Some? && prices.perpAsk.value != 0.0 then prices.perpAsk.value else pos.entry.perpPrice;
              Wanted(pos, prices, stopped, tripped, nowMs) ==
                if stopped then (if policy.flattenOnEmergencyStop then Some(Flatten) else None)
                else if tripped then None
                else if BasisWithin(spot, perp, policy.exitBasisPct) then Some(Converged)
                else if pos.negativeStreak >= policy.fundingFlipPeriods then Some(FundingNegative)
                else if nowMs - pos.openedAtMs >= policy.maxHoldHours * 3600000 then Some(HeldTooLong)
                else if NearTo(pos.entry.perpPrice, perp, policy.minLiquidationDistancePct) then Some(NearLiquidation)
                else if !BasisWithin(spot, perp, policy.maxBasisWideningPct + pos.entryBasisPct) then Some(BasisWidened)
                else None
    {
      var m := pos.MarkAt(prices, nowMs);
      BasisWithinIff(m.spotPrice, m.perpPrice, policy.exitBasisPct);
      BasisWithinIff(m.spotPrice, m.perpPrice, policy.maxBasisWideningPct + pos.entryBasisPct);
      NearToIff(pos.entry.perpPrice, m.perpPrice, policy.minLiquidationDistancePct);
      HoursIff(nowMs - pos.openedAtMs, policy.maxHoldHours);
      hide BasisWithin, NearTo, Net, LiquidationPct;
    }

    /** No order was sent for the position. */
    twostate predicate LeftAlone(pos: Position)
      reads pos
    {
      pos.attempts == old(pos.attempts) && pos.status == old(pos.status)
    }

    /** Exactly one closing attempt was made. */
    twostate predicate TriedOnce(pos: Position)
      reads pos
    {
      |pos.attempts| == |old(pos.attempts)| + 1 && pos.attempts[..|old(pos.attempts)|] == old(pos.attempts)
    }

    twostate predicate FundingKept(pos: Position)
      reads pos
    {
      pos.fundingCollected == old(pos.fundingCollected) && pos.settled == old(pos.settled)
    }

    /** Whether a pass would send orders for a position. */
    predicate WantsExit(pos: Position, prices: Prices, stopped: bool, tripped: bool, nowMs: int)
      reads pos
    {
      pos.status.Open? && Wanted(pos, prices, stopped, tripped, nowMs).Some?
    }

    /** What a pass does to a position: one attempt if it was due, and never anything to its funding. */
    twostate predicate Handled(pos: Position, due: bool)
      reads pos
    {
      FundingKept(pos) && (if due then TriedOnce(pos) else LeftAlone(pos))
    }

    method CloseIf(pos: Position, reason: Option<ExitReason>, env: CloseEnv, nowMs: int) returns (raised: bool)
      requires Valid() && pos in ever
      modifies this`open, this`bookedNetUsd, inventory`reservations, ledger, breakers, breakers.repo`rows, pos
      ensures Valid() && Handled(pos, old(pos.status.Open?) && reason.Some?)
      ensures AnyGlobal(breakers.active) == old(AnyGlobal(breakers.active))
    {
      raised := false;
      if pos.status.Open? && reason.Some? {
        OpenIsListed(pos);
        var r, _ := Close(pos, env, reason.value, nowMs);
        raised := r.Propagated?;
      }
    }

    lemma Listed()
      requires Valid()
      ensures Distinct(open) && policy.fundingIntervalMs > 0 && forall p | p in open :: p in ever
    {
    }

    lemma SizePositive(pos: Position)
      requires Valid() && pos in open
      ensures pos.entry.size > 0.0
    {
    }

    lemma OpenIsListed(pos: Position)
      requires Valid() && pos in ever
      ensures pos in open <==> !pos.status.Closed?
    {
    }

    /**
     * One monitoring pass: open positions that are due to exit are tried once, all others are left alone, closing
     * ones above all. An exception ends the pass.
     */
    method Monitor(prices: string -> Prices, envs: string -> CloseEnv, stopped: bool, nowMs: int)
      returns (raised: bool, ghost reached: nat)
      requires Valid()
      modifies this`open, this`bookedNetUsd, inventory`reservations, ledger, breakers, breakers.repo`rows, open
      ensures Valid() && reached <= |old(open)| && (!raised ==> reached == |old(open)|)
      ensures forall k | 0 <= k < reached ::
                Handled(old(open)[k], old(WantsExit(open[k], prices(open[k].id), stopped, AnyGlobal(breakers.active), nowMs)))
      ensures forall k | reached <= k < |old(open)| :: unchanged(old(open)[k])
    {
      hide Valid, Wanted;
      Listed();
      var all := open;
      var tripped := breakers.IsTripped("global");
      assert tripped == AnyGlobal(breakers.active);
      raised := false;
      var i := 0;
      while i < |all| && !raised
        invariant 0 <= i <= |all| && Valid() && AnyGlobal(breakers.active) == tripped
        invariant forall k | i <= k < |all| :: unchanged(all[k]) && all[k] in ever
        invariant forall k | 0 <= k < i :: Handled(all[k], old(WantsExit(all[k], prices(all[k].id), stopped, tripped, nowMs)))
      {
        var pos := all[i];
        assert breakers.IsTripped("global") == AnyGlobal(breakers.active);
        raised := CloseIf(pos, Wanted(pos, prices(pos.id), stopped, breakers.IsTripped("global"), nowMs), envs(pos.id), nowMs);
        i := i + 1;
      }
      reached := i;
    }

    /** Closes every open position, under a stop or breaker too; closing ones are left alone. */
    method CloseAll(reason: string, envs: string -> CloseEnv, nowMs: int) returns (raised: bool, ghost reached: nat)
      requires Valid()
      modifies this`open, this`bookedNetUsd, inventory`reservations, ledger, breakers, breakers.repo`rows, open
      ensures Valid() && reached <= |old(open)| && (!raised ==> reached == |old(open)|)
      ensures forall k | 0 <= k < reached :: Handled(old(open)[k], old(open[k].status.Open?))
      ensures forall k | reached <= k < |old(open)| :: unchanged(old(open)[k])
    {
      hide Valid;
      Listed();
      var all := open;
      raised := false;
      var i := 0;
      while i < |all| && !raised
        invariant 0 <= i <= |all| && Valid()
        invariant forall k | i <= k < |all| :: unchanged(all[k]) && all[k] in ever
        invariant forall k | 0 <= k < i :: Handled(all[k], old(all[k].status.Open?))
      {
        raised := CloseIf(all[i], Some(Requested(reason)), envs(all[i].id), nowMs);
        i := i + 1;
      }
      reached := i;
    }

    // --- funding and opening -----------------------------------------------------------------------

    predicate Anomalous(rate: Option<real>) { rate.Some? && Abs(rate.value) > policy.maxAbsFundingRate }

    method NoteAnomaly(rate: Option<real>, nowMs: int) returns (anomalous: bool)
      requires Valid()
      modifies breakers, breakers.repo`rows
      ensures Valid() && anomalous == Anomalous(rate)
      ensures anomalous <==> rate.Some? && (rate.value > policy.maxAbsFundingRate || rate.value < -policy.maxAbsFundingRate)
      ensures breakers.active ==
              if anomalous then Breakers.Tripped(old(breakers.active), CarryBreaker(Breakers.FundingAnomaly, "funding rate", nowMs))
              else old(breakers.active)
    {
      hide Position.Valid, Inventories.Holds, Breakers.Tripped;
      anomalous := Anomalous(rate);
      if anomalous { var _ := breakers.Trip(Breakers.FundingAnomaly, "funding rate", CARRY_SCOPE, true, nowMs); }
    }

    predicate Due(pos: Position, answer: RateAnswer, checkMs: int)
      reads pos
    {
      pos.status.Open? && checkMs - pos.LastSettlement() >= pos.intervalMs && answer.Answered?
    }

    method AccrueOne(pos: Position, answer: RateAnswer, prices: Prices, checkMs: int, settleMs: int) returns (done: bool)
      requires Valid() && pos in ever && checkMs <= settleMs
      modifies pos`fundingCollected, pos`periods, pos`negativeStreak, pos`settled, pos`lastFundingMs, pos`settleTimes
      modifies breakers, breakers.repo`rows
      ensures Valid() && done == old(Due(pos, answer, checkMs))
      ensures !done ==> unchanged(pos)
      ensures done ==> pos.settleTimes == old(pos.settleTimes) + [settleMs]
      ensures done && answer.rate.Some? ==>
                pos.settled == old(pos.settled) + [Period(settleMs, answer.rate.value, Payment(pos.entry, answer.rate.value, prices))]
    {
      hide Payment, Position.Valid, Inventories.Holds;
      if !pos.status.Open? { return false; }
      done := pos.AccrueIfDue(answer, prices, checkMs, settleMs);
      if done { var _ := NoteAnomaly(answer.rate, settleMs); }
    }

    /** One more settlement if it was due, nothing at all otherwise. */
    twostate predicate Accrued(pos: Position, due: bool, settleMs: int)
      reads pos
    {
      if due then pos.settleTimes == old(pos.settleTimes) + [settleMs] else unchanged(pos)
    }

    function Count(due: seq<bool>): nat {
      if due == [] then 0 else Count(due[..|due|-1]) + (if due[|due|-1] then 1 else 0)
    }

    /** Settles every open position whose next settlement is due and whose rate provider answers; counts them. */
    method AccrueDueFunding(answers: string -> RateAnswer, prices: string -> Prices, check: string -> int, settle: string -> int)
      returns (n: nat, ghost due: seq<bool>)
      requires Valid() && forall p | p in open :: check(p.id) <= settle(p.id)
      modifies breakers, breakers.repo`rows, open
      ensures Valid() && open == old(open) && |due| == |open| && n == Count(due)
      ensures forall k | 0 <= k < |open| :: due[k] == old(Due(open[k], answers(open[k].id), check(open[k].id)))
      ensures forall k | 0 <= k < |open| :: Accrued(open[k], due[k], settle(open[k].id))
    {
      hide Valid, Due, Position.Valid;
      Listed();
      var all := open;
      n, due := 0, [];
      var i := 0;
      while i < |all|
        invariant 0 <= i <= |all| && Valid() && |due| == i && n == Count(due)
        invariant forall k | i <= k < |all| :: unchanged(all[k])
        invariant forall k | 0 <= k < i :: due[k] == old(Due(all[k], answers(all[k].id), check(all[k].id)))
        invariant forall k | 0 <= k < i :: Accrued(all[k], due[k], settle(all[k].id))
      {
        var pos := all[i];
        var done := AccrueOne(pos, answers(pos.id), prices(pos.id), check(pos.id), settle(pos.id));
        if done { n := n + 1; }
        assert (due + [done])[..i] == due;
        due := due + [done];
        i := i + 1;
      }
    }

    /** Only a fully filled pair becomes a position, and only when the funding rate is not anomalous. */
    method OpenFromOpportunity(rate: Option<real>, filled: Option<Entry>, id: string, nowMs: int) returns (pos: Option<Position>)
      requires Valid() && nowMs >= 0
      requires filled.Some? ==> filled.value.size > 0.0 && filled.value.Apart()
      requires (forall p | p in ever :: p.id != id) && !Inventories.Holds(inventory.reservations, CloseId(id))
      modifies this`open, this`ever, breakers, breakers.repo`rows
      ensures Valid()
      ensures pos.Some? <==> filled.Some? && !Anomalous(rate)
      ensures pos.None? ==> open == old(open) && ever == old(ever)
      ensures pos.Some? ==> fresh(pos.value) && open == old(open) + [pos.value] && ever == old(ever) + {pos.value}
      ensures pos.Some? ==> pos.value.entry == filled.value && pos.value.id == id && pos.value.status.Open?
      ensures Anomalous(rate) ==>
                breakers.active == Breakers.Tripped(old(breakers.active), CarryBreaker(Breakers.FundingAnomaly, "funding rate", nowMs))
    {
      hide Valid, Position.Valid, Inventories.Holds, Breakers.Tripped;
      Listed();
      var anomalous := NoteAnomaly(rate, nowMs);
      if anomalous || filled.None? { return None; }
      var p := new Position(id, filled.value, nowMs, policy.fundingIntervalMs);
      Register(p);
      return Some(p);
    }

    method Register(p: Position)
      requires Valid() && p.Valid() && p.status.Open? && p !in ever
      requires (forall q | q in ever :: q.id != p.id) && !Inventories.Holds(inventory.reservations, CloseId(p.id))
      modifies this`open, this`ever
      ensures Valid() && open == old(open) + [p] && ever == old(ever) + {p}
    {
      hide Position.Valid, Inventories.Holds;
      open := open + [p];
      ever := ever + {p};
    }
  }

  /** A close that fills the fraction `part` of both legs. */
  function CloseFilling(part: real, size: real, price: real): CloseEnv {
    var leg := Leg(part == 1.0, part * size, price, 0.0);
    CloseEnv(true, true, Returned(leg, leg))
  }

  lemma TwoCloses(size: real, price: real, there: bool)
    requires size > 0.0
    ensures SaneEnv(size, CloseFilling(0.6, size, price)) && SaneEnv(size, CloseFilling(1.0, size, price))
    ensures AttemptOf(size, CloseFilling(0.6, size, price), true) == Submitted(false, false, 0.6 * size, 0.6 * size)
    ensures AttemptOf(size, CloseFilling(1.0, size, price), there) ==
            if there then Submitted(true, true, size, size) else InventoryMissing
  {
  }

  /** The perpetual account, its bucket counted twice, loses what is paid for a buy-back; the bucket is empty then. */
  lemma BuyBackCosts(m: Ledgers.Margin, part: real, size: real, price: real)
    requires part * size > 0.0
    ensures var after := BoughtBack(m, Leg(part == 1.0, part * size, price, 0.0));
            after.collateral.free == 0.0 && after.Worth() == m.Worth() - part * (size * price)
  {
    assert part * size * price == part * (size * price);
  }

  /**
   * The simulator fills 60% of one order in twenty. If it does so on both legs, the position is open again at its full
   * size: the next close takes 1.6 times the size from the base account and pays for 1.6 times the size on the perpetual
   * one, or it is refused where less base is left.
   */
  method TradesTwice(m: PositionManager, pos: Position, price: real, nowMs: int)
    requires m.Valid() && m.simulated && pos in m.open && pos.status.Open?
    requires m.ledger.Get(pos.entry.base).used >= 0.0 && m.ledger.Get(pos.entry.base).free >= pos.entry.size
    modifies m`open, m`bookedNetUsd, m.inventory`reservations, m.ledger, m.breakers, m.breakers.repo`rows
    modifies pos`status, pos`attempts, pos`fees, pos`realizedNet, pos`exitPrices, pos`exitReason
    ensures m.Valid()
    ensures pos.status == if old(m.ledger.Get(pos.entry.base)).free >= 1.6 * pos.entry.size then Closed else Open
    ensures TotalTraded(pos.attempts, Walking.Sell)
            == old(TotalTraded(pos.attempts, Walking.Sell)) + (if pos.status.Closed? then 1.6 else 0.6) * pos.entry.size
    ensures TotalTraded(pos.attempts, Walking.Buy)
            == old(TotalTraded(pos.attempts, Walking.Buy)) + (if pos.status.Closed? then 1.6 else 0.6) * pos.entry.size
    ensures m.ledger.Get(pos.entry.base).Total() + TotalTraded(pos.attempts, Walking.Sell)
            == old(m.ledger.Get(pos.entry.base).Total() + TotalTraded(pos.attempts, Walking.Sell))
    ensures m.PerpMargin(pos).collateral.free == 0.0
    ensures m.PerpMargin(pos).Worth()
            == old(m.PerpMargin(pos).Worth()) - (if pos.status.Closed? then 1.6 else 0.6) * (pos.entry.size * price)
  {
    hide LegOk, SaneEnv, AttemptOf, RealizedNet, Proceeds, BoughtBack, TotalTraded, Without, WithCloseReservation,
      Breakers.Tripped, Ledgers.Lookup, PositionManager.Valid, Position.Valid, Ledgers.Margin.Worth;
    var size := pos.entry.size;
    ghost var before, margin := pos.attempts, m.PerpMargin(pos);
    m.SizePositive(pos);
    TwoCloses(size, price, m.ledger.Get(pos.entry.base).free - 0.6 * size >= size);
    BuyBackCosts(margin, 0.6, size, price);
    var _, a := m.Close(pos, CloseFilling(0.6, size, price), Requested("close"), nowMs);
    ghost var between, margin' := pos.attempts, m.PerpMargin(pos);
    BuyBackCosts(margin', 1.0, size, price);
    m.SizePositive(pos);
    var _, b := m.Close(pos, CloseFilling(1.0, size, price), Requested("close"), nowMs);
    NextAttempt(before, a, Walking.Sell);
    NextAttempt(before, a, Walking.Buy);
    NextAttempt(between, b, Walking.Sell);
    NextAttempt(between, b, Walking.Buy);
  }

  /**
   * A close that fills both legs books a profit as if each had filled whole. The ledger earned, entry costs and funding
   * aside, as much on both venues, less what was not filled, plus whatever the bucket held beyond the entry notional. So
   * for whole fills the two agree if and only if the bucket held the entry of this position and of no other.
   */
  lemma BookedIsEarnedIff(e: Entry, funding: real, sell: Leg, buy: Leg, quote: Ledgers.Account, perp: Ledgers.Margin)
    requires sell.filled > 0.0 && buy.filled > 0.0
    ensures var spot := Credited(quote, Proceeds(Some(sell))).Total() - quote.Total() - e.spotPrice * e.size;
            var short := BoughtBack(perp, buy).Total() - perp.Total();
            var booked := RealizedNet(e, funding, sell, buy) + e.fees - funding;
            && spot + short - booked ==
               (perp.collateral.free - e.perpPrice * e.size) - (e.size - sell.filled) * sell.avgPrice + (e.size - buy.filled) * buy.avgPrice
            && (sell.filled == buy.filled == e.size ==> (spot + short == booked <==> perp.collateral.free == e.perpPrice * e.size))
  {
    assert (sell.avgPrice - e.spotPrice) * e.size == e.size * sell.avgPrice - e.spotPrice * e.size;
    assert (e.perpPrice - buy.avgPrice) * e.size == e.perpPrice * e.size - e.size * buy.avgPrice;
  }
}
