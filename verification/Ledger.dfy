/** The paper ledger: free and used balances, reservations, fills and perpetual collateral. */
module Ledgers {
  import opened Money
  import opened Walking

  /** A venue or chain, and an asset. */
  type Key = (string, string)

  datatype Account = Account(free: real, used: real) {
    function Total(): real { free + used }
  }

  const EMPTY := Account(0.0, 0.0)

  function Collateral(key: Key): Key { (key.0, key.1 + ":collateral") }

  // --- one account ----------------------------------------------------------------------------

  function Held(a: Account, amount: real): Account { Account(a.free - amount, a.used + amount) }

  function Released(a: Account, amount: real): Account {
    var take := Min(amount, a.used);
    Account(a.free + take, a.used - take)
  }

  /** A payment out of what was reserved for it. */
  function SoldReserved(a: Account, amount: real): Account { a.(used := Max(0.0, a.used - amount)) }

  /** A payment, reserved before or not. */
  function Paid(a: Account, amount: real, reserved: bool): Account {
    if reserved then SoldReserved(a, amount) else a.(free := a.free - amount)
  }

  /** Reserve, sell any part, release the rest: exactly the sold part is gone and nothing stays reserved for it. */
  lemma SaleConserves(a: Account, size: real, sold: real)
    requires a.used >= 0.0 && 0.0 <= sold <= size
    ensures Released(SoldReserved(Held(a, size), sold), Max(0.0, size - sold)) == Account(a.free - sold, a.used)
  {
  }

  // --- perpetual shorts -----------------------------------------------------------------------------

  /** The quote account of a venue and the collateral bucket all its shorts share. */
  datatype Margin = Margin(quote: Account, collateral: Account) {
    function Total(): real { quote.Total() + collateral.Total() }

    /** The bucket counted twice: what the account comes to once the bucket is returned with its booked profit. */
    function Worth(): real { Total() + collateral.free }
  }

  function OpenedShort(m: Margin, notional: real, fee: real): Margin {
    var moved := Min(m.quote.used, notional);
    Margin(Account(m.quote.free - (notional - moved) - fee, m.quote.used - moved),
           m.collateral.(free := m.collateral.free + notional))
  }

  /** Any buy-back returns the whole collateral bucket and books the bucket minus its own notional. */
  function ClosedShort(m: Margin, notional: real, fee: real): Margin {
    var entry := m.collateral.free;
    Margin(m.quote.(free := m.quote.free + entry + (entry - notional) - fee), m.collateral.(free := 0.0))
  }

  datatype PerpFill = Short(notional: real, fee: real) | BuyBack(notional: real, fee: real)

  function AfterFills(m: Margin, fills: seq<PerpFill>): Margin {
    if fills == [] then m
    else
      var before := AfterFills(m, fills[..|fills|-1]);
      match fills[|fills|-1]
      case Short(notional, fee) => OpenedShort(before, notional, fee)
      case BuyBack(notional, fee) => ClosedShort(before, notional, fee)
  }

  /** What fills earn together: everything sold short minus everything bought back and all fees. */
  function Earned(fills: seq<PerpFill>): real {
    if fills == [] then 0.0
    else
      Earned(fills[..|fills|-1])
      + match fills[|fills|-1]
        case Short(notional, fee) => notional - fee
        case BuyBack(notional, fee) => -notional - fee
  }

  /** Over every run of shorts and buy-backs, whole or partial, the account with the bucket counted twice gains what the fills earn. */
  lemma {:induction false} FillsConserve(m: Margin, fills: seq<PerpFill>)
    ensures AfterFills(m, fills).Worth() == m.Worth() + Earned(fills)
  {
    if fills != [] {
      FillsConserve(m, fills[..|fills|-1]);
      hide Min;
    }
  }

  /**
   * So between two states the total gains what the fills earn exactly when the bucket holds the same: only where nothing
   * is short any more do the books of the account say what was earned.
   */
  lemma TotalIsEarnedIff(m: Margin, fills: seq<PerpFill>)
    ensures AfterFills(m, fills).Total() - m.Total() == Earned(fills) <==>
            AfterFills(m, fills).collateral.free == m.collateral.free
  {
    FillsConserve(m, fills);
  }

  /**
   * A short of which a part is bought back is booked with the rest of its entry and all other shorts in the bucket as
   * profit. The gain is right, the part's own, if and only if the bucket was empty and all of the short is bought back.
   */
  lemma ShortRoundTripIff(m: Margin, entry: real, openFee: real, exit: real, closeFee: real, filled: real)
    requires m.collateral.free >= 0.0 && entry > 0.0 && 0.0 <= filled <= 1.0
    ensures var gain := ClosedShort(OpenedShort(m, entry, openFee), filled * exit, closeFee).Total() - m.Total();
            var earned := filled * (entry - exit) - openFee - closeFee;
            && gain == earned + m.collateral.free + (1.0 - filled) * entry
            && (gain == earned <==> m.collateral.free == 0.0 && filled == 1.0)
  {
    assert filled * (entry - exit) == filled * entry - filled * exit;
    assert (1.0 - filled) * entry == entry - filled * entry;
    if filled < 1.0 { MulStrict(0.0, 1.0 - filled, entry); }
  }

  /**
   * Two shorts in one bucket: closing the first books the second one's entry notional as profit too, and only
   * closing the second takes it back.
   */
  lemma SharedCollateral(m: Margin, entry1: real, entry2: real, exit1: real, exit2: real)
    requires m.collateral.free == 0.0
    ensures var one := ClosedShort(OpenedShort(OpenedShort(m, entry1, 0.0), entry2, 0.0), exit1, 0.0);
            && one.Total() - m.Total() == (entry1 - exit1) + entry2
            && ClosedShort(one, exit2, 0.0).Total() - m.Total() == (entry1 - exit1) + (entry2 - exit2)
  {
    hide OpenedShort;
    OpenKeepsTotal(m, entry1);
    OpenKeepsTotal(OpenedShort(m, entry1, 0.0), entry2);
  }

  lemma OpenKeepsTotal(m: Margin, notional: real)
    ensures OpenedShort(m, notional, 0.0).Total() == m.Total()
    ensures OpenedShort(m, notional, 0.0).collateral.free == m.collateral.free + notional
  {
  }

  /** Which balances move: what is held pays first where it was reserved, and nothing that is held goes below zero. */
  lemma MovesFrom(a: Account, amount: real, reserved: bool)
    requires a.used >= 0.0
    ensures var paid, back, left := Paid(a, amount, reserved), Released(a, amount), if amount <= a.used then a.used - amount else 0.0;
            && (if reserved then paid == Account(a.free, left) else paid == Account(a.free - amount, a.used))
            && back.Total() == a.Total() && back.used == left
  {
  }

  /** A short takes its notional from what is held, the rest and the fee from the free balance; a buy-back touches nothing held. */
  lemma ShortMoves(m: Margin, notional: real, fee: real)
    ensures var short, closed, held := OpenedShort(m, notional, fee), ClosedShort(m, notional, fee), m.quote.used;
            && short.quote.used == (if notional <= held then held - notional else 0.0)
            && short.quote.Total() == m.quote.Total() - notional - fee && short.collateral.free == m.collateral.free + notional
            && closed.quote.used == held && closed.collateral.free == 0.0
            && closed.collateral.used == m.collateral.used == short.collateral.used
  {
  }

  // --- the ledger -----------------------------------------------------------------------------------

  function Lookup(accounts: map<Key, Account>, key: Key): Account { if key in accounts then accounts[key] else EMPTY }

  /** Every account but these is what it was. */
  ghost predicate OnlyChanged(before: map<Key, Account>, after: map<Key, Account>, keys: set<Key>) {
    forall key: Key | key !in keys :: Lookup(after, key) == Lookup(before, key)
  }

  class PaperLedger {
    var accounts: map<Key, Account>

    constructor ()
      ensures accounts == map[]
    {
      accounts := map[];
    }

    function Get(key: Key): Account
      reads this
    {
      Lookup(accounts, key)
    }

    method Adjust(key: Key, delta: real, allowNegative: bool) returns (ok: bool)
      modifies this
      ensures ok <==> allowNegative || old(Get(key)).free + delta >= 0.0
      ensures Get(key) == if ok then old(Get(key)).(free := old(Get(key)).free + delta) else old(Get(key))
      ensures OnlyChanged(old(accounts), accounts, {key})
    {
      var a := Get(key);
      accounts := accounts[key := a];
      if a.free + delta < 0.0 && !allowNegative { return false; }
      accounts := accounts[key := a.(free := a.free + delta)];
      return true;
    }

    method ChargeGas(key: Key, amount: real)
      modifies this
      ensures Get(key) == old(Get(key)).(free := old(Get(key)).free - amount) && OnlyChanged(old(accounts), accounts, {key})
    {
      var a := Get(key);
      accounts := accounts[key := a.(free := a.free - amount)];
    }

    method Reserve(key: Key, amount: real) returns (ok: bool)
      modifies this
      ensures ok <==> amount <= old(Get(key)).free
      ensures Get(key) == if ok then Held(old(Get(key)), amount) else old(Get(key))
      ensures OnlyChanged(old(accounts), accounts, {key})
    {
      var a := Get(key);
      accounts := accounts[key := a];
      if a.free < amount { return false; }
      a := a.(free := a.free - amount);
      a := a.(used := a.used + amount);
      accounts := accounts[key := a];
      return true;
    }

    method Release(key: Key, amount: real)
      modifies this
      ensures Get(key) == Released(old(Get(key)), amount) && OnlyChanged(old(accounts), accounts, {key})
    {
      var a := Get(key);
      var take := if amount <= a.used then amount else a.used;
      a := a.(used := a.used - take);
      a := a.(free := a.free + take);
      accounts := accounts[key := a];
    }

    /** A fill: a purchase pays quote and fee for base, a sale the opposite. */
    method SettleFill(base: Key, quote: Key, side: Side, baseAmount: real, quoteAmount: real, feeQuote: real, reserved: bool)
      requires base != quote
      modifies this
      ensures OnlyChanged(old(accounts), accounts, {base, quote})
      ensures side.Buy? ==>
                && Get(quote) == Paid(old(Get(quote)), quoteAmount + feeQuote, reserved)
                && Get(base) == old(Get(base)).(free := old(Get(base)).free + baseAmount)
      ensures side.Sell? ==>
                && Get(base) == Paid(old(Get(base)), baseAmount, reserved)
                && Get(quote) == old(Get(quote)).(free := old(Get(quote)).free + quoteAmount - feeQuote)
    {
      var b, q := Get(base), Get(quote);
      if side.Buy? {
        var cost := quoteAmount + feeQuote;
        if reserved { q := q.(used := Max(0.0, q.used - cost)); } else { q := q.(free := q.free - cost); }
        b := b.(free := b.free + baseAmount);
      } else {
        if reserved { b := b.(used := Max(0.0, b.used - baseAmount)); } else { b := b.(free := b.free - baseAmount); }
        q := q.(free := q.free + (quoteAmount - feeQuote));
      }
      accounts := accounts[base := b][quote := q];
    }

    method SettlePerp(quote: Key, side: Side, notional: real, feeQuote: real, reduceOnly: bool)
      modifies this
      ensures OnlyChanged(old(accounts), accounts, {quote, Collateral(quote)})
      ensures Margin(Get(quote), Get(Collateral(quote))) ==
              var before := Margin(old(Get(quote)), old(Get(Collateral(quote))));
              if side.Sell? && !reduceOnly then OpenedShort(before, notional, feeQuote) else ClosedShort(before, notional, feeQuote)
    {
      var b, c := Get(quote), Get(Collateral(quote));
      assert |Collateral(quote).1| > |quote.1|;
      if side.Sell? && !reduceOnly {
        var moved := Min(b.used, notional);
        b := b.(used := b.used - moved);
        b := b.(free := b.free - ((notional - moved) + feeQuote));
        c := c.(free := c.free + notional);
      } else {
        var entry := c.free;
        c := c.(free := 0.0);
        b := b.(free := b.free + (entry + (entry - notional) - feeQuote));
      }
      accounts := accounts[quote := b][Collateral(quote) := c];
    }
  }

  /**
   * One short alone in its bucket, 1 at 100, of which the simulator buys back 60% at 90: the account shows a gain of 46
   * where 6 were earned, and nothing is left in the bucket for the 40% still short.
   */
  method PartialBuyBack(ledger: PaperLedger, quote: Key)
    requires ledger.Get(Collateral(quote)).free == 0.0
    modifies ledger
    ensures ledger.Get(Collateral(quote)).free == 0.0
    ensures Margin(ledger.Get(quote), ledger.Get(Collateral(quote))).Total()
            == old(Margin(ledger.Get(quote), ledger.Get(Collateral(quote))).Total()) + 46.0
  {
    ledger.SettlePerp(quote, Sell, 100.0, 0.0, false);
    ledger.SettlePerp(quote, Buy, 0.6 * 90.0, 0.0, true);
  }
}
