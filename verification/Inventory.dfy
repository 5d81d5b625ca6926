/** INVENTORY: balances per venue and asset, and the reservations trades hold against them. */
module Inventories {
  import opened Money

  /** A venue or chain, and an asset. */
  type Key = (string, string)

  datatype Need = Need(key: Key, amount: real)

  datatype Reservation = Reservation(id: string, needs: seq<Need>)

  function Sum(needs: seq<Need>, key: Key): real {
    if needs == [] then 0.0 else (if needs[0].key == key then needs[0].amount else 0.0) + Sum(needs[1..], key)
  }

  /** Everything reserved for one key. */
  function Reserved(rs: seq<Reservation>, key: Key): real {
    if rs == [] then 0.0 else Sum(rs[0].needs, key) + Reserved(rs[1..], key)
  }

  function Balance(lines: map<Key, real>, key: Key): real { if key in lines then lines[key] else 0.0 }

  function Available(lines: map<Key, real>, rs: seq<Reservation>, key: Key): real {
    if key in lines then Max(0.0, lines[key] - Reserved(rs, key)) else 0.0
  }

  // --- reservations as an ordered dictionary --------------------------------------------------

  ghost predicate UniqueIds(rs: seq<Reservation>) {
    forall i, j | 0 <= i < j < |rs| :: rs[i].id != rs[j].id
  }

  predicate Holds(rs: seq<Reservation>, id: string) { exists i | 0 <= i < |rs| :: rs[i].id == id }

  function Put(rs: seq<Reservation>, r: Reservation): seq<Reservation> {
    if rs == [] then [r]
    else if rs[0].id == r.id then [r] + rs[1..]
    else [rs[0]] + Put(rs[1..], r)
  }

  function Drop(rs: seq<Reservation>, id: string): seq<Reservation> {
    if rs == [] then []
    else if rs[0].id == id then rs[1..]
    else [rs[0]] + Drop(rs[1..], id)
  }

  lemma {:induction false} PutIds(rs: seq<Reservation>, r: Reservation)
    requires UniqueIds(rs)
    ensures UniqueIds(Put(rs, r)) && Holds(Put(rs, r), r.id)
    ensures forall id :: Holds(Put(rs, r), id) <==> Holds(rs, id) || id == r.id
  {
    if rs == [] {
      assert Put(rs, r)[0] == r;
    } else if rs[0].id == r.id {
      var p := [r] + rs[1..];
      assert p[0].id == r.id && forall k | 1 <= k < |p| :: p[k] == rs[k];
      forall id ensures Holds(p, id) <==> Holds(rs, id) {
        if Holds(rs, id) { var k :| 0 <= k < |rs| && rs[k].id == id; assert p[k].id == id; }
      }
    } else {
      assert UniqueIds(rs[1..]);
      PutIds(rs[1..], r);
      ConsIds(rs[0], rs[1..]);
      ConsIds(rs[0], Put(rs[1..], r));
      assert rs == [rs[0]] + rs[1..];
      assert !Holds(rs[1..], rs[0].id);
    }
  }

  lemma ConsIds(r: Reservation, rs: seq<Reservation>)
    ensures forall id :: Holds([r] + rs, id) <==> r.id == id || Holds(rs, id)
    ensures UniqueIds(rs) && !Holds(rs, r.id) ==> UniqueIds([r] + rs)
  {
    var all := [r] + rs;
    assert forall k | 0 <= k < |rs| :: all[k+1] == rs[k];
    forall id ensures Holds(all, id) <==> r.id == id || Holds(rs, id) {
      if r.id == id { assert all[0].id == id; }
      if Holds(rs, id) { var k :| 0 <= k < |rs| && rs[k].id == id; assert all[k+1].id == id; }
    }
  }

  lemma {:induction false} DropIds(rs: seq<Reservation>, id: string)
    requires UniqueIds(rs)
    ensures UniqueIds(Drop(rs, id))
    ensures forall other :: Holds(Drop(rs, id), other) <==> Holds(rs, other) && other != id
    ensures !Holds(rs, id) ==> Drop(rs, id) == rs
  {
    if rs != [] {
      assert rs == [rs[0]] + rs[1..];
      assert UniqueIds(rs[1..]);
      ConsIds(rs[0], rs[1..]);
      assert !Holds(rs[1..], rs[0].id);
      if rs[0].id != id {
        DropIds(rs[1..], id);
        ConsIds(rs[0], Drop(rs[1..], id));
      }
    }
  }

  /** Reserving under a fresh id and releasing it leaves the reservations as they were. */
  lemma {:induction false} DropUndoesPut(rs: seq<Reservation>, r: Reservation)
    requires !Holds(rs, r.id)
    ensures Drop(Put(rs, r), r.id) == rs
  {
    if rs == [] {
      assert Put(rs, r)[1..] == [];
    } else {
      assert rs == [rs[0]] + rs[1..];
      ConsIds(rs[0], rs[1..]);
      DropUndoesPut(rs[1..], r);
      assert ([rs[0]] + Put(rs[1..], r))[1..] == Put(rs[1..], r);
    }
  }

  // --- totals ------------------------------------------------------------------------------------

  ghost predicate NonNegative(needs: seq<Need>) { forall i | 0 <= i < |needs| :: needs[i].amount >= 0.0 }

  ghost predicate AllNonNegative(rs: seq<Reservation>) { forall i | 0 <= i < |rs| :: NonNegative(rs[i].needs) }

  ghost predicate DistinctKeys(needs: seq<Need>) {
    forall i, j | 0 <= i < j < |needs| :: needs[i].key != needs[j].key
  }

  lemma {:induction false} SumNonNegative(needs: seq<Need>, key: Key)
    requires NonNegative(needs)
    ensures Sum(needs, key) >= 0.0
  {
    if needs != [] { SumNonNegative(needs[1..], key); }
  }

  lemma {:induction false} ReservedNonNegative(rs: seq<Reservation>, key: Key)
    requires AllNonNegative(rs)
    ensures Reserved(rs, key) >= 0.0
  {
    if rs != [] {
      SumNonNegative(rs[0].needs, key);
      ReservedNonNegative(rs[1..], key);
    }
  }

  lemma {:induction false} SumAbsent(needs: seq<Need>, key: Key)
    requires forall i | 0 <= i < |needs| :: needs[i].key != key
    ensures Sum(needs, key) == 0.0
  {
    if needs != [] { SumAbsent(needs[1..], key); }
  }

  /** With distinct keys the sum for a key is the one amount asked for it. */
  lemma {:induction false} SumDistinct(needs: seq<Need>, i: nat)
    requires DistinctKeys(needs) && i < |needs|
    ensures Sum(needs, needs[i].key) == needs[i].amount
  {
    if i == 0 {
      assert forall j | 0 <= j < |needs[1..]| :: needs[1..][j] == needs[j+1];
      SumAbsent(needs[1..], needs[0].key);
    } else {
      assert DistinctKeys(needs[1..]);
      SumDistinct(needs[1..], i - 1);
    }
  }

  /** A new or replaced reservation contributes its own sum, whatever its id held before. */
  lemma {:induction false} ReservedPut(rs: seq<Reservation>, r: Reservation, key: Key)
    ensures Reserved(Put(rs, r), key) == Reserved(Drop(rs, r.id), key) + Sum(r.needs, key)
  {
    if rs == [] {
      assert [r][1..] == [];
    } else if rs[0].id == r.id {
      assert ([r] + rs[1..])[1..] == rs[1..];
    } else {
      ReservedPut(rs[1..], r, key);
      assert ([rs[0]] + Put(rs[1..], r))[1..] == Put(rs[1..], r);
      assert ([rs[0]] + Drop(rs[1..], r.id))[1..] == Drop(rs[1..], r.id);
    }
  }

  lemma {:induction false} ReservedDrop(rs: seq<Reservation>, id: string, key: Key)
    requires AllNonNegative(rs)
    ensures AllNonNegative(Drop(rs, id)) && Reserved(Drop(rs, id), key) <= Reserved(rs, key)
  {
    if rs != [] {
      if rs[0].id == id {
        SumNonNegative(rs[0].needs, key);
      } else {
        ReservedDrop(rs[1..], id, key);
        var d := Drop(rs[1..], id);
        assert ([rs[0]] + d)[1..] == d;
        assert forall k | 1 <= k < |[rs[0]] + d| :: ([rs[0]] + d)[k] == d[k-1];
      }
    }
  }

  lemma {:induction false} PutNonNegative(rs: seq<Reservation>, r: Reservation)
    requires AllNonNegative(rs) && NonNegative(r.needs)
    ensures AllNonNegative(Put(rs, r))
  {
    if rs != [] && rs[0].id != r.id {
      PutNonNegative(rs[1..], r);
      var p := Put(rs[1..], r);
      assert forall k | 1 <= k < |[rs[0]] + p| :: ([rs[0]] + p)[k] == p[k-1];
    }
  }

  // --- the manager -------------------------------------------------------------------------------

  predicate Covered(lines: map<Key, real>, rs: seq<Reservation>, needs: seq<Need>) {
    forall i | 0 <= i < |needs| :: needs[i].amount <= Available(lines, rs, needs[i].key)
  }

  /** A positive amount is covered where the balance exceeds what is reserved by at least that; nothing always is. */
  lemma CoveredIff(lines: map<Key, real>, rs: seq<Reservation>, needs: seq<Need>)
    ensures Covered(lines, rs, needs) <==>
              forall n | n in needs :: n.amount <= 0.0 || (n.key in lines && Reserved(rs, n.key) + n.amount <= lines[n.key])
  {
    hide Reserved;
    if Covered(lines, rs, needs) {
      forall n | n in needs
        ensures n.amount <= 0.0 || (n.key in lines && Reserved(rs, n.key) + n.amount <= lines[n.key])
      {
        var i :| 0 <= i < |needs| && needs[i] == n;
        assert needs[i].amount <= Available(lines, rs, needs[i].key);
      }
    }
  }

  class InventoryManager {
    var lines: map<Key, real>
    var reservations: seq<Reservation>

    ghost predicate Valid()
      reads this
    {
      UniqueIds(reservations)
    }

    constructor ()
      ensures Valid() && lines == map[] && reservations == []
    {
      lines, reservations := map[], [];
    }

    /** The latest balances of one venue replace all its lines; reservations stay. */
    method UpdateBalances(venue: string, free: map<string, real>)
      modifies this`lines
      ensures forall key: Key :: key in lines <==> if key.0 == venue then key.1 in free else key in old(lines)
      ensures forall key: Key | key in lines :: lines[key] == if key.0 == venue then free[key.1] else old(lines)[key]
    {
      ghost var before := lines;
      var pending := free.Keys;
      while pending != {}
        invariant pending <= free.Keys
        invariant forall key: Key :: key in lines <==> key in before || (key.0 == venue && key.1 in free && key.1 !in pending)
        invariant forall key: Key | key in lines ::
                    lines[key] == if key.0 == venue && key.1 in free && key.1 !in pending then free[key.1] else before[key]
        decreases |pending|
      {
        var a :| a in pending;
        lines := lines[(venue, a) := free[a]];
        pending := pending - {a};
      }
      lines := map key | key in lines && (key.0 != venue || key.1 in free) :: lines[key];
    }

    /** Every need is checked on its own; the whole request is refused at the first one that is not covered. */
    method Reserve(id: string, needs: seq<Need>) returns (ok: bool)
      requires Valid()
      modifies this`reservations
      ensures Valid()
      ensures ok <==> Covered(lines, old(reservations), needs)
      ensures reservations == if ok then Put(old(reservations), Reservation(id, needs)) else old(reservations)
    {
      var i := 0;
      while i < |needs|
        invariant 0 <= i <= |needs|
        invariant forall k | 0 <= k < i :: needs[k].amount <= Available(lines, reservations, needs[k].key)
      {
        if Available(lines, reservations, needs[i].key) < needs[i].amount { return false; }
        i := i + 1;
      }
      PutIds(reservations, Reservation(id, needs));
      reservations := Put(reservations, Reservation(id, needs));
      return true;
    }

    method Release(id: string)
      requires Valid()
      modifies this`reservations
      ensures Valid() && reservations == Drop(old(reservations), id) && !Holds(reservations, id)
    {
      DropIds(reservations, id);
      reservations := Drop(reservations, id);
    }

    /** A reservation under a fresh id that is released leaves every availability as it was. */
    method ReserveThenRelease(id: string, needs: seq<Need>) returns (ok: bool)
      requires Valid() && !Holds(reservations, id)
      modifies this`reservations
      ensures Valid() && reservations == old(reservations)
    {
      ok := Reserve(id, needs);
      DropUndoesPut(old(reservations), Reservation(id, needs));
      DropIds(old(reservations), id);
      Release(id);
    }
  }

  // --- every run between two balance refreshes ------------------------------------------------------

  datatype Op = OpReserve(id: string, needs: seq<Need>) | OpRelease(released: string)

  function Step(lines: map<Key, real>, rs: seq<Reservation>, op: Op): seq<Reservation> {
    match op
    case OpReserve(id, needs) => if Covered(lines, rs, needs) then Put(rs, Reservation(id, needs)) else rs
    case OpRelease(id) => Drop(rs, id)
  }

  function Run(lines: map<Key, real>, rs: seq<Reservation>, ops: seq<Op>): seq<Reservation> {
    if ops == [] then rs else Step(lines, Run(lines, rs, ops[..|ops|-1]), ops[|ops|-1])
  }

  /** A request that names each key once, with amounts that are not negative. */
  ghost predicate Sane(op: Op) { op.OpReserve? ==> DistinctKeys(op.needs) && NonNegative(op.needs) }

  /** The manager executes any run exactly as `Run` says. */
  method Execute(inventory: InventoryManager, ops: seq<Op>)
    requires inventory.Valid()
    modifies inventory`reservations
    ensures inventory.Valid() && inventory.reservations == Run(inventory.lines, old(inventory.reservations), ops)
  {
    ghost var start := inventory.reservations;
    var i := 0;
    while i < |ops|
      invariant 0 <= i <= |ops|
      invariant inventory.Valid() && inventory.reservations == Run(inventory.lines, start, ops[..i])
    {
      assert ops[..i+1][..i] == ops[..i];
      match ops[i] {
        case OpReserve(id, needs) => var _ := inventory.Reserve(id, needs);
        case OpRelease(id) => inventory.Release(id);
      }
      i := i + 1;
    }
    assert ops[..|ops|] == ops;
  }

  /** One successful request never lifts a key above its balance, or above what it already had reserved. */
  lemma ReserveBounded(lines: map<Key, real>, rs: seq<Reservation>, id: string, needs: seq<Need>, key: Key)
    requires AllNonNegative(rs) && NonNegative(needs) && DistinctKeys(needs) && Covered(lines, rs, needs)
    ensures Reserved(Put(rs, Reservation(id, needs)), key) <= Max(Balance(lines, key), Reserved(rs, key))
  {
    ReservedPut(rs, Reservation(id, needs), key);
    ReservedDrop(rs, id, key);
    if i: nat :| i < |needs| && needs[i].key == key {
      SumDistinct(needs, i);
      assert needs[i].amount <= Available(lines, rs, key);
    } else {
      SumAbsent(needs, key);
    }
  }

  lemma {:induction false} NeverMoreCommitted(lines: map<Key, real>, rs: seq<Reservation>, ops: seq<Op>, key: Key)
    requires AllNonNegative(rs) && forall i | 0 <= i < |ops| :: Sane(ops[i])
    ensures AllNonNegative(Run(lines, rs, ops))
    ensures Reserved(Run(lines, rs, ops), key) <= Max(Balance(lines, key), Reserved(rs, key))
  {
    if ops != [] {
      var n := |ops| - 1;
      NeverMoreCommitted(lines, rs, ops[..n], key);
      var before := Run(lines, rs, ops[..n]);
      match ops[n] {
        case OpReserve(id, needs) =>
          if Covered(lines, before, needs) {
            ReserveBounded(lines, before, id, needs, key);
            PutNonNegative(before, Reservation(id, needs));
          }
        case OpRelease(id) => ReservedDrop(before, id, key);
      }
    }
  }

  ghost predicate Committed(lines: map<Key, real>, rs: seq<Reservation>) {
    forall key: Key :: Reserved(rs, key) <= Balance(lines, key)
  }

  /** Over every run no key is over-committed, and what is available and what is reserved add up to the balance. */
  lemma NoOverCommitment(lines: map<Key, real>, rs: seq<Reservation>, ops: seq<Op>)
    requires AllNonNegative(rs) && Committed(lines, rs) && forall i | 0 <= i < |ops| :: Sane(ops[i])
    ensures Committed(lines, Run(lines, rs, ops))
    ensures forall key: Key :: Available(lines, Run(lines, rs, ops), key) + Reserved(Run(lines, rs, ops), key) == Balance(lines, key)
  {
    forall key: Key
      ensures Reserved(Run(lines, rs, ops), key) <= Balance(lines, key)
      ensures Available(lines, Run(lines, rs, ops), key) + Reserved(Run(lines, rs, ops), key) == Balance(lines, key)
    {
      NeverMoreCommitted(lines, rs, ops, key);
      ReservedNonNegative(Run(lines, rs, ops), key);
    }
  }

  /**
   * A request may name a key twice: each need is checked alone, so one that is granted keeps the balances covered
   * exactly when its sum per key fits beside the other reservations.
   */
  lemma GrantKeepsCommittedIff(lines: map<Key, real>, rs: seq<Reservation>, id: string, needs: seq<Need>)
    ensures Committed(lines, Put(rs, Reservation(id, needs))) <==>
            forall key: Key :: Sum(needs, key) <= Balance(lines, key) - Reserved(Drop(rs, id), key)
  {
    var rs' := Put(rs, Reservation(id, needs));
    forall key: Key
      ensures Reserved(rs', key) <= Balance(lines, key) <==> Sum(needs, key) <= Balance(lines, key) - Reserved(Drop(rs, id), key)
    {
      ReservedPut(rs, Reservation(id, needs), key);
    }
  }

  /** A granted request that over-commits. */
  lemma DuplicateKeysOverCommit()
    ensures var key, need := ("binance", "USDC"), Need(("binance", "USDC"), 60.0);
            var lines: map<Key, real> := map[key := 100.0];
            Covered(lines, [], [need, need]) && Reserved(Put([], Reservation("t", [need, need])), key) == 120.0
  {
    var key, need := ("binance", "USDC"), Need(("binance", "USDC"), 60.0);
    assert [need, need][1..] == [need] && [need][1..] == [];
    assert Sum([need], key) == 60.0;
    assert Sum([need, need], key) == 120.0;
    ReservedPut([], Reservation("t", [need, need]), key);
  }
}
