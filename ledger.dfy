/** The cash ledger of one live poker game: players, their buy-ins, the pot
    recomputed from them, and the proportional cash-out settlement of
    src/components/GameLedger.tsx. */
module GameLedger {
  import opened Wrappers
  import opened Text

  /** One player at the table. `buyIns` lists the amounts paid in, in order;
      `totalBuyIn` is the player's current stake, `cashout` the amount taken
      out when the player cashed out. */
  datatype Player = Player(
    id: string,
    name: string,
    buyIns: seq<real>,
    totalBuyIn: real,
    isActive: bool,
    cashout: Option<real>)

  // ---------------------------------------------------------------------
  // Sums, folded from the left like `reduce((sum, x) => sum + x, 0)`

  function Sum(xs: seq<real>): real
  {
    if xs == [] then 0.0 else Sum(xs[..|xs| - 1]) + xs[|xs| - 1]
  }

  lemma {:induction false} SumAppend(a: seq<real>, b: seq<real>)
    ensures Sum(a + b) == Sum(a) + Sum(b)
  {
    if b == [] {
      assert a + b == a;
    } else {
      SumAppend(a, b[..|b| - 1]);
      assert (a + b)[..|a + b| - 1] == a + b[..|b| - 1];
    }
  }

  lemma {:induction false} SumNonNegative(xs: seq<real>)
    requires forall i :: 0 <= i < |xs| ==> xs[i] >= 0.0
    ensures Sum(xs) >= 0.0
  {
    if xs != [] {
      SumNonNegative(xs[..|xs| - 1]);
    }
  }

  /** Every entry multiplied by `k`, as `buyIns.map(b => b * k)`. */
  function Scaled(xs: seq<real>, k: real): (r: seq<real>)
    ensures |r| == |xs| && forall i :: 0 <= i < |xs| ==> r[i] == xs[i] * k
  {
    seq(|xs|, i requires 0 <= i < |xs| => xs[i] * k)
  }

  /** Scaling every buy-in scales their sum by the same factor. */
  lemma {:induction false} SumScaled(xs: seq<real>, k: real)
    ensures Sum(Scaled(xs, k)) == Sum(xs) * k
  {
    if xs != [] {
      var n := |xs|;
      assert Scaled(xs, k)[..n - 1] == Scaled(xs[..n - 1], k) by {
        forall j | 0 <= j < n - 1 ensures Scaled(xs, k)[j] == Scaled(xs[..n - 1], k)[j] { }
      }
      SumScaled(xs[..n - 1], k);
      assert Sum(Scaled(xs, k)) == Sum(xs[..n - 1]) * k + xs[n - 1] * k;
    }
  }

  /** `totalMoneyInPlay` (GameLedger.tsx:129): the stakes of all players,
      active or not. The pot is never stored. */
  function Pot(ps: seq<Player>): real
  {
    if ps == [] then 0.0 else Pot(ps[..|ps| - 1]) + ps[|ps| - 1].totalBuyIn
  }

  lemma {:induction false} PotAppend(a: seq<Player>, b: seq<Player>)
    ensures Pot(a + b) == Pot(a) + Pot(b)
  {
    if b == [] {
      assert a + b == a;
    } else {
      PotAppend(a, b[..|b| - 1]);
      assert (a + b)[..|a + b| - 1] == a + b[..|b| - 1];
    }
  }

  /** Number of players carrying `id` (ids come from the clock and nothing
      forces them to be distinct). */
  function CountId(ps: seq<Player>, id: string): nat
  {
    if ps == [] then 0
    else CountId(ps[..|ps| - 1], id) + (if ps[|ps| - 1].id == id then 1 else 0)
  }

  /** Combined stake of the players carrying `id`. */
  function StakeOf(ps: seq<Player>, id: string): real
  {
    if ps == [] then 0.0
    else StakeOf(ps[..|ps| - 1], id) + (if ps[|ps| - 1].id == id then ps[|ps| - 1].totalBuyIn else 0.0)
  }

  /** `players.find(p => p.id === id)` finds something. */
  predicate HasPlayer(ps: seq<Player>, id: string)
  {
    exists i :: 0 <= i < |ps| && ps[i].id == id
  }

  predicate UniqueIds(ps: seq<Player>)
  {
    forall i, j :: 0 <= i < j < |ps| ==> ps[i].id != ps[j].id
  }

  /** With distinct ids, an id names exactly one player or none. */
  lemma {:induction false} CountIdUnique(ps: seq<Player>, id: string)
    requires UniqueIds(ps)
    ensures CountId(ps, id) == if HasPlayer(ps, id) then 1 else 0
  {
    if ps != [] {
      var n := |ps|;
      CountIdUnique(ps[..n - 1], id);
      if ps[n - 1].id == id {
        assert !HasPlayer(ps[..n - 1], id);
      }
      assert HasPlayer(ps, id) <==> HasPlayer(ps[..n - 1], id) || ps[n - 1].id == id;
    }
  }

  // ---------------------------------------------------------------------
  // The ledger invariant

  /** A player's stake is the sum of its buy-ins, no buy-in is negative,
      and a recorded cash-out is positive. */
  predicate PlayerOk(p: Player)
  {
    && p.totalBuyIn == Sum(p.buyIns)
    && (forall j :: 0 <= j < |p.buyIns| ==> p.buyIns[j] >= 0.0)
    && (p.cashout.Some? ==> p.cashout.value > 0.0)
  }

  predicate LedgerOk(ps: seq<Player>)
  {
    forall i :: 0 <= i < |ps| ==> PlayerOk(ps[i])
  }

  /** No stake is negative, the part of LedgerOk the pot bounds need. */
  predicate StakesOk(ps: seq<Player>)
  {
    forall i :: 0 <= i < |ps| ==> ps[i].totalBuyIn >= 0.0
  }

  lemma {:induction false} StakeNonNegative(p: Player)
    requires PlayerOk(p)
    ensures p.totalBuyIn >= 0.0
  {
    SumNonNegative(p.buyIns);
  }

  /** The pot is never negative. */
  lemma {:induction false} PotNonNegative(ps: seq<Player>)
    requires LedgerOk(ps)
    ensures Pot(ps) >= 0.0
  {
    if ps != [] {
      PotNonNegative(ps[..|ps| - 1]);
      StakeNonNegative(ps[|ps| - 1]);
    }
  }

  /** A pointwise change of stakes by `d` on the players carrying `id`
      changes the pot by `d` for each of them. */
  lemma {:induction false} PotShift(ps: seq<Player>, qs: seq<Player>, id: string, d: real)
    requires |qs| == |ps|
    requires forall i :: 0 <= i < |ps| ==>
      qs[i].totalBuyIn == ps[i].totalBuyIn + (if ps[i].id == id then d else 0.0)
    ensures Pot(qs) == Pot(ps) + d * CountId(ps, id) as real
  {
    if ps != [] {
      var n := |ps|;
      PotShift(ps[..n - 1], qs[..n - 1], id, d);
    }
  }

  // ---------------------------------------------------------------------
  // addPlayer (GameLedger.tsx:23-36)

  /** The new list after `addPlayer` with input `name`, the new player
      getting the id `id` (`Date.now().toString()` in the source). A name
      that trims to nothing is ignored; otherwise one player is appended
      with the trimmed name, no buy-ins, no stake, active and not cashed
      out. There is no check for a duplicate name. */
  function AfterAddPlayer(ps: seq<Player>, id: string, name: string): (r: seq<Player>)
    ensures AllWhitespace(name) ==> r == ps
    ensures !AllWhitespace(name) ==>
      && |r| == |ps| + 1 && r[..|ps|] == ps
      && r[|ps|] == Player(id, Trim(name), [], 0.0, true, None)
      && r[|ps|].name != [] && !IsWhitespace(r[|ps|].name[0])
  {
    if Trim(name) == [] then ps
    else ps + [Player(id, Trim(name), [], 0.0, true, None)]
  }

  /** Adding a player leaves the pot alone and keeps the invariant. */
  lemma {:induction false} AddPlayerKeepsPot(ps: seq<Player>, id: string, name: string)
    requires LedgerOk(ps)
    ensures Pot(AfterAddPlayer(ps, id, name)) == Pot(ps)
    ensures LedgerOk(AfterAddPlayer(ps, id, name))
  {
    if !AllWhitespace(name) {
      var r := AfterAddPlayer(ps, id, name);
      assert r[..|r| - 1] == ps;
    }
  }

  // ---------------------------------------------------------------------
  // addBuyIn (GameLedger.tsx:38-56)

  /** The guard of `addBuyIn`: a player is selected and the parsed amount is
      a positive number (`None` stands for NaN). */
  predicate BuyInAccepted(id: string, amount: Option<real>)
  {
    id != "" && amount.Some? && amount.value > 0.0
  }

  function WithBuyIn(p: Player, amount: real): Player
  {
    var newBuyIns := p.buyIns + [amount];
    p.(buyIns := newBuyIns, totalBuyIn := Sum(newBuyIns))
  }

  /** The new list after `addBuyIn`: each player carrying `id` gets `amount`
      appended to its buy-ins and its stake recomputed as their sum, active
      or not; everyone else is untouched. A rejected amount, an empty
      selection or an unknown id change nothing. */
  function AfterBuyIn(ps: seq<Player>, id: string, amount: Option<real>): (r: seq<Player>)
    ensures !BuyInAccepted(id, amount) || !HasPlayer(ps, id) ==> r == ps
    ensures |r| == |ps|
    ensures forall i :: 0 <= i < |ps| && ps[i].id != id ==> r[i] == ps[i]
    ensures BuyInAccepted(id, amount) ==> forall i :: 0 <= i < |ps| && ps[i].id == id ==>
      && r[i].buyIns == ps[i].buyIns + [amount.value]
      && r[i].totalBuyIn == Sum(ps[i].buyIns) + amount.value
      && r[i].id == ps[i].id && r[i].name == ps[i].name
      && r[i].isActive == ps[i].isActive && r[i].cashout == ps[i].cashout
  {
    if !BuyInAccepted(id, amount) then ps
    else
      var r := seq(|ps|, i requires 0 <= i < |ps| => if ps[i].id == id then WithBuyIn(ps[i], amount.value) else ps[i]);
      assert forall i :: 0 <= i < |ps| && ps[i].id == id ==> r[i].totalBuyIn == Sum(ps[i].buyIns) + amount.value by {
        forall i | 0 <= i < |ps| && ps[i].id == id ensures r[i].totalBuyIn == Sum(ps[i].buyIns) + amount.value {
          SumAppend(ps[i].buyIns, [amount.value]);
        }
      }
      assert !HasPlayer(ps, id) ==> r == ps;
      r
  }

  /** After an accepted buy-in, each stake under the id has grown by the
      amount and every other stake is as it was. */
  lemma {:induction false} BuyInStakes(ps: seq<Player>, id: string, amount: Option<real>)
    requires LedgerOk(ps) && BuyInAccepted(id, amount)
    ensures forall i :: 0 <= i < |ps| ==>
      AfterBuyIn(ps, id, amount)[i].totalBuyIn
        == ps[i].totalBuyIn + (if ps[i].id == id then amount.value else 0.0)
  {
    var r := AfterBuyIn(ps, id, amount);
    forall i | 0 <= i < |ps|
      ensures r[i].totalBuyIn == ps[i].totalBuyIn + (if ps[i].id == id then amount.value else 0.0)
    {
      assert PlayerOk(ps[i]);
    }
  }

  /** An accepted buy-in adds `amount` to the pot once for every player
      carrying the id. */
  lemma {:induction false} BuyInPot(ps: seq<Player>, id: string, amount: Option<real>)
    requires LedgerOk(ps) && BuyInAccepted(id, amount)
    ensures Pot(AfterBuyIn(ps, id, amount)) == Pot(ps) + amount.value * CountId(ps, id) as real
  {
    BuyInStakes(ps, id, amount);
    PotShift(ps, AfterBuyIn(ps, id, amount), id, amount.value);
  }

  /** With distinct ids, an accepted buy-in for a player in the game adds
      exactly `amount` to the pot. */
  lemma {:induction false} BuyInPotUnique(ps: seq<Player>, id: string, amount: Option<real>)
    requires LedgerOk(ps) && BuyInAccepted(id, amount) && UniqueIds(ps) && HasPlayer(ps, id)
    ensures Pot(AfterBuyIn(ps, id, amount)) == Pot(ps) + amount.value
  {
    BuyInPot(ps, id, amount);
    CountIdUnique(ps, id);
  }

  /** A buy-in keeps the ledger invariant. */
  lemma {:induction false} BuyInKeepsInvariant(ps: seq<Player>, id: string, amount: Option<real>)
    requires LedgerOk(ps)
    ensures LedgerOk(AfterBuyIn(ps, id, amount))
  {
    var r := AfterBuyIn(ps, id, amount);
    if BuyInAccepted(id, amount) {
      forall i | 0 <= i < |ps| ensures PlayerOk(r[i]) {
        if ps[i].id == id {
          assert PlayerOk(ps[i]);
          var b := r[i].buyIns;
          assert forall j :: 0 <= j < |b| ==> b[j] >= 0.0 by {
            forall j | 0 <= j < |b| ensures b[j] >= 0.0 {
              if j < |ps[i].buyIns| { assert b[j] == ps[i].buyIns[j]; }
            }
          }
        }
      }
    }
  }

  // ---------------------------------------------------------------------
  // removePlayer (GameLedger.tsx:58-60)

  /** `players.filter(p => p.id !== id)`. */
  function Removed(ps: seq<Player>, id: string): (r: seq<Player>)
    ensures |r| == |ps| - CountId(ps, id)
  {
    if ps == [] then []
    else Removed(ps[..|ps| - 1], id) + (if ps[|ps| - 1].id != id then [ps[|ps| - 1]] else [])
  }

  /** Removal keeps exactly the players with another id. */
  lemma {:induction false} RemovedMembers(ps: seq<Player>, id: string)
    ensures forall p :: p in Removed(ps, id) <==> p in ps && p.id != id
  {
    if ps != [] {
      var n := |ps|;
      RemovedMembers(ps[..n - 1], id);
      assert ps == ps[..n - 1] + [ps[n - 1]];
    }
  }

  /** Removing an id nobody carries changes nothing. */
  lemma {:induction false} RemovedAbsent(ps: seq<Player>, id: string)
    requires !HasPlayer(ps, id)
    ensures Removed(ps, id) == ps
  {
    if ps != [] {
      var n := |ps|;
      var front := ps[..n - 1];
      assert !HasPlayer(front, id) by {
        forall i | 0 <= i < n - 1 ensures front[i].id != id {
          assert front[i] == ps[i];
        }
      }
      RemovedAbsent(front, id);
      assert ps[n - 1].id != id;
      assert ps == ps[..n - 1] + [ps[n - 1]];
    }
  }

  /** The pot loses exactly the removed players' stakes: removal is not
      pot-neutral, since the pot is recomputed from the remaining players. */
  lemma {:induction false} RemovedPot(ps: seq<Player>, id: string)
    ensures Pot(Removed(ps, id)) == Pot(ps) - StakeOf(ps, id)
  {
    if ps != [] {
      var n := |ps|;
      var tail := if ps[n - 1].id != id then [ps[n - 1]] else [];
      RemovedPot(ps[..n - 1], id);
      PotAppend(Removed(ps[..n - 1], id), tail);
      assert Pot([ps[n - 1]]) == ps[n - 1].totalBuyIn by {
        assert [ps[n - 1]][..0] == [];
      }
    }
  }

  lemma {:induction false} RemovedKeepsInvariant(ps: seq<Player>, id: string)
    requires LedgerOk(ps)
    ensures LedgerOk(Removed(ps, id))
  {
    RemovedMembers(ps, id);
    var r := Removed(ps, id);
    forall i | 0 <= i < |r| ensures PlayerOk(r[i]) {
      assert r[i] in ps;
    }
  }

  lemma {:induction false} RemovedAppend(a: seq<Player>, b: seq<Player>, id: string)
    ensures Removed(a + b, id) == Removed(a, id) + Removed(b, id)
  {
    if b == [] {
      assert a + b == a;
    } else {
      RemovedAppend(a, b[..|b| - 1], id);
      assert (a + b)[..|a + b| - 1] == a + b[..|b| - 1];
    }
  }

  // ---------------------------------------------------------------------
  // togglePlayerStatus (GameLedger.tsx:62-68)

  function Toggled(p: Player): Player
  {
    p.(isActive := !p.isActive)
  }

  /** The new list after `togglePlayerStatus`: each player carrying `id`
      has `isActive` flipped, with stake, buy-ins and cash-out kept; all
      others are untouched. */
  function AfterToggle(ps: seq<Player>, id: string): (r: seq<Player>)
    ensures |r| == |ps|
    ensures forall i :: 0 <= i < |ps| ==>
      && r[i].id == ps[i].id && r[i].name == ps[i].name
      && r[i].buyIns == ps[i].buyIns && r[i].totalBuyIn == ps[i].totalBuyIn
      && r[i].cashout == ps[i].cashout
      && (r[i].isActive != ps[i].isActive <==> ps[i].id == id)
  {
    seq(|ps|, i requires 0 <= i < |ps| => if ps[i].id == id then Toggled(ps[i]) else ps[i])
  }

  /** Toggling twice restores the list; toggling keeps the pot and the
      invariant. */
  lemma {:induction false} ToggleSpec(ps: seq<Player>, id: string)
    ensures AfterToggle(AfterToggle(ps, id), id) == ps
    ensures Pot(AfterToggle(ps, id)) == Pot(ps)
    ensures LedgerOk(ps) ==> LedgerOk(AfterToggle(ps, id))
  {
    var r := AfterToggle(ps, id);
    PotShift(ps, r, id, 0.0);
    assert LedgerOk(ps) ==> forall i :: 0 <= i < |ps| ==> r[i] == ps[i].(isActive := r[i].isActive);
  }

  // ---------------------------------------------------------------------
  // activePlayers and inactivePlayers (GameLedger.tsx:130-131)

  function ActivePlayers(ps: seq<Player>): seq<Player>
  {
    if ps == [] then []
    else ActivePlayers(ps[..|ps| - 1]) + (if ps[|ps| - 1].isActive then [ps[|ps| - 1]] else [])
  }

  function InactivePlayers(ps: seq<Player>): seq<Player>
  {
    if ps == [] then []
    else InactivePlayers(ps[..|ps| - 1]) + (if !ps[|ps| - 1].isActive then [ps[|ps| - 1]] else [])
  }

  /** The active view holds exactly the active players. */
  lemma {:induction false} ActiveMembers(ps: seq<Player>)
    ensures forall p :: p in ActivePlayers(ps) <==> p in ps && p.isActive
  {
    if ps != [] {
      var n := |ps|;
      ActiveMembers(ps[..n - 1]);
      assert ps == ps[..n - 1] + [ps[n - 1]];
    }
  }

  /** The inactive view holds exactly the players that are out. */
  lemma {:induction false} InactiveMembers(ps: seq<Player>)
    ensures forall p :: p in InactivePlayers(ps) <==> p in ps && !p.isActive
  {
    if ps != [] {
      var n := |ps|;
      InactiveMembers(ps[..n - 1]);
      assert ps == ps[..n - 1] + [ps[n - 1]];
    }
  }

  /** One step of ActiveInactivePartition: if the views split all players
      but the last, they split them all. */
  lemma {:induction false} PartitionStep(ps: seq<Player>)
    requires ps != []
    requires multiset(ActivePlayers(ps[..|ps| - 1])) + multiset(InactivePlayers(ps[..|ps| - 1]))
      == multiset(ps[..|ps| - 1])
    ensures multiset(ActivePlayers(ps)) + multiset(InactivePlayers(ps)) == multiset(ps)
  {
    var front, last := ps[..|ps| - 1], ps[|ps| - 1];
    assert ps == front + [last];
  }

  /** The two views partition the list: together they hold every player
      exactly once, as many times as it occurs in the list. */
  lemma {:induction false} ActiveInactivePartition(ps: seq<Player>)
    ensures multiset(ActivePlayers(ps)) + multiset(InactivePlayers(ps)) == multiset(ps)
  {
    if ps != [] {
      ActiveInactivePartition(ps[..|ps| - 1]);
      PartitionStep(ps);
    }
  }

  /** The two views together are as long as the list. */
  lemma {:induction false} ActiveInactiveCount(ps: seq<Player>)
    ensures |ActivePlayers(ps)| + |InactivePlayers(ps)| == |ps|
  {
    if ps != [] {
      ActiveInactiveCount(ps[..|ps| - 1]);
    }
  }

  // ---------------------------------------------------------------------
  // handleCashout (GameLedger.tsx:81-127)

  /** What `handleCashout` reports. */
  datatype CashoutOutcome =
    | CashedOut
    | InvalidAmount                    // the "valid cashout amount" alert
    | NotEnoughInPot(available: real)  // the "not enough money in the pot" alert
    | UnknownPlayer                    // the silent return when find fails

  /** The checks of `handleCashout`, in the source's order: the amount must
      be a positive number, no more than the pot, and name a player. */
  function CashoutVerdict(ps: seq<Player>, id: string, amount: Option<real>): (v: CashoutOutcome)
    ensures v == CashedOut <==> amount.Some? && 0.0 < amount.value <= Pot(ps) && HasPlayer(ps, id)
    ensures v == InvalidAmount <==> amount.None? || amount.value <= 0.0
    ensures v.NotEnoughInPot? <==> amount.Some? && 0.0 < amount.value && Pot(ps) < amount.value
    ensures v.NotEnoughInPot? ==> v.available == Pot(ps)
    ensures v == UnknownPlayer <==> amount.Some? && 0.0 < amount.value <= Pot(ps) && !HasPlayer(ps, id)
  {
    if amount.None? || amount.value <= 0.0 then InvalidAmount
    else if amount.value > Pot(ps) then NotEnoughInPot(Pot(ps))
    else if !HasPlayer(ps, id) then UnknownPlayer
    else CashedOut
  }

  function Max(a: real, b: real): real
  {
    if a >= b then a else b
  }

  /** The settlement of one player when `cashingId` cashes out `amount`
      from a ledger whose stakes add up to `totalBuyIns` (line 98). */
  function SettlePlayer(p: Player, cashingId: string, amount: real, totalBuyIns: real): Player
    requires totalBuyIns > 0.0
  {
    if p.id == cashingId then
      p.(isActive := false, cashout := Some(amount))
    else if p.totalBuyIn > 0.0 then
      var proportion := p.totalBuyIn / totalBuyIns;
      var reduction := amount * proportion;
      var newTotal := Max(0.0, p.totalBuyIn - reduction);
      var scaleFactor := newTotal / p.totalBuyIn;
      p.(totalBuyIn := newTotal, buyIns := Scaled(p.buyIns, scaleFactor))
    else
      p
  }

  /** `players.map(...)` with SettlePlayer. */
  function Settled(ps: seq<Player>, cashingId: string, amount: real, totalBuyIns: real): (r: seq<Player>)
    requires totalBuyIns > 0.0
    ensures |r| == |ps|
  {
    if ps == [] then []
    else
      Settled(ps[..|ps| - 1], cashingId, amount, totalBuyIns)
      + [SettlePlayer(ps[|ps| - 1], cashingId, amount, totalBuyIns)]
  }

  lemma {:induction false} SettledAt(ps: seq<Player>, cashingId: string, amount: real, totalBuyIns: real, i: nat)
    requires totalBuyIns > 0.0 && i < |ps|
    ensures Settled(ps, cashingId, amount, totalBuyIns)[i] == SettlePlayer(ps[i], cashingId, amount, totalBuyIns)
  {
    var n := |ps|;
    if i < n - 1 {
      SettledAt(ps[..n - 1], cashingId, amount, totalBuyIns, i);
    }
  }

  /** The new list after `handleCashout`: unchanged unless the verdict is
      CashedOut; then every player is settled against the whole pot. */
  function AfterCashout(ps: seq<Player>, id: string, amount: Option<real>): (r: seq<Player>)
    ensures CashoutVerdict(ps, id, amount) != CashedOut ==> r == ps
    ensures CashoutVerdict(ps, id, amount) == CashedOut ==> r == Settled(ps, id, amount.value, Pot(ps))
    ensures |r| == |ps|
  {
    if CashoutVerdict(ps, id, amount) == CashedOut then Settled(ps, id, amount.value, Pot(ps))
    else ps
  }

  /** The share of its stake a non-cashing player keeps when `amount` is
      cashed out of `pot`: `1 - amount / pot`. */
  function KeptFraction(amount: real, pot: real): (k: real)
    requires 0.0 < amount <= pot
    ensures 0.0 <= k < 1.0
    ensures k * pot == pot - amount
  {
    assert amount / pot * pot == amount;
    1.0 - amount / pot
  }

  /** The arithmetic of one proportional reduction: with `0 < amount <= pot`
      the guard `max(0, ...)` never bites, and the new stake is the old one
      times `1 - amount / pot`, between 0 and the old stake. */
  lemma {:induction false} ReductionFactor(t: real, amount: real, pot: real)
    requires t > 0.0 && 0.0 < amount <= pot
    ensures t - amount * (t / pot) == t * KeptFraction(amount, pot)
    ensures 0.0 <= t * KeptFraction(amount, pot) <= t
    ensures Max(0.0, t - amount * (t / pot)) / t == KeptFraction(amount, pot)
  {
    var k := KeptFraction(amount, pot);
    assert amount * (t / pot) == t * (amount / pot);
    assert 0.0 < amount / pot <= 1.0 by {
      assert amount / pot * pot == amount;
    }
    assert 0.0 <= t * k <= t;
    assert Max(0.0, t - amount * (t / pot)) == t * k;
    assert t * k / t == k;
  }

  /** The cashing player (every player carrying the id) is marked out with
      `cashout = amount`; buy-ins and stake stay as they were. */
  lemma {:induction false} CashoutCasher(ps: seq<Player>, id: string, amount: Option<real>, i: nat)
    requires CashoutVerdict(ps, id, amount) == CashedOut
    requires i < |ps| && ps[i].id == id
    ensures AfterCashout(ps, id, amount)[i] == ps[i].(isActive := false, cashout := Some(amount.value))
    ensures AfterCashout(ps, id, amount)[i].buyIns == ps[i].buyIns
    ensures AfterCashout(ps, id, amount)[i].totalBuyIn == ps[i].totalBuyIn
  {
    SettledAt(ps, id, amount.value, Pot(ps), i);
  }

  /** Settling a player that is not cashing out, with `0 < amount <= pot`:
      without stake it is untouched; with a stake `t` it keeps
      `t * (1 - amount / pot)`, between 0 and `t`, its buy-ins are scaled by
      that same factor, and a stake equal to the sum of the buy-ins stays
      equal to it. */
  lemma {:induction false} SettleOther(p: Player, id: string, amount: real, pot: real)
    requires p.id != id && 0.0 < amount <= pot
    ensures p.totalBuyIn <= 0.0 ==> SettlePlayer(p, id, amount, pot) == p
    ensures p.totalBuyIn > 0.0 ==>
      var q := SettlePlayer(p, id, amount, pot);
      && 0.0 <= q.totalBuyIn <= p.totalBuyIn
      && q.totalBuyIn == p.totalBuyIn * KeptFraction(amount, pot)
      && q.buyIns == Scaled(p.buyIns, KeptFraction(amount, pot))
      && (p.totalBuyIn == Sum(p.buyIns) ==> q.totalBuyIn == Sum(q.buyIns))
      && q.id == p.id && q.name == p.name
      && q.isActive == p.isActive && q.cashout == p.cashout
  {
    if p.totalBuyIn > 0.0 {
      var t, k := p.totalBuyIn, KeptFraction(amount, pot);
      ReductionFactor(t, amount, pot);
      var q := SettlePlayer(p, id, amount, pot);
      assert q.totalBuyIn == Max(0.0, t - amount * (t / pot)) == t * k;
      assert q.buyIns == Scaled(p.buyIns, Max(0.0, t - amount * (t / pot)) / t) == Scaled(p.buyIns, k);
      SumScaled(p.buyIns, k);
    }
  }

  /** Every other player with a stake keeps a stake between 0 and the old
      one, namely the old one times `1 - amount / pot`; its buy-ins are
      scaled by that factor, so a stake equal to the sum of its buy-ins
      stays equal to it. Players without stake are untouched. */
  lemma {:induction false} CashoutOthers(ps: seq<Player>, id: string, amount: Option<real>, i: nat)
    requires CashoutVerdict(ps, id, amount) == CashedOut
    requires i < |ps| && ps[i].id != id
    ensures ps[i].totalBuyIn <= 0.0 ==> AfterCashout(ps, id, amount)[i] == ps[i]
    ensures ps[i].totalBuyIn > 0.0 ==>
      var q := AfterCashout(ps, id, amount)[i];
      && 0.0 <= q.totalBuyIn <= ps[i].totalBuyIn
      && q.totalBuyIn == ps[i].totalBuyIn * KeptFraction(amount.value, Pot(ps))
      && q.buyIns == Scaled(ps[i].buyIns, KeptFraction(amount.value, Pot(ps)))
      && (ps[i].totalBuyIn == Sum(ps[i].buyIns) ==> q.totalBuyIn == Sum(q.buyIns))
      && q.id == ps[i].id && q.name == ps[i].name
      && q.isActive == ps[i].isActive && q.cashout == ps[i].cashout
  {
    SettledAt(ps, id, amount.value, Pot(ps), i);
    SettleOther(ps[i], id, amount.value, Pot(ps));
  }

  /** The stake a player keeps in a settlement: the cashing player's is
      kept, any other non-negative stake is multiplied by
      `1 - amount / pot`. */
  lemma {:induction false} SettledStake(p: Player, id: string, amount: real, pot: real)
    requires p.totalBuyIn >= 0.0 && 0.0 < amount <= pot
    ensures SettlePlayer(p, id, amount, pot).totalBuyIn
      == if p.id == id then p.totalBuyIn else p.totalBuyIn * KeptFraction(amount, pot)
  {
    if p.id != id {
      SettleOther(p, id, amount, pot);
    }
  }

  /** One step of PotScaledExcept: a pot `x0` of the form
      C0 + k * (P0 - C0) followed by a player of stake `t`, kept whole if
      `matched` and scaled by `k` otherwise, gives C + k * (P - C) with the
      new totals P and C. */
  lemma ScaledExceptStep(k: real, x0: real, P0: real, C0: real, t: real, matched: bool,
                         q: real, P: real, C: real)
    requires x0 == C0 + k * (P0 - C0)
    requires q == if matched then t else t * k
    requires P == P0 + t && C == C0 + (if matched then t else 0.0)
    ensures x0 + q == C + k * (P - C)
  {
    assert k * (P - C) == k * (P0 - C0) + k * (P - C - (P0 - C0));
  }

  /** `qs` is `ps` with the stakes under `id` kept and every other stake
      multiplied by `k`, stated position by position from the end. */
  predicate ScaledExcept(ps: seq<Player>, qs: seq<Player>, id: string, k: real)
    decreases |ps|
  {
    |qs| == |ps| &&
    (ps == [] ||
      (ScaledExcept(ps[..|ps| - 1], qs[..|qs| - 1], id, k) &&
       qs[|qs| - 1].totalBuyIn
         == if ps[|ps| - 1].id == id then ps[|ps| - 1].totalBuyIn else ps[|ps| - 1].totalBuyIn * k))
  }

  /** Keeping the stakes of the players carrying `id` and multiplying all
      others by `k` turns a pot P with stake C under `id` into
      C + k * (P - C). */
  lemma {:induction false} PotScaledExcept(ps: seq<Player>, qs: seq<Player>, id: string, k: real)
    requires ScaledExcept(ps, qs, id, k)
    ensures Pot(qs) == StakeOf(ps, id) + k * (Pot(ps) - StakeOf(ps, id))
  {
    if ps != [] {
      var n := |ps|;
      var ps', qs' := ps[..n - 1], qs[..n - 1];
      PotScaledExcept(ps', qs', id, k);
      ScaledExceptStep(k, Pot(qs'), Pot(ps'), StakeOf(ps', id), ps[n - 1].totalBuyIn, ps[n - 1].id == id,
        qs[n - 1].totalBuyIn, Pot(ps), StakeOf(ps, id));
    }
  }

  /** Settling a list keeps the cashing players' stakes and multiplies the
      others by `1 - amount / pot`. */
  lemma {:induction false} SettledStakes(ps: seq<Player>, id: string, amount: real, pot: real)
    requires 0.0 < amount <= pot
    requires StakesOk(ps)
    ensures ScaledExcept(ps, Settled(ps, id, amount, pot), id, KeptFraction(amount, pot))
  {
    if ps != [] {
      var n := |ps|;
      var front := ps[..n - 1];
      assert StakesOk(front) by {
        forall i | 0 <= i < |front| ensures front[i].totalBuyIn >= 0.0 {
          assert front[i] == ps[i];
        }
      }
      SettledStakes(front, id, amount, pot);
      SettledStake(ps[n - 1], id, amount, pot);
      var r := Settled(ps, id, amount, pot);
      assert r[..n - 1] == Settled(front, id, amount, pot);
      assert r[n - 1] == SettlePlayer(ps[n - 1], id, amount, pot);
    }
  }

  /** The pot after settling a list: the cashing players keep their stakes,
      every other stake is multiplied by `1 - amount / pot`. */
  lemma {:induction false} PotSettled(ps: seq<Player>, id: string, amount: real, pot: real)
    requires 0.0 < amount <= pot
    requires StakesOk(ps)
    ensures Pot(Settled(ps, id, amount, pot))
      == StakeOf(ps, id) + KeptFraction(amount, pot) * (Pot(ps) - StakeOf(ps, id))
  {
    assert ScaledExcept(ps, Settled(ps, id, amount, pot), id, KeptFraction(amount, pot)) by {
      SettledStakes(ps, id, amount, pot);
    }
    PotScaledExcept(ps, Settled(ps, id, amount, pot), id, KeptFraction(amount, pot));
  }

  /** The stake under one id is between nothing and the whole pot. */
  lemma {:induction false} StakeOfBounds(ps: seq<Player>, id: string)
    requires StakesOk(ps)
    ensures 0.0 <= StakeOf(ps, id) <= Pot(ps)
  {
    if ps != [] {
      StakeOfBounds(ps[..|ps| - 1], id);
    }
  }

  lemma StakesNonNegative(ps: seq<Player>)
    requires LedgerOk(ps)
    ensures StakesOk(ps)
  {
    forall i | 0 <= i < |ps| ensures ps[i].totalBuyIn >= 0.0 {
      StakeNonNegative(ps[i]);
    }
  }

  /** The bounds on a pot `x` made of the cashing stake C and the fraction
      k of the other P - C, where k * P == P - a. */
  lemma KeptBounds(a: real, P: real, C: real, k: real, x: real)
    requires 0.0 < a <= P && 0.0 <= C <= P && 0.0 <= k < 1.0 && k * P == P - a
    requires x == C + k * (P - C)
    ensures P - a <= x <= P
    ensures x == P - a <==> C == 0.0
  {
    assert x == (P - a) + C * (1.0 - k);
    assert C * (1.0 - k) <= P * (1.0 - k);
  }

  /** The bounds of KeptBounds for the fraction a cash-out keeps. */
  lemma KeptPotBounds(a: real, P: real, C: real, x: real)
    requires 0.0 < a <= P && 0.0 <= C <= P
    requires x == C + KeptFraction(a, P) * (P - C)
    ensures P - a <= x <= P
    ensures x == P - a <==> C == 0.0
  {
    KeptBounds(a, P, C, KeptFraction(a, P), x);
  }

  /** The pot after a successful cash-out, which settles every player
      against the whole pot P (AfterCashout). With amount a and the cashing
      player's own stake C, the new pot is C + (1 - a / P) * (P - C). */
  lemma {:induction false} CashoutPot(ps: seq<Player>, id: string, a: real)
    requires StakesOk(ps) && 0.0 < a <= Pot(ps)
    ensures Pot(Settled(ps, id, a, Pot(ps)))
      == StakeOf(ps, id) + KeptFraction(a, Pot(ps)) * (Pot(ps) - StakeOf(ps, id))
  {
    PotSettled(ps, id, a, Pot(ps));
  }

  /** Hence a successful cash-out never makes the pot drop by more than
      the amount nor grow, and it drops by exactly the amount only when
      the cashing player had no stake: that stake counts in the
      denominator and is not itself reduced. */
  lemma {:induction false} CashoutPotBounds(ps: seq<Player>, id: string, a: real)
    requires StakesOk(ps) && 0.0 < a <= Pot(ps)
    ensures Pot(ps) - a <= Pot(Settled(ps, id, a, Pot(ps))) <= Pot(ps)
    ensures Pot(Settled(ps, id, a, Pot(ps))) == Pot(ps) - a <==> StakeOf(ps, id) == 0.0
  {
    CashoutPot(ps, id, a);
    StakeOfBounds(ps, id);
    KeptPotBounds(a, Pot(ps), StakeOf(ps, id), Pot(Settled(ps, id, a, Pot(ps))));
  }

  /** A player whose buy-ins are scaled by a non-negative factor and whose
      stake is their new sum stays well formed. */
  lemma {:induction false} ScaledPlayerOk(p: Player, q: Player, k: real)
    requires PlayerOk(p) && k >= 0.0
    requires q.buyIns == Scaled(p.buyIns, k) && q.totalBuyIn == Sum(q.buyIns) && q.cashout == p.cashout
    ensures PlayerOk(q)
  {
    forall j | 0 <= j < |q.buyIns| ensures q.buyIns[j] >= 0.0 {
      assert q.buyIns[j] == p.buyIns[j] * k;
    }
  }

  /** Settling one player keeps it well formed: the casher's cashout is
      the positive amount, and scaled buy-ins stay non-negative and keep
      adding up to the stake. */
  lemma {:induction false} SettleKeepsPlayerOk(p: Player, id: string, amount: real, pot: real)
    requires PlayerOk(p) && 0.0 < amount <= pot
    ensures PlayerOk(SettlePlayer(p, id, amount, pot))
  {
    if p.id != id && p.totalBuyIn > 0.0 {
      SettleOther(p, id, amount, pot);
      ScaledPlayerOk(p, SettlePlayer(p, id, amount, pot), KeptFraction(amount, pot));
    }
  }

  /** A cash-out keeps the ledger invariant. */
  lemma {:induction false} CashoutKeepsInvariant(ps: seq<Player>, id: string, amount: Option<real>)
    requires LedgerOk(ps)
    ensures LedgerOk(AfterCashout(ps, id, amount))
  {
    if CashoutVerdict(ps, id, amount) == CashedOut {
      var r := AfterCashout(ps, id, amount);
      forall i | 0 <= i < |ps| ensures PlayerOk(r[i]) {
        SettledAt(ps, id, amount.value, Pot(ps), i);
        SettleKeepsPlayerOk(ps[i], id, amount.value, Pot(ps));
      }
    }
  }

  /** A worked example: Alice buys in 100 and Bob 50, then
      Alice cashes out 120. Alice is out with cashout 120 and keeps her
      stake of 100; Bob's 50 shrinks by 120 * 50 / 150 = 40 to 10, so the
      pot is 110, not 30. */
  lemma {:induction false} CashoutExample()
    ensures
      var alice := Player("1", "Alice", [100.0], 100.0, true, None);
      var bob := Player("2", "Bob", [50.0], 50.0, true, None);
      var r := AfterCashout([alice, bob], "1", Some(120.0));
      && r == [alice.(isActive := false, cashout := Some(120.0)), bob.(buyIns := [10.0], totalBuyIn := 10.0)]
      && Pot(r) == 110.0
  {
    var alice := Player("1", "Alice", [100.0], 100.0, true, None);
    var bob := Player("2", "Bob", [50.0], 50.0, true, None);
    var ps := [alice, bob];
    assert Pot(ps) == 150.0 by {
      assert ps[..1] == [alice];
      assert [alice][..0] == [];
      assert Pot([alice]) == 100.0;
    }
    assert HasPlayer(ps, "1") by { assert ps[0].id == "1"; }
    assert CashoutVerdict(ps, "1", Some(120.0)) == CashedOut;
    assert StakeOf(ps, "1") == 100.0 by {
      assert ps[..1] == [alice];
      assert [alice][..0] == [];
      assert StakeOf([alice], "1") == 100.0;
      assert ps[1].id != "1";
    }
    var r := AfterCashout(ps, "1", Some(120.0));
    var k := KeptFraction(120.0, 150.0);
    assert k == 0.2 by {
      assert k * 150.0 == 30.0;
    }
    CashoutCasher(ps, "1", Some(120.0), 0);
    CashoutOthers(ps, "1", Some(120.0), 1);
    assert r[1].buyIns == [10.0] by {
      assert |r[1].buyIns| == 1 && r[1].buyIns[0] == 50.0 * k;
    }
    assert r == [r[0], r[1]];
    CashoutPot(ps, "1", 120.0);
  }

  /** The player list the component holds. Each handler replaces it by a
      list computed from the old one, as `setPlayers(...)` does. */
  class Ledger {
    var players: seq<Player>

    ghost predicate Valid()
      reads this
    {
      LedgerOk(players)
    }

    /** `useState<Player[]>([])`. */
    constructor ()
      ensures Valid() && players == []
    {
      players := [];
    }

    method AddPlayer(name: string, id: string)
      requires Valid()
      modifies this
      ensures Valid()
      ensures players == AfterAddPlayer(old(players), id, name)
      ensures Pot(players) == Pot(old(players))
    {
      AddPlayerKeepsPot(players, id, name);
      if Trim(name) == [] {
        return;
      }
      players := players + [Player(id, Trim(name), [], 0.0, true, None)];
    }

    method AddBuyIn(selectedId: string, amount: Option<real>)
      requires Valid()
      modifies this
      ensures Valid()
      ensures players == AfterBuyIn(old(players), selectedId, amount)
    {
      if selectedId == "" || amount.None? || amount.value <= 0.0 {
        return;
      }
      BuyInKeepsInvariant(players, selectedId, amount);
      players := AfterBuyIn(players, selectedId, amount);
    }

    method RemovePlayer(id: string)
      requires Valid()
      modifies this
      ensures Valid()
      ensures players == Removed(old(players), id)
      ensures Pot(players) == Pot(old(players)) - StakeOf(old(players), id)
    {
      RemovedPot(players, id);
      RemovedKeepsInvariant(players, id);
      players := Removed(players, id);
    }

    method TogglePlayerStatus(id: string)
      requires Valid()
      modifies this
      ensures Valid()
      ensures players == AfterToggle(old(players), id)
      ensures Pot(players) == Pot(old(players))
    {
      ToggleSpec(players, id);
      players := AfterToggle(players, id);
    }

    method HandleCashout(cashoutId: string, amount: Option<real>) returns (outcome: CashoutOutcome)
      requires Valid()
      modifies this
      ensures Valid()
      ensures outcome == CashoutVerdict(old(players), cashoutId, amount)
      ensures players == AfterCashout(old(players), cashoutId, amount)
      ensures outcome != CashedOut ==> players == old(players)
      ensures outcome == CashedOut ==>
        Pot(old(players)) - amount.value <= Pot(players) <= Pot(old(players))
    {
      CashoutKeepsInvariant(players, cashoutId, amount);
      StakesNonNegative(players);
      if CashoutVerdict(players, cashoutId, amount) == CashedOut {
        CashoutPotBounds(players, cashoutId, amount.value);
      }
      if amount.None? || amount.value <= 0.0 {
        return InvalidAmount;
      }
      var totalMoneyInPlay := Pot(players);
      if amount.value > totalMoneyInPlay {
        return NotEnoughInPot(totalMoneyInPlay);
      }
      if !HasPlayer(players, cashoutId) {
        return UnknownPlayer;
      }
      var totalBuyIns := Pot(players);
      players := Settled(players, cashoutId, amount.value, totalBuyIns);
      outcome := CashedOut;
    }
  }
}
