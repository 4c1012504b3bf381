/** PYDFeeDiscount: staked PYD sets a tier, fee snapshots accrue tiered rebates over the staker list, claims pay what
  * the budget holds. */
module FeeDiscount {
  import opened Common

  const MAX_TIER_BPS: nat := 4000
  const BPS: nat := 10000

  /** A row of the tier table: the stake threshold and the discount. */
  type Row = r: seq<nat> | |r| >= 2 witness [0, 0]

  datatype State = State(
    self: Address,
    owner: Address,
    feeDistributor: Address,
    pyd: Ledger,
    usdc: Ledger,
    tiers: seq<Row>,
    lastFeeSnapshot: nat,
    rebateOf: Ledger,
    stakedBy: Ledger,
    stakerList: seq<Address>,
    isStaker: set<Address>)

  const DEFAULT_TIERS: seq<Row> :=
    [[1_000_000_000_000_000_000_000, 500], [10_000_000_000_000_000_000_000, 1000],
     [100_000_000_000_000_000_000_000, 1500], [1_000_000_000_000_000_000_000_000, 2000]]

  function Deployed(self: Address, owner: Address, feeDistributor: Address, pyd: Ledger, usdc: Ledger): State {
    State(self, owner, feeDistributor, pyd, usdc, DEFAULT_TIERS, 0, map[], map[], [], {})
  }

  // ---- tiers ----

  /** A schedule the owner may set: thresholds strictly ascending from above zero, discounts within the cap. */
  predicate GoodTiers(rows: seq<seq<nat>>) {
    rows != [] && forall i :: 0 <= i < |rows| ==> GoodRow(rows, i)
  }

  predicate GoodRow(rows: seq<seq<nat>>, i: nat)
    requires i < |rows|
  {
    |rows[i]| >= 2 && rows[i][1] <= MAX_TIER_BPS
    && rows[i][0] > PrevThreshold(rows, i)
  }

  function PrevThreshold(rows: seq<seq<nat>>, i: nat): nat
    requires i <= |rows|
  {
    if i == 0 || |rows[i - 1]| < 2 then 0 else rows[i - 1][0]
  }

  /** The largest discount among the thresholds crossed. */
  function BestBps(tiers: seq<Row>, staked: nat): nat {
    if tiers == [] then 0
    else
      var best := BestBps(tiers[..|tiers| - 1], staked);
      var last := tiers[|tiers| - 1];
      if staked >= last[0] && last[1] > best then last[1] else best
  }

  /** The discount of the highest threshold crossed. */
  function HighestCrossedBps(tiers: seq<Row>, staked: nat): nat {
    if tiers == [] then 0
    else if staked >= tiers[|tiers| - 1][0] then tiers[|tiers| - 1][1]
    else HighestCrossedBps(tiers[..|tiers| - 1], staked)
  }

  /** The best discount is the maximum over the crossed rows, or zero. */
  lemma {:induction false} BestBpsIsMaximum(tiers: seq<Row>, staked: nat)
    ensures forall i :: 0 <= i < |tiers| && staked >= tiers[i][0] ==> tiers[i][1] <= BestBps(tiers, staked)
    ensures BestBps(tiers, staked) == 0
            || exists i :: 0 <= i < |tiers| && staked >= tiers[i][0] && tiers[i][1] == BestBps(tiers, staked)
  {
    if tiers != [] {
      BestBpsIsMaximum(tiers[..|tiers| - 1], staked);
    }
  }

  /** `t` is the largest discount among the rows that the stake crosses, zero if it crosses none. */
  ghost predicate IsTier(tiers: seq<Row>, staked: nat, t: nat) {
    && (forall i :: 0 <= i < |tiers| && tiers[i][0] <= staked ==> tiers[i][1] <= t)
    && (t == 0 || exists i :: 0 <= i < |tiers| && tiers[i][0] <= staked && tiers[i][1] == t)
  }

  lemma TierIsBestBps(tiers: seq<Row>, staked: nat, t: nat)
    ensures IsTier(tiers, staked, t) <==> t == BestBps(tiers, staked)
  {
    BestBpsIsMaximum(tiers, staked);
  }

  /** Exactly which schedules the owner may set, row by row, and that they are stored as given. */
  lemma SetTiersCompletesIff(s: State, sender: Address, rows: seq<seq<nat>>)
    ensures Apply(s, sender, SetTiers(rows)).Some? <==>
              && sender == s.owner && rows != []
              && (forall i :: 0 <= i < |rows| ==> |rows[i]| >= 2 && rows[i][0] > 0 && rows[i][1] <= 4000)
              && (forall i, j :: 0 <= i < j < |rows| ==> rows[i][0] < rows[j][0])
    ensures Apply(s, sender, SetTiers(rows)).Some? ==>
              var t := Apply(s, sender, SetTiers(rows)).value; t == s.(tiers := t.tiers) && t.tiers == rows
  {
    if GoodTiers(rows) {
      forall i | 0 <= i < |rows| ensures |rows[i]| >= 2 && rows[i][0] > 0 && rows[i][1] <= 4000 {
        assert GoodRow(rows, i);
      }
      forall i, j | 0 <= i < j < |rows| ensures rows[i][0] < rows[j][0] {
        GoodTiersAscend(rows, i, j);
      }
    }
  }

  lemma {:induction false} BestBpsCapped(tiers: seq<Row>, staked: nat)
    requires forall i :: 0 <= i < |tiers| ==> tiers[i][1] <= MAX_TIER_BPS
    ensures BestBps(tiers, staked) <= MAX_TIER_BPS
  {
    if tiers != [] {
      BestBpsCapped(tiers[..|tiers| - 1], staked);
    }
  }

  /** A larger stake never has a smaller discount. */
  lemma {:induction false} BestBpsMonotone(tiers: seq<Row>, staked: nat, more: nat)
    requires staked <= more
    ensures BestBps(tiers, staked) <= BestBps(tiers, more)
  {
    if tiers != [] {
      BestBpsMonotone(tiers[..|tiers| - 1], staked, more);
    }
  }

  predicate Ascending(tiers: seq<Row>) {
    forall i, j :: 0 <= i < j < |tiers| ==> tiers[i][0] < tiers[j][0]
  }

  predicate DiscountsAscend(tiers: seq<Row>) {
    forall i, j :: 0 <= i < j < |tiers| ==> tiers[i][1] <= tiers[j][1]
  }

  lemma {:induction false} AscendingDiscountsGiveHighest(tiers: seq<Row>, staked: nat)
    requires Ascending(tiers) && DiscountsAscend(tiers)
    ensures BestBps(tiers, staked) == HighestCrossedBps(tiers, staked)
  {
    if tiers != [] {
      var rest := tiers[..|tiers| - 1];
      AscendingDiscountsGiveHighest(rest, staked);
      BestBpsIsMaximum(rest, staked);
    }
  }

  /** At row j's own threshold, row j is the highest crossed. */
  lemma {:induction false} HighestAtThreshold(tiers: seq<Row>, j: nat)
    requires Ascending(tiers) && j < |tiers|
    ensures HighestCrossedBps(tiers, tiers[j][0]) == tiers[j][1]
  {
    if j < |tiers| - 1 {
      HighestAtThreshold(tiers[..|tiers| - 1], j);
    }
  }

  /** The documented rule, the tier of the highest threshold crossed, holds for every stake exactly when the discounts
    * never fall along the schedule; the schedule check does not ask for that. */
  lemma TierIsHighestCrossedIff(tiers: seq<Row>)
    requires Ascending(tiers)
    ensures (forall staked: nat :: BestBps(tiers, staked) == HighestCrossedBps(tiers, staked)) <==> DiscountsAscend(tiers)
  {
    if DiscountsAscend(tiers) {
      forall staked: nat ensures BestBps(tiers, staked) == HighestCrossedBps(tiers, staked) {
        AscendingDiscountsGiveHighest(tiers, staked);
      }
    } else {
      var i, j :| 0 <= i < j < |tiers| && tiers[i][1] > tiers[j][1];
      HighestAtThreshold(tiers, j);
      BestBpsIsMaximum(tiers, tiers[j][0]);
      assert BestBps(tiers, tiers[j][0]) != HighestCrossedBps(tiers, tiers[j][0]);
    }
  }

  lemma {:induction false} GoodTiersAscend(rows: seq<seq<nat>>, i: nat, j: nat)
    requires GoodTiers(rows) && i < j < |rows|
    ensures |rows[i]| >= 2 && |rows[j]| >= 2 && rows[i][0] < rows[j][0]
  {
    assert GoodRow(rows, i) && GoodRow(rows, j) && GoodRow(rows, j - 1);
    if i < j - 1 {
      GoodTiersAscend(rows, i, j - 1);
    }
  }

  /** The same for every schedule that the owner can set. */
  lemma SetScheduleFollowsRuleIff(rows: seq<seq<nat>>)
    requires GoodTiers(rows)
    ensures (forall staked: nat :: BestBps(Rows(rows), staked) == HighestCrossedBps(Rows(rows), staked))
            <==> DiscountsAscend(Rows(rows))
  {
    forall i, j | 0 <= i < j < |rows| ensures Rows(rows)[i][0] < Rows(rows)[j][0] {
      GoodTiersAscend(rows, i, j);
    }
    TierIsHighestCrossedIff(Rows(rows));
  }

  /** A schedule that passes the check and breaks the documented rule: a larger stake gets the smaller threshold's tier. */
  lemma FallingScheduleAccepted()
    ensures GoodTiers([[1, 2000], [2, 500]])
    ensures BestBps([[1, 2000], [2, 500]], 2) == 2000 && HighestCrossedBps([[1, 2000], [2, 500]], 2) == 500
  {
    var rows: seq<seq<nat>> := [[1, 2000], [2, 500]];
    assert GoodRow(rows, 0) && GoodRow(rows, 1);
    var tiers: seq<Row> := [[1, 2000], [2, 500]];
    assert tiers[..1] == [[1, 2000]] && tiers[..1][..0] == [];
    assert BestBps(tiers[..1], 2) == 2000;
  }

  // ---- snapshots ----

  function TierBpsOf(s: State, a: Address): nat {
    BestBps(s.tiers, At(s.stakedBy, a))
  }

  function Rebate(shares: nat, feeDelta: nat, bps: nat, totalShares: nat): nat
    requires totalShares > 0
  {
    var weighted: nat := shares * feeDelta;
    var product: nat := weighted * bps;
    product / (totalShares * BPS)
  }

  /** The rebate of one staker in a snapshot that reads `shares` from the vault. */
  function RebateFor(s: State, a: Address, shares: Ledger, totalShares: nat, feeDelta: nat): nat
    requires totalShares > 0
  {
    if At(shares, a) == 0 || TierBpsOf(s, a) == 0 then 0
    else Rebate(At(shares, a), feeDelta, TierBpsOf(s, a), totalShares)
  }

  function AccrueLoop(s: State, list: seq<Address>, shares: Ledger, totalShares: nat, feeDelta: nat): Ledger
    requires totalShares > 0
  {
    if list == [] then s.rebateOf
    else
      var sofar := AccrueLoop(s, list[..|list| - 1], shares, totalShares, feeDelta);
      var a := list[|list| - 1];
      if RebateFor(s, a, shares, totalShares, feeDelta) == 0 then sofar
      else Put(sofar, a, At(sofar, a) + RebateFor(s, a, shares, totalShares, feeDelta))
  }

  lemma AccrueOneMore(s: State, i: nat, shares: Ledger, totalShares: nat, feeDelta: nat)
    requires totalShares > 0 && i < |s.stakerList|
    ensures var a, sofar := s.stakerList[i], AccrueLoop(s, s.stakerList[..i], shares, totalShares, feeDelta);
            AccrueLoop(s, s.stakerList[..i + 1], shares, totalShares, feeDelta)
            == if RebateFor(s, a, shares, totalShares, feeDelta) == 0 then sofar
               else Put(sofar, a, At(sofar, a) + RebateFor(s, a, shares, totalShares, feeDelta))
  {
    hide RebateFor;
    assert s.stakerList[..i + 1][..i] == s.stakerList[..i];
  }

  // ---- entry points ----

  /** A snapshot carries what the vault answers: share balances and their total, zero where the call fails. */
  datatype Call =
    | SetTiers(rows: seq<seq<nat>>)
    | Stake(amount: nat)
    | Unstake(amount: nat)
    | Exit
    | SnapshotHarvest(shares: Ledger, totalShares: nat)
    | ClaimRebate

  function SnapshotSpec(s: State, shares: Ledger, totalShares: nat): State {
    var bal := At(s.usdc, s.feeDistributor);
    if bal <= s.lastFeeSnapshot then s
    else
      var t := s.(lastFeeSnapshot := bal);
      if totalShares == 0 then t
      else t.(rebateOf := AccrueLoop(s, s.stakerList, shares, totalShares, bal - s.lastFeeSnapshot))
  }

  function Claimable(s: State, a: Address): nat {
    if At(s.rebateOf, a) > At(s.usdc, s.self) then At(s.usdc, s.self) else At(s.rebateOf, a)
  }

  function Apply(s: State, sender: Address, call: Call): Option<State> {
    match call
    case SetTiers(rows) => if sender != s.owner || !GoodTiers(rows) then None else Some(s.(tiers := Rows(rows)))
    case Stake(amount) =>
      if amount == 0 then None
      else
        (match Transfer(s.pyd, sender, s.self, amount)
         case None => None
         case Some(t) =>
           Some(s.(pyd := t, stakedBy := Put(s.stakedBy, sender, At(s.stakedBy, sender) + amount),
                   stakerList := if sender in s.isStaker then s.stakerList else s.stakerList + [sender],
                   isStaker := s.isStaker + {sender})))
    case Unstake(amount) =>
      if amount == 0 || amount > At(s.stakedBy, sender) then None else ReturnStake(s, sender, amount)
    case Exit => if At(s.stakedBy, sender) == 0 then Some(s) else ReturnStake(s, sender, At(s.stakedBy, sender))
    case SnapshotHarvest(shares, totalShares) => Some(SnapshotSpec(s, shares, totalShares))
    case ClaimRebate =>
      var amount := Claimable(s, sender);
      if amount == 0 then None
      else
        (match Transfer(s.usdc, s.self, sender, amount)
         case None => None
         case Some(t) => Some(s.(usdc := t, rebateOf := Put(s.rebateOf, sender, At(s.rebateOf, sender) - amount))))
  }

  function ReturnStake(s: State, sender: Address, amount: nat): Option<State>
    requires amount <= At(s.stakedBy, sender)
  {
    match Transfer(s.pyd, s.self, sender, amount)
    case None => None
    case Some(t) => Some(s.(pyd := t, stakedBy := Put(s.stakedBy, sender, At(s.stakedBy, sender) - amount)))
  }

  function Rows(rows: seq<seq<nat>>): (r: seq<Row>)
    requires GoodTiers(rows)
    ensures r == rows
  {
    assert forall i :: 0 <= i < |rows| ==> GoodRow(rows, i);
    seq(|rows|, i requires 0 <= i < |rows| => RowAt(rows, i))
  }

  function RowAt(rows: seq<seq<nat>>, i: nat): Row
    requires GoodTiers(rows) && i < |rows|
  {
    assert GoodRow(rows, i);
    rows[i]
  }
}
