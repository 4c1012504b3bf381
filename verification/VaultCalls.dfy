/** What single calls to the vault guarantee. */
module VaultCalls {
  import opened Common
  import opened VaultMath
  import opened Vault
  import opened VaultLoops
  import DN = DeltaNeutral

  /** The configuration every reachable vault keeps. */
  ghost predicate Healthy(v: State) {
    Wired(v, v.pool) && v.strategies <= v.pool.strats.Keys && v.performanceFee <= BPS
  }

  /** Neither the vault nor a strategy. */
  predicate Outsider(v: State, a: Address) {
    a != v.self && a !in v.pool.strats
  }

  // ---- recall and withdraw ----

  function Instalment(v: State, missing: nat): nat {
    var active := LiveCount(v, v.strategyList);
    if active == 0 then 0 else missing / active + 1
  }

  lemma InstalmentsCover(v: State, missing: nat)
    requires LiveCount(v, v.strategyList) > 0
    ensures missing < AllInstalments(v, v.strategyList, Instalment(v, missing))
  {
    var active := LiveCount(v, v.strategyList);
    AllInstalmentsMultiply(v, v.strategyList, missing / active + 1);
    CeilingCovers(missing, active);
  }

  lemma CeilingCovers(x: nat, d: nat)
    requires d > 0
    ensures x < (x / d + 1) * d
  {
  }

  /** A recall conserves tokens, leaves paused strategies alone and pulls less than the shortfall plus one instalment. */
  lemma RecallIsBounded(v: State, needed: nat)
    requires Wired(v, v.pool) && RecallShortfall(v, needed).Some?
    ensures var p := RecallShortfall(v, needed).value;
            var got := At(p.token, v.self) - Balance(v);
            && Pulled(v, v.pool, p, got)
            && (if Balance(v) >= needed then got == 0
                else got < needed - Balance(v) + Instalment(v, needed - Balance(v)))
  {
    var idle := Balance(v);
    if idle < needed && LiveCount(v, v.strategyList) > 0 {
      RecallLoopSound(v, v.pool, v.strategyList, idle, needed - idle, Instalment(v, needed - idle));
    }
  }

  /** A recall reaches what is needed whenever every live strategy can pay its instalments. */
  lemma RecallReachesNeeded(v: State, needed: nat)
    requires Wired(v, v.pool) && LiveCount(v, v.strategyList) > 0
    requires Balance(v) < needed ==> CanPay(v, v.pool, v.strategyList, Instalment(v, needed - Balance(v)))
    ensures RecallShortfall(v, needed).Some?
    ensures needed <= At(RecallShortfall(v, needed).value.token, v.self)
  {
    if Balance(v) < needed {
      var missing := needed - Balance(v);
      InstalmentsCover(v, missing);
      RecallLoopReaches(v, v.pool, v.strategyList, Balance(v), missing, Instalment(v, missing));
    }
  }

  /** What the vault could pay of a request: its balance plus one pass of instalments from the strategies that answer. */
  function Liquidity(v: State, needed: nat): nat {
    if Balance(v) >= needed then Balance(v)
    else Balance(v) + Affordable(v, v.pool, v.strategyList, Instalment(v, needed - Balance(v)))
  }

  /** Nothing is recalled, or the recall is over before it comes to an address that does not answer. */
  ghost predicate RecallGetsThrough(v: State, needed: nat) {
    Balance(v) >= needed
    || Answered(v, v.pool, v.strategyList, needed - Balance(v), Instalment(v, needed - Balance(v)))
  }

  lemma {:induction false} NothingLive(v: State, p: Pool, list: seq<Address>, per: nat)
    requires LiveCount(v, list) == 0
    ensures Affordable(v, p, list, per) == 0
    ensures forall i :: 0 <= i < |list| ==> !Live(v, list[i])
  {
    if list != [] {
      NothingLive(v, p, list[1..], per);
      assert forall i :: 0 < i < |list| ==> list[i] == list[1..][i - 1];
    }
  }

  lemma RecallReachesIff(v: State, needed: nat)
    requires Wired(v, v.pool)
    ensures RecallShortfall(v, needed).Some? <==> RecallGetsThrough(v, needed)
    ensures RecallShortfall(v, needed).Some? ==>
              var after := At(RecallShortfall(v, needed).value.token, v.self);
              && (needed <= after <==> needed <= Liquidity(v, needed))
              && Least(after, needed) == Least(Liquidity(v, needed), needed)
  {
    var idle := Balance(v);
    if idle < needed {
      if LiveCount(v, v.strategyList) == 0 {
        NothingLive(v, v.pool, v.strategyList, 0);
      } else {
        RecallLoopReachesIff(v, v.pool, v.strategyList, idle, needed - idle, Instalment(v, needed - idle));
      }
    }
  }

  /** Exactly when a withdrawal is paid: the claim covers it, the recall gets through and one pass of equal instalments
    * can raise it. */
  lemma WithdrawPaidIff(v: State, sender: Address, amount: nat)
    requires Wired(v, v.pool) && At(v.shares, sender) <= v.totalShares
    ensures Apply(v, sender, Withdraw(amount)).Some? <==>
              && 0 < amount <= v.totalAssets
              && 0 < SharesFor(v, amount) <= At(v.shares, sender)
              && RecallGetsThrough(v, amount)
              && amount <= Liquidity(v, amount)
  {
    hide SharesFor, RecallShortfall, RecallGetsThrough, Liquidity;
    var b := Burn(v, sender, SharesFor(v, amount), amount);
    if b.Some? {
      SamePool(v, b.value, amount);
      RecallReachesIff(b.value, amount);
    }
  }

  /** Exactly when withdrawUpTo pays, and what: the smaller of the claim asked for and what one pass can raise, unless the
    * recall meets an address that does not answer or the books are too small for the payment. */
  lemma WithdrawUpToPaidIff(v: State, sender: Address, amount: nat)
    requires Wired(v, v.pool) && At(v.shares, sender) <= v.totalShares
    ensures var want := Wanted(v, sender, amount);
            var paid := Least(Liquidity(v, want), want);
            var o := Apply(v, sender, WithdrawUpTo(amount));
            && (o.Some? <==> RecallGetsThrough(v, want) && 0 < paid <= v.totalAssets)
            && (o.Some? ==> o.value.totalAssets == v.totalAssets - paid)
  {
    hide SharesFor, MaxWithdraw, RecallShortfall, RecallGetsThrough, Liquidity, Wired;
    var want := Wanted(v, sender, amount);
    RecallReachesIff(v, want);
    if RecallShortfall(v, want).Some? {
      var u := v.(pool := RecallShortfall(v, want).value);
      var paid := Least(Balance(u), want);
      ClampNeverFires(v, sender, amount, paid);
      SameBooks(v, u, paid);
    }
  }

  lemma SameBooks(v: State, u: State, assets: nat)
    requires u.totalShares == v.totalShares && u.totalAssets == v.totalAssets
    ensures SharesFor(u, assets) == SharesFor(v, assets)
  {
  }

  /** Paid to the caller: its tokens rise by exactly what the vault's books lose, and nobody's outside the vault and its
    * live strategies move. */
  ghost predicate PaidTo(v: State, w: State, sender: Address) {
    && w.pool.strats == v.pool.strats
    && At(w.pool.token, sender) == At(v.pool.token, sender) + v.totalAssets - w.totalAssets
    && forall a: Address :: a != sender && a != v.self && !(Live(v, a) && a in v.pool.strats) ==>
                              At(w.pool.token, a) == At(v.pool.token, a)
  }

  lemma PayMoves(v: State, b: State, p: Pool, sender: Address, amount: nat, got: int)
    requires b == v.(shares := b.shares, totalShares := b.totalShares, totalAssets := b.totalAssets)
    requires Outsider(v, sender) && Pulled(v, v.pool, p, got) && b.totalAssets == v.totalAssets - amount
    ensures Pay(b, p, sender, amount).Some? ==> PaidTo(v, Pay(b, p, sender, amount).value, sender)
  {
    hide Sum, Of;
  }

  lemma WithdrawPaysCaller(v: State, sender: Address, amount: nat)
    requires Wired(v, v.pool) && Outsider(v, sender)
    ensures Apply(v, sender, Withdraw(amount)).Some? ==>
            var w := Apply(v, sender, Withdraw(amount)).value;
            w.totalAssets == v.totalAssets - amount && PaidTo(v, w, sender)
  {
    hide SharesFor, RecallShortfall, Wired, Pulled, PaidTo, Instalment;
    if Apply(v, sender, Withdraw(amount)).Some? {
      var b := Burn(v, sender, SharesFor(v, amount), amount).value;
      SamePool(v, b, amount);
      RecallIsBounded(b, amount);
      var p := RecallShortfall(b, amount).value;
      SamePulled(v, b, p, At(p.token, v.self) - Balance(v));
      PayMoves(v, b, p, sender, amount, At(p.token, v.self) - Balance(v));
    }
  }

  lemma SamePulled(v: State, b: State, p: Pool, got: int)
    requires b == v.(shares := b.shares, totalShares := b.totalShares, totalAssets := b.totalAssets)
    ensures Pulled(b, b.pool, p, got) ==> Pulled(v, v.pool, p, got)
  {
    hide Sum, Of;
  }

  lemma WithdrawUpToPaysCaller(v: State, sender: Address, amount: nat)
    requires Wired(v, v.pool) && Outsider(v, sender)
    ensures Apply(v, sender, WithdrawUpTo(amount)).Some? ==> PaidTo(v, Apply(v, sender, WithdrawUpTo(amount)).value, sender)
  {
    hide SharesFor, MaxWithdraw, RecallShortfall, Wired, Pulled, PaidTo, Instalment;
    if Apply(v, sender, WithdrawUpTo(amount)).Some? {
      var want := Wanted(v, sender, amount);
      RecallIsBounded(v, want);
      var p := RecallShortfall(v, want).value;
      var u := v.(pool := p);
      var paid := Least(At(p.token, v.self), want);
      var sh := SharesFor(u, paid);
      var b := Burn(u, sender, if sh > At(v.shares, sender) then At(v.shares, sender) else sh, paid).value;
      PayMoves(v, b.(pool := v.pool), p, sender, paid, At(p.token, v.self) - Balance(v));
    }
  }

  /** At a price of one or more the books always cover a claim, so withdrawUpTo then fails only for a claim or a liquidity
    * of nothing, or where the recall does not get through. */
  lemma FloorCoversClaim(v: State, a: Address)
    requires At(v.shares, a) <= v.totalShares <= v.totalAssets
    ensures MaxWithdraw(v, a) <= v.totalAssets
  {
    var h, t, b := At(v.shares, a), v.totalShares + SHARE_OFFSET, v.totalAssets + SHARE_OFFSET;
    if v.totalShares > 0 {
      ScaleBounds(h, b, t);
      Cancel(h, v.totalShares, b);
      PoolCovers(v.totalShares, v.totalAssets);
      Cancel(MaxWithdraw(v, a), v.totalAssets, t);
    }
  }

  /** Burning shares changes nothing a recall looks at. */
  lemma SamePool(v: State, b: State, needed: nat)
    requires b == v.(shares := b.shares, totalShares := b.totalShares, totalAssets := b.totalAssets)
    ensures Wired(v, v.pool) ==> Wired(b, b.pool)
    ensures RecallGetsThrough(b, needed) <==> RecallGetsThrough(v, needed)
    ensures Liquidity(b, needed) == Liquidity(v, needed)
  {
    var list, per := v.strategyList, if Balance(v) < needed then Instalment(v, needed - Balance(v)) else 0;
    SameList(v, b, v.pool, list, per);
    forall i | 0 <= i < |list|
      ensures Affordable(b, v.pool, list[..i], per) == Affordable(v, v.pool, list[..i], per)
      ensures Deaf(b, v.pool, list[i]) <==> Deaf(v, v.pool, list[i])
    {
      SameList(v, b, v.pool, list[..i], per);
    }
    assert Wired(v, v.pool) ==> forall s :: s in v.pool.strats && Outsourced(v, v.pool, s) ==> Outsourced(b, b.pool, s);
  }

  lemma {:induction false} SameList(v: State, b: State, p: Pool, list: seq<Address>, per: nat)
    requires b == v.(shares := b.shares, totalShares := b.totalShares, totalAssets := b.totalAssets)
    ensures LiveCount(b, list) == LiveCount(v, list)
    ensures Affordable(b, p, list, per) == Affordable(v, p, list, per)
    decreases |list|
  {
    if list != [] {
      SameList(v, b, p, list[1..], per);
      if Live(v, list[0]) && !Deaf(v, p, list[0]) {
        var s, got := list[0], Least(per, At(p.token, list[0]));
        SameList(v, b, p.(token := Put(p.token, s, At(p.token, s) - got)), list[1..], per);
      }
    }
  }

  /** The clamp of withdrawUpTo never fires: the shares of what is paid never exceed the caller's. */
  lemma ClampNeverFires(v: State, sender: Address, amount: nat, paid: nat)
    requires paid <= Wanted(v, sender, amount)
    ensures SharesFor(v, paid) <= At(v.shares, sender)
  {
    PayingWithinValue(paid, At(v.shares, sender), v.totalShares, v.totalAssets);
  }

  /** Withdrawing everything one may leaves at most one share behind. */
  lemma FullWithdrawalLeavesOneShare(v: State, sender: Address)
    requires 0 < v.totalShares <= v.totalAssets
    requires Apply(v, sender, Withdraw(MaxWithdraw(v, sender))).Some?
    ensures At(Apply(v, sender, Withdraw(MaxWithdraw(v, sender))).value.shares, sender) <= 1
  {
    RoundTrip(At(v.shares, sender), v.totalShares, v.totalAssets);
    hide ToShares, ToAssets, RecallShortfall;
  }

  // ---- deposit ----

  /** Exactly when a deposit goes through. */
  lemma DepositCompletesIff(v: State, sender: Address, amount: nat)
    ensures Apply(v, sender, Deposit(amount)).Some? <==>
              && !v.depositsPaused && 0 < amount <= At(v.pool.token, sender)
              && (v.tvlCap == 0 || v.totalAssets + amount <= v.tvlCap)
              && (v.perUserCap == 0 || MaxWithdraw(v, sender) + amount <= v.perUserCap)
              && 0 < SharesFor(v, amount)
  {
    hide Scale, ToShares, ToAssets;
  }

  /** What a deposit moves: the amount from the caller to the vault, and to the books, for shares at the price before it. */
  lemma DepositMoves(v: State, sender: Address, amount: nat, a: Address)
    requires sender != v.self
    ensures Apply(v, sender, Deposit(amount)).Some? ==>
            var w := Apply(v, sender, Deposit(amount)).value;
            && At(w.pool.token, a) == At(v.pool.token, a) + (if a == v.self then amount else 0)
                                                        - (if a == sender then amount else 0)
            && At(w.shares, a) == At(v.shares, a) + (if a == sender then w.totalShares - v.totalShares else 0)
            && w.totalAssets == v.totalAssets + amount
            && w.totalShares == v.totalShares + SharesFor(v, amount)
            && w.pool.strats == v.pool.strats
  {
    hide Scale, ToShares, ToAssets;
  }

  /** A deposit into a vault with shares lowers nobody else's claim. */
  lemma DepositLowersNobody(v: State, sender: Address, amount: nat, other: Address)
    requires v.totalShares > 0 && other != sender && Apply(v, sender, Deposit(amount)).Some?
    ensures MaxWithdraw(v, other) <= MaxWithdraw(Apply(v, sender, Deposit(amount)).value, other)
  {
    DepositPrice(amount, v.totalShares, v.totalAssets);
    var minted := SharesFor(v, amount);
    ValueFollowsPrice(At(v.shares, other), v.totalShares + SHARE_OFFSET, v.totalAssets + SHARE_OFFSET,
                      v.totalShares + minted + SHARE_OFFSET, v.totalAssets + amount + SHARE_OFFSET);
    hide Scale, ToShares;
  }

  /** Claims follow the assets as long as no shares are minted or burned. */
  lemma ClaimsFollowAssets(v: State, w: State, a: Address)
    requires w.shares == v.shares && w.totalShares == v.totalShares && v.totalAssets <= w.totalAssets
    ensures MaxWithdraw(v, a) <= MaxWithdraw(w, a)
  {
    Cancel(v.totalAssets + SHARE_OFFSET, w.totalAssets + SHARE_OFFSET, v.totalShares + SHARE_OFFSET);
    ValueFollowsPrice(At(v.shares, a), v.totalShares + SHARE_OFFSET, v.totalAssets + SHARE_OFFSET,
                      w.totalShares + SHARE_OFFSET, w.totalAssets + SHARE_OFFSET);
  }

  /** After a capped deposit into a vault with shares the depositor is still within the cap, and nobody else lost. */
  lemma DepositWithinCap(v: State, sender: Address, amount: nat, other: Address)
    requires v.totalShares > 0 && At(v.shares, sender) <= v.totalShares && other != sender
    requires Apply(v, sender, Deposit(amount)).Some?
    ensures var d := Apply(v, sender, Deposit(amount)).value;
            && MaxWithdraw(d, sender) <= MaxWithdraw(v, sender) + amount
            && (v.perUserCap > 0 ==> MaxWithdraw(d, sender) <= v.perUserCap)
            && (v.tvlCap > 0 ==> d.totalAssets <= v.tvlCap)
            && MaxWithdraw(v, other) <= MaxWithdraw(d, other)
  {
    hide Scale, ToShares;
    DepositorValue(amount, At(v.shares, sender), v.totalShares, v.totalAssets);
    DepositLowersNobody(v, sender, amount, other);
  }

  /** A deposit into a vault with shares is worth its amount, less one unit and one share price at most. */
  lemma DepositIsWorthIt(v: State, sender: Address, amount: nat)
    requires v.totalShares > 0 && Apply(v, sender, Deposit(amount)).Some?
    ensures var d := Apply(v, sender, Deposit(amount)).value;
            (MaxWithdraw(v, sender) + amount - MaxWithdraw(d, sender) - 1) * (v.totalShares + SHARE_OFFSET)
            < v.totalAssets + SHARE_OFFSET
  {
    hide Scale, ToShares;
    DepositorKeepsValue(amount, At(v.shares, sender), v.totalShares, v.totalAssets);
  }

  /** Exactly when a capped deposit leaves the depositor within the cap: there were shares, or what an empty vault still
    * books does not lift the first depositor above it. */
  lemma DepositKeepsCapIff(v: State, sender: Address, amount: nat)
    requires v.perUserCap > 0 && At(v.shares, sender) <= v.totalShares
    requires Apply(v, sender, Deposit(amount)).Some?
    ensures MaxWithdraw(Apply(v, sender, Deposit(amount)).value, sender) <= v.perUserCap <==>
              v.totalShares > 0
              || amount * (v.totalAssets + amount + SHARE_OFFSET) < (v.perUserCap + 1) * (amount + SHARE_OFFSET)
  {
    if v.totalShares > 0 {
      DepositWithinCap(v, sender, amount, sender + 1);
    } else {
      FloorAtMostIff(amount, v.totalAssets + amount + SHARE_OFFSET, amount + SHARE_OFFSET, v.perUserCap);
    }
  }

  lemma FloorAtMostIff(x: nat, num: nat, den: nat, cap: nat)
    requires den > 0
    ensures Scale(x, num, den) <= cap <==> x * num < (cap + 1) * den
  {
    ScaleBounds(x, num, den);
    if Scale(x, num, den) <= cap {
      Cancel(Scale(x, num, den) + 1, cap + 1, den);
    } else {
      Cancel(cap + 1, Scale(x, num, den), den);
    }
  }

  // ---- allocate ----

  /** Allocating never reverts, conserves tokens and takes idle below neither the reserve nor what was there. */
  lemma AllocateKeepsReserve(v: State)
    requires Healthy(v)
    ensures Apply(v, v.owner, Allocate).Some?
    ensures var w := Apply(v, v.owner, Allocate).value;
            var moved := Balance(v) - Balance(w);
            && 0 <= moved <= Deployable(v)
            && (moved > 0 ==> Reserve(v.totalAssets) <= Balance(w) && v.totalAssets < 10 * (Balance(w) + 1))
            && Sum(v.pool.strats.Keys, Of(w.pool.token)) == Sum(v.pool.strats.Keys, Of(v.pool.token)) + moved
            && (forall s: Address :: s != v.self && !Live(v, s) ==> At(w.pool.token, s) == At(v.pool.token, s))
            && w == v.(pool := v.pool.(token := w.pool.token))
  {
    hide Wired, Scale;
    ScaleBounds(v.totalAssets, RESERVE_BPS, BPS);
    var active := LiveCount(v, v.strategyList);
    if Deployable(v) > 0 && active > 0 {
      var per := Deployable(v) / active;
      AllInstalmentsMultiply(v, v.strategyList, per);
      FloorShare(Deployable(v), active);
      AllocateLoopMoves(v, v.pool, v.strategyList, per);
    }
  }

  lemma FloorShare(x: nat, d: nat)
    requires d > 0
    ensures x / d * d <= x < x / d * d + d
  {
  }

  lemma FloorIs(x: nat, d: nat, q: nat)
    requires d > 0 && q * d <= x < (q + 1) * d
    ensures x / d == q
  {
    FloorShare(x, d);
    Cancel(q, x / d + 1, d);
    Cancel(x / d, q + 1, d);
  }

  /** All but a remainder of less than one unit a strategy is moved, in equal parts: every live listing gets `per`, where
    * what lies above the reserve is `per` for each of them and less than one more. */
  lemma AllocateMovesParts(v: State, per: nat, s: Address)
    requires Healthy(v) && LiveCount(v, v.strategyList) > 0 && Balance(v) > Reserve(v.totalAssets)
    requires per * LiveCount(v, v.strategyList) <= Balance(v) - Reserve(v.totalAssets) < (per + 1) * LiveCount(v, v.strategyList)
    requires s != v.self
    ensures Apply(v, v.owner, Allocate).Some?
    ensures var w := Apply(v, v.owner, Allocate).value;
            && Balance(w) == Balance(v) - per * LiveCount(v, v.strategyList)
            && At(w.pool.token, s) == At(v.pool.token, s) + (if Live(v, s) then Instalments(v.strategyList, s, per) else 0)
  {
    hide Wired, Reserve, LiveCount, AllocateLoop, Instalments, Sum, Of;
    var active := LiveCount(v, v.strategyList);
    FloorIs(Deployable(v), active, per);
    assert active > 0 && Deployable(v) > 0;
    AllInstalmentsMultiply(v, v.strategyList, per);
    AllocateLoopMoves(v, v.pool, v.strategyList, per);
  }

  /** Exactly when the owner's calls go through, and what each of them sets. */
  lemma OwnerBooks(v: State, sender: Address, amount: nat)
    ensures var o := Apply(v, sender, CreditYield(amount));
            && (o.Some? <==> sender == v.owner && 0 < amount <= Balance(v))
            && (o.Some? ==> o.value == v.(totalAssets := v.totalAssets + amount))
    ensures var o := Apply(v, sender, ReportLoss(amount));
            && (o.Some? <==> sender == v.owner && amount <= v.totalAssets)
            && (o.Some? ==> o.value == v.(totalAssets := v.totalAssets - amount))
  {
  }

  /** An emergency withdrawal completes exactly for the owner while the books cover what is idle; all of it goes to the
    * owner and off the books, and nothing else changes. */
  lemma EmergencyPaysOwner(v: State, sender: Address, a: Address)
    requires v.owner != v.self
    ensures var o := Apply(v, sender, EmergencyWithdraw);
            && (o.Some? <==> sender == v.owner && Balance(v) <= v.totalAssets)
            && (o.Some? ==>
                  && o.value == v.(totalAssets := v.totalAssets - Balance(v), pool := v.pool.(token := o.value.pool.token))
                  && At(o.value.pool.token, a) == if a == v.self then 0
                                                  else At(v.pool.token, a) + (if a == v.owner then Balance(v) else 0))
  {
  }

  /** The owner's sweep of one live strategy is that strategy's turn in the loop, and nothing else changes. */
  lemma HarvestStrategySweeps(v: State, sender: Address, s: Address, env: Env)
    ensures var o := Apply(v, sender, HarvestStrategy(s, env));
            && (o.Some? <==> sender == v.owner && s in v.strategies && s in v.strategyActive
                             && HarvestOne(v.pool, v.self, s, env).Some?)
            && (o.Some? ==> o.value == v.(pool := HarvestOne(v.pool, v.self, s, env).value))
  {
    hide HarvestOne;
  }

  lemma OwnerConfigures(v: State, sender: Address, amount: nat, cap: nat, flag: bool)
    ensures var o := Apply(v, sender, SetPerformanceFee(amount));
            && (o.Some? <==> sender == v.owner && amount <= 10000)
            && (o.Some? ==> o.value == v.(performanceFee := amount))
    ensures var o := Apply(v, sender, SetCaps(amount, cap));
            && (o.Some? <==> sender == v.owner) && (o.Some? ==> o.value == v.(tvlCap := amount, perUserCap := cap))
    ensures var o := Apply(v, sender, SetDepositsPaused(flag));
            && (o.Some? <==> sender == v.owner) && (o.Some? ==> o.value == v.(depositsPaused := flag))
  {
  }

  lemma OwnerLists(v: State, sender: Address, s: Address, flag: bool)
    ensures var o := Apply(v, sender, SetStrategyActive(s, flag));
            && (o.Some? <==> sender == v.owner && s in v.strategies)
            && (o.Some? ==> o.value == v.(strategyActive := o.value.strategyActive)
                            && forall r: Address :: r in o.value.strategyActive <==> if r == s then flag else r in v.strategyActive)
    ensures var o := Apply(v, sender, AddStrategy(s));
            && (o.Some? <==> sender == v.owner && s != 0)
            && (o.Some? ==> Live(o.value, s) && o.value.strategyList == v.strategyList + [s]
                            && forall r: Address :: r != s ==> (Live(o.value, r) <==> Live(v, r)))
  {
  }

  // ---- harvest ----

  lemma FeeWithinProfit(profit: nat, performanceFee: nat)
    requires performanceFee <= BPS
    ensures FeeOn(profit, performanceFee) <= profit
  {
    ScaleBounds(profit, performanceFee, BPS);
    assert profit * performanceFee <= profit * BPS by {
      if profit > 0 { Cancel(performanceFee, BPS, profit); }
    }
    Cancel(FeeOn(profit, performanceFee), profit, BPS);
  }

  /** A harvest goes through exactly when every live address of the list holds a contract, be it a strategy, the vault
    * itself or any other; an address without code blocks the harvest of all. */
  lemma HarvestCompletesIff(v: State, sender: Address, env: Env)
    requires Wired(v, v.pool) && v.performanceFee <= BPS
    ensures Apply(v, sender, Harvest(env)).Some? <==>
              forall s :: s in v.strategyList && Live(v, s) ==> HasCode(v, v.pool, s)
  {
    hide Wired, CreditSpec, HarvestLoop, Swept, Settled;
    HarvestLoopEndsIff(v, v.pool, v.strategyList, env);
    if HarvestLoop(v, v.pool, v.strategyList, env).Some? {
      HarvestGains(v, env);
      CreditMoves(v, HarvestLoop(v, v.pool, v.strategyList, env).value);
    }
  }

  /** What the funding sources were asked for and paid, by strategy, in one harvest of the vault. */
  ghost function BookedIn(v: State, env: Env): Address -> int {
    (s: Address) => LoopDues(v, v.pool, v.strategyList, env, s).booked
  }

  ghost function PaidIn(v: State, env: Env): Address -> int {
    (s: Address) => LoopDues(v, v.pool, v.strategyList, env, s).paid
  }

  /** What strategies swept to the vault from `v` to `w`. */
  ghost function Landed(v: State, w: State): int {
    Sum(v.pool.strats.Keys, DebtOf(w.pool.strats)) - Sum(v.pool.strats.Keys, DebtOf(v.pool.strats))
  }

  /** The pool after the loop, before the fee leaves. */
  lemma HarvestGains(v: State, env: Env)
    requires Wired(v, v.pool) && HarvestLoop(v, v.pool, v.strategyList, env).Some?
    ensures var p := HarvestLoop(v, v.pool, v.strategyList, env).value;
            && Swept(v, v.pool, p)
            && (forall s :: s in v.pool.strats ==> Settled(v.pool, p, s, LoopDues(v, v.pool, v.strategyList, env, s)))
            && Wired(v, p)
            && Balance(v) <= At(p.token, v.self)
  {
    hide Wired, Sum;
    HarvestLoopSweeps(v, v.pool, v.strategyList, env);
    var p := HarvestLoop(v, v.pool, v.strategyList, env).value;
    forall s | s in v.pool.strats ensures Settled(v.pool, p, s, LoopDues(v, v.pool, v.strategyList, env, s)) {
      HarvestLoopSettles(v, v.pool, v.strategyList, env, s);
    }
    SumAtMost(v.pool.strats.Keys, DebtOf(v.pool.strats), DebtOf(p.strats));
  }

  /** Over deployed strategies a harvest never reverts. What landed, less the floor fee, stays in the vault and on its
    * books, and exactly the fee leaves, to the fee distributor. */
  lemma HarvestCreditsWhatLanded(v: State, sender: Address, env: Env)
    requires Healthy(v)
    ensures Apply(v, sender, Harvest(env)).Some?
    ensures var w := Apply(v, sender, Harvest(env)).value;
            var landed := Landed(v, w);
            && landed >= 0
            && var fee := FeeOn(landed, v.performanceFee);
            && fee <= landed
            && fee * BPS <= landed * v.performanceFee < (fee + 1) * BPS
            && Balance(w) == Balance(v) + landed - fee
            && w.totalAssets == v.totalAssets + landed - fee
            && At(w.pool.token, v.feeDistributor) == At(v.pool.token, v.feeDistributor) + fee
            && w == v.(pool := w.pool, totalAssets := w.totalAssets)
  {
    hide Wired, Sum, CreditSpec, HarvestLoop, Settled, DebtOf;
    HarvestLoopEndsIff(v, v.pool, v.strategyList, env);
    HarvestGains(v, env);
    CreditMoves(v, HarvestLoop(v, v.pool, v.strategyList, env).value);
  }

  /** Each strategy's books and tokens follow what was booked there, what was paid there and what it swept. */
  lemma HarvestFollowsDues(v: State, sender: Address, env: Env, s: Address)
    requires Healthy(v) && Apply(v, sender, Harvest(env)).Some?
    ensures var w := Apply(v, sender, Harvest(env)).value;
            && w.pool.strats.Keys == v.pool.strats.Keys
            && Wired(w, w.pool)
            && (s in v.pool.strats ==> Settled(v.pool, w.pool, s, LoopDues(v, v.pool, v.strategyList, env, s)))
  {
    hide Sum, CreditSpec, HarvestLoop, Settled, DebtOf, LoopDues;
    HarvestGains(v, env);
    var p := HarvestLoop(v, v.pool, v.strategyList, env).value;
    CreditMoves(v, p);
    var w := CreditSpec(v, p).value;
    WiredFollows(v, p, w);
    if s in v.pool.strats {
      SettledToo(v.pool, p, w.pool, s, LoopDues(v, v.pool, v.strategyList, env, s));
    }
  }

  lemma SettledToo(p: Pool, q: Pool, r: Pool, s: Address, f: Dues)
    requires s in p.strats && s in q.strats && r.strats == q.strats && At(r.token, s) == At(q.token, s)
    requires Settled(p, q, s, f)
    ensures Settled(p, r, s, f)
  {
  }

  /** The fee is the floor of its part and all that leaves. */
  lemma CreditMoves(v: State, p: Pool)
    requires Wired(v, p) && v.performanceFee <= BPS && Balance(v) <= At(p.token, v.self)
    ensures CreditSpec(v, p).Some?
    ensures var w := CreditSpec(v, p).value;
            var landed := At(p.token, v.self) - Balance(v);
            var fee := FeeOn(landed, v.performanceFee);
            && fee <= landed
            && fee * BPS <= landed * v.performanceFee < (fee + 1) * BPS
            && Balance(w) == Balance(v) + landed - fee
            && w.totalAssets == v.totalAssets + landed - fee
            && At(w.pool.token, v.feeDistributor) == At(p.token, v.feeDistributor) + fee
            && w == v.(pool := w.pool, totalAssets := w.totalAssets)
            && w.pool.strats == p.strats
            && forall s :: s in p.strats ==> At(w.pool.token, s) == At(p.token, s)
  {
    hide Scale;
    var landed := At(p.token, v.self) - Balance(v);
    FeeWithinProfit(landed, v.performanceFee);
    ScaleBounds(landed, v.performanceFee, BPS);
    TransferMoves(p.token, v.self, v.feeDistributor, FeeOn(landed, v.performanceFee));
  }

  /** Where it came from: what landed is the funding booked in this harvest and the fall of the funding accrued before,
    * and the strategies hold what they were paid less what they swept. */
  lemma LandedIsFunding(v: State, sender: Address, env: Env)
    requires Healthy(v) && Apply(v, sender, Harvest(env)).Some?
    ensures var w := Apply(v, sender, Harvest(env)).value;
            var us := v.pool.strats.Keys;
            && Landed(v, w) == Sum(us, BookedIn(v, env)) + Sum(us, AccruedOf(v.pool.strats)) - Sum(us, AccruedOf(w.pool.strats))
            && Sum(us, Of(w.pool.token)) == Sum(us, Of(v.pool.token)) + Sum(us, PaidIn(v, env)) - Landed(v, w)
  {
    hide Wired, Sum, FeeOn, Apply;
    var w := Apply(v, sender, Harvest(env)).value;
    HarvestFollowsDues(v, sender, env, 0);
    forall s | s in v.pool.strats
      ensures Settled(v.pool, w.pool, s, Dues(BookedIn(v, env)(s), PaidIn(v, env)(s)))
    {
      HarvestFollowsDues(v, sender, env, s);
    }
    SettledSums(v.pool, w.pool, BookedIn(v, env), PaidIn(v, env));
  }

  lemma SettledSums(p: Pool, q: Pool, booked: Address -> int, paid: Address -> int)
    requires q.strats.Keys == p.strats.Keys
    requires forall s :: s in p.strats ==>
               0 <= booked(s) && 0 <= paid(s) && Settled(p, q, s, Dues(booked(s), paid(s)))
    ensures var us := p.strats.Keys;
            var landed := Sum(us, DebtOf(q.strats)) - Sum(us, DebtOf(p.strats));
            && landed == Sum(us, booked) + Sum(us, AccruedOf(p.strats)) - Sum(us, AccruedOf(q.strats))
            && Sum(us, Of(q.token)) == Sum(us, Of(p.token)) + Sum(us, paid) - landed
  {
    hide Sum;
    var us := p.strats.Keys;
    ghost var swept := (s: Address) => DebtOf(q.strats)(s) - DebtOf(p.strats)(s);
    ghost var drawn := (s: Address) => booked(s) - AccruedOf(q.strats)(s);
    ghost var kept := (s: Address) => Of(p.token)(s) + paid(s);
    SumLinear(us, DebtOf(q.strats), DebtOf(p.strats), -1, swept);
    SumLinear(us, booked, AccruedOf(q.strats), -1, drawn);
    SumLinear(us, drawn, AccruedOf(p.strats), 1, swept);
    SumLinear(us, Of(p.token), paid, 1, kept);
    SumLinear(us, kept, swept, -1, Of(q.token));
  }

  /** The owner may list an address without code; the next harvest reverts whatever the others hold. */
  lemma CodelessStrategyBlocksHarvest(env: Env)
    ensures var v := Apply(Deployed(1, 2, 3, Pool(map[], map[], {})), 2, AddStrategy(9));
            v.Some? && Apply(v.value, 4, Harvest(env)).None?
  {
    var v := Apply(Deployed(1, 2, 3, Pool(map[], map[], {})), 2, AddStrategy(9)).value;
    assert 9 in v.strategyList && Live(v, 9);
    HarvestCompletesIff(v, 4, env);
  }

  /** Listing the vault itself, or any contract that is no strategy, does not. */
  lemma ListedContractIsSkipped(v: State, s: Address, env: Env)
    requires s != 0 && v == Deployed(1, 2, 3, Pool(map[], map[], {3}))
    ensures var w := Apply(v, 2, AddStrategy(s));
            && w.Some?
            && (Apply(w.value, 4, Harvest(env)).Some? <==> s == 1 || s == 3)
  {
    var w := Apply(v, 2, AddStrategy(s)).value;
    assert s in w.strategyList && Live(w, s);
    HarvestCompletesIff(w, 4, env);
  }

  lemma WiredFollows(v: State, p: Pool, w: State)
    requires Wired(v, p)
    requires w.self == v.self && w.feeDistributor == v.feeDistributor && w.pool.strats == p.strats
    ensures Wired(w, w.pool)
  {
    forall s | s in w.pool.strats ensures Outsourced(w, w.pool, s) {
      assert Outsourced(v, p, s);
    }
  }
}
