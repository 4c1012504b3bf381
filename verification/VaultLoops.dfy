/** What the loops over the strategy list do to the tokens. */
module VaultLoops {
  import opened Common
  import opened VaultMath
  import opened Vault
  import DN = DeltaNeutral

  /** One instalment of `per` for each time `s` is listed. */
  function Instalments(list: seq<Address>, s: Address, per: nat): nat {
    if list == [] then 0 else (if list[0] == s then per else 0) + Instalments(list[1..], s, per)
  }

  /** One instalment for each live entry of the list. */
  function AllInstalments(v: State, list: seq<Address>, per: nat): nat {
    if list == [] then 0 else (if Live(v, list[0]) then per else 0) + AllInstalments(v, list[1..], per)
  }

  lemma {:induction false} AllInstalmentsMultiply(v: State, list: seq<Address>, per: nat)
    ensures AllInstalments(v, list, per) == per * LiveCount(v, list)
  {
    if list != [] {
      AllInstalmentsMultiply(v, list[1..], per);
      assert per * (1 + LiveCount(v, list[1..])) == per + per * LiveCount(v, list[1..]);
    }
  }

  /** The vault and its fee distributor are no strategies; a strategy answers to this vault or to nobody, and its
    * funding is paid from outside the protocol. */
  ghost predicate Wired(v: State, p: Pool) {
    && v.self != 0 && 0 !in p.strats && v.self !in p.strats && v.feeDistributor !in p.strats && v.feeDistributor != v.self
    && forall s :: s in p.strats ==> Outsourced(v, p, s)
  }

  ghost predicate Outsourced(v: State, p: Pool, s: Address)
    requires s in p.strats
  {
    && (p.strats[s].vault == v.self || p.strats[s].vault == 0)
    && p.strats[s].fundingSource !in p.strats
    && p.strats[s].fundingSource != v.self
    && p.strats[s].fundingSource != v.feeDistributor
  }

  // ---- recall ----

  /** One recall moves tokens from that strategy to the vault and nowhere else. */
  ghost predicate Pulled(v: State, p: Pool, q: Pool, got: int) {
    && q.strats == p.strats
    && got >= 0
    && At(q.token, v.self) == At(p.token, v.self) + got
    && Sum(p.strats.Keys, Of(q.token)) == Sum(p.strats.Keys, Of(p.token)) - got
    && forall a: Address :: a != v.self && !(Live(v, a) && a in p.strats) ==> At(q.token, a) == At(p.token, a)
  }

  lemma RecallOnce(v: State, p: Pool, s: Address, per: nat)
    requires Wired(v, p) && Live(v, s) && RecallFrom(p, v.self, s, per).Some?
    ensures var q := RecallFrom(p, v.self, s, per).value;
            var got := if per > At(p.token, s) then At(p.token, s) else per;
            && Pulled(v, p, q, got)
            && At(q.token, s) == At(p.token, s) - got
            && Wired(v, q)
            && forall a: Address :: a != v.self && a != s ==> At(q.token, a) == At(p.token, a)
  {
    var got := if per > At(p.token, s) then At(p.token, s) else per;
    assert forall r :: r in p.strats ==> Outsourced(v, p, r);
    if got > 0 {
      TransferMoves(p.token, s, v.self, got);
      TransferSum(p.strats.Keys, p.token, s, v.self, got);
    }
  }

  /** The loop conserves tokens, never touches a paused strategy and overshoots by less than one instalment. */
  lemma {:induction false} RecallLoopSound(v: State, p: Pool, list: seq<Address>, idle: nat, missing: nat, per: nat)
    requires Wired(v, p) && idle == At(p.token, v.self)
    requires RecallLoop(v, p, list, idle, missing, per).Some?
    ensures var q := RecallLoop(v, p, list, idle, missing, per).value;
            var got := At(q.token, v.self) - idle;
            Pulled(v, p, q, got) && (if missing == 0 then got == 0 else got < missing + per)
    decreases |list|
  {
    hide Wired, Sum, Of, RecallFrom;
    if list != [] && missing > 0 {
      if !Live(v, list[0]) {
        RecallLoopSound(v, p, list[1..], idle, missing, per);
      } else {
        RecallOnce(v, p, list[0], per);
        var q := RecallFrom(p, v.self, list[0], per).value;
        var got := At(q.token, v.self) - idle;
        RecallLoopSound(v, q, list[1..], idle + got, if got >= missing then 0 else missing - got, per);
      }
    }
  }

  /** Every live strategy can pay its instalments and answers to the vault. */
  ghost predicate CanPay(v: State, p: Pool, list: seq<Address>, per: nat) {
    forall s :: s in list && Live(v, s) ==>
                  s in p.strats && p.strats[s].vault == v.self && Instalments(list, s, per) <= At(p.token, s)
  }

  lemma {:induction false} RecallLoopReaches(v: State, p: Pool, list: seq<Address>, idle: nat, missing: nat, per: nat)
    requires Wired(v, p) && idle == At(p.token, v.self) && CanPay(v, p, list, per)
    ensures RecallLoop(v, p, list, idle, missing, per).Some?
    ensures missing <= AllInstalments(v, list, per) ==>
              idle + missing <= At(RecallLoop(v, p, list, idle, missing, per).value.token, v.self)
    decreases |list|
  {
    hide Wired;
    if list != [] && missing > 0 {
      var s, rest := list[0], list[1..];
      if !Live(v, s) {
        RecallLoopReaches(v, p, rest, idle, missing, per);
      } else {
        CanPayRest(v, p, list, per);
        var q := RecallFrom(p, v.self, s, per).value;
        RecallLoopReaches(v, q, rest, idle + per, if per >= missing then 0 else missing - per, per);
      }
    }
  }

  lemma CanPayRest(v: State, p: Pool, list: seq<Address>, per: nat)
    requires Wired(v, p) && list != [] && Live(v, list[0]) && CanPay(v, p, list, per)
    ensures RecallFrom(p, v.self, list[0], per).Some?
    ensures var q := RecallFrom(p, v.self, list[0], per).value;
            && At(q.token, v.self) == At(p.token, v.self) + per
            && Wired(v, q)
            && CanPay(v, q, list[1..], per)
  {
    var s, rest := list[0], list[1..];
    assert s in list && per <= Instalments(list, s, per);
    RecallOnce(v, p, s, per);
    var q := RecallFrom(p, v.self, s, per).value;
    forall r | r in rest && Live(v, r) ensures Instalments(rest, r, per) <= At(q.token, r) {
      assert r in list;
    }
  }

  /** A live address that does not answer the vault's recall: no strategy, or wired to another vault or none. */
  predicate Deaf(v: State, p: Pool, s: Address) {
    Live(v, s) && !(s in p.strats && p.strats[s].vault == v.self)
  }

  /** What one pass of instalments can bring in: each listing in turn gives up to `per` of what its strategy still has. */
  function Affordable(v: State, p: Pool, list: seq<Address>, per: nat): nat
    decreases |list|
  {
    if list == [] then 0
    else if !Live(v, list[0]) || Deaf(v, p, list[0]) then Affordable(v, p, list[1..], per)
    else
      var s, got := list[0], Least(per, At(p.token, list[0]));
      got + Affordable(v, p.(token := Put(p.token, s, At(p.token, s) - got)), list[1..], per)
  }

  /** The pass is over before it comes to an address that does not answer. */
  ghost predicate Answered(v: State, p: Pool, list: seq<Address>, missing: nat, per: nat) {
    forall i :: 0 <= i < |list| && Deaf(v, p, list[i]) ==> missing <= Affordable(v, p, list[..i], per)
  }

  lemma {:induction false} AffordableUnchanged(v: State, p: Pool, q: Pool, list: seq<Address>, per: nat)
    requires q.strats == p.strats && forall s :: s in p.strats ==> At(q.token, s) == At(p.token, s)
    ensures Affordable(v, q, list, per) == Affordable(v, p, list, per)
    decreases |list|
  {
    if list != [] {
      if !Live(v, list[0]) || Deaf(v, p, list[0]) {
        AffordableUnchanged(v, p, q, list[1..], per);
      } else {
        var s, got := list[0], Least(per, At(p.token, list[0]));
        AffordableUnchanged(v, p.(token := Put(p.token, s, At(p.token, s) - got)),
                            q.(token := Put(q.token, s, At(q.token, s) - got)), list[1..], per);
      }
    }
  }

  lemma AnswersRecall(v: State, p: Pool, s: Address, per: nat)
    requires Wired(v, p) && Live(v, s) && !Deaf(v, p, s)
    ensures RecallFrom(p, v.self, s, per).Some? && s in p.strats && v.self !in p.strats
  {
  }

  /** One listing that answers, and what the rest of the list can still bring in. */
  lemma AffordableAfter(v: State, p: Pool, list: seq<Address>, per: nat)
    requires Wired(v, p) && list != [] && Live(v, list[0]) && !Deaf(v, p, list[0])
    ensures RecallFrom(p, v.self, list[0], per).Some?
    ensures var q, got := RecallFrom(p, v.self, list[0], per).value, Least(per, At(p.token, list[0]));
            && At(q.token, v.self) == At(p.token, v.self) + got
            && q.strats == p.strats && Wired(v, q)
            && Affordable(v, p, list, per) == got + Affordable(v, q, list[1..], per)
  {
    hide Wired, RecallFrom, Sum;
    var s, got := list[0], Least(per, At(p.token, list[0]));
    AnswersRecall(v, p, s, per);
    RecallOnce(v, p, s, per);
    AffordableUnchanged(v, p.(token := Put(p.token, s, At(p.token, s) - got)), RecallFrom(p, v.self, s, per).value,
                        list[1..], per);
  }

  /** The condition on the prefixes of a list is one on its first entry and on the prefixes of the rest. */
  lemma AnsweredAfter(v: State, p: Pool, list: seq<Address>, missing: nat, per: nat)
    requires Wired(v, p) && list != [] && missing > 0
    ensures Deaf(v, p, list[0]) ==> !Answered(v, p, list, missing, per)
    ensures !Live(v, list[0]) ==> (Answered(v, p, list, missing, per) <==> Answered(v, p, list[1..], missing, per))
    ensures Live(v, list[0]) && !Deaf(v, p, list[0]) ==>
              RecallFrom(p, v.self, list[0], per).Some?
    ensures Live(v, list[0]) && !Deaf(v, p, list[0]) ==>
              (Answered(v, p, list, missing, per) <==>
               Answered(v, RecallFrom(p, v.self, list[0], per).value, list[1..],
                        Minus(missing, Least(per, At(p.token, list[0]))), per))
  {
    hide Wired, RecallFrom;
    var rest := list[1..];
    assert list[..0] == [];
    forall i | 0 <= i < |rest| ensures list[..i + 1][1..] == rest[..i] && list[i + 1] == rest[i] {
    }
    if Live(v, list[0]) && !Deaf(v, p, list[0]) {
      AffordableAfter(v, p, list, per);
      forall i | 0 <= i < |rest|
        ensures Affordable(v, p, list[..i + 1], per)
             == Least(per, At(p.token, list[0])) + Affordable(v, RecallFrom(p, v.self, list[0], per).value, rest[..i], per)
      {
        AffordableAfter(v, p, list[..i + 1], per);
      }
    }
  }

  /** Exactly when the single pass of equal instalments gets through, when it covers the shortfall, and what it raises
    * when it does not. */
  lemma {:induction false} RecallLoopReachesIff(v: State, p: Pool, list: seq<Address>, idle: nat, missing: nat,
                                                per: nat)
    requires Wired(v, p) && idle == At(p.token, v.self)
    ensures RecallLoop(v, p, list, idle, missing, per).Some? <==> Answered(v, p, list, missing, per)
    ensures RecallLoop(v, p, list, idle, missing, per).Some? ==>
              var after := At(RecallLoop(v, p, list, idle, missing, per).value.token, v.self);
              && (idle + missing <= after <==> missing <= Affordable(v, p, list, per))
              && (Affordable(v, p, list, per) < missing ==> after == idle + Affordable(v, p, list, per))
    decreases |list|
  {
    hide Wired, RecallFrom, Answered;
    if list == [] || missing == 0 {
      NothingMissing(v, p, list, missing, per);
    } else {
      var s, rest := list[0], list[1..];
      AnsweredAfter(v, p, list, missing, per);
      if !Live(v, s) {
        RecallLoopReachesIff(v, p, rest, idle, missing, per);
      } else if Deaf(v, p, s) {
        DeafReverts(v, p, s, per);
      } else {
        AffordableAfter(v, p, list, per);
        var q := RecallFrom(p, v.self, s, per).value;
        var got := At(q.token, v.self) - idle;
        RecallLoopReachesIff(v, q, rest, idle + got, if got >= missing then 0 else missing - got, per);
      }
    }
  }

  lemma NothingMissing(v: State, p: Pool, list: seq<Address>, missing: nat, per: nat)
    requires list == [] || missing == 0
    ensures Answered(v, p, list, missing, per)
  {
  }

  lemma DeafReverts(v: State, p: Pool, s: Address, per: nat)
    requires Wired(v, p) && Deaf(v, p, s)
    ensures RecallFrom(p, v.self, s, per).None?
  {
  }

  // ---- allocate ----

  lemma {:induction false} AllocateLoopMoves(v: State, p: Pool, list: seq<Address>, per: nat)
    requires Wired(v, p) && (forall s :: s in list && Live(v, s) ==> s in p.strats)
    requires AllInstalments(v, list, per) <= At(p.token, v.self)
    ensures AllocateLoop(v, p.token, list, per).Some?
    ensures var t := AllocateLoop(v, p.token, list, per).value;
            && At(t, v.self) == At(p.token, v.self) - AllInstalments(v, list, per)
            && Sum(p.strats.Keys, Of(t)) == Sum(p.strats.Keys, Of(p.token)) + AllInstalments(v, list, per)
            && forall a: Address :: a != v.self ==>
                 At(t, a) == At(p.token, a) + (if Live(v, a) then Instalments(list, a, per) else 0)
    decreases |list|
  {
    if list != [] {
      var s, rest := list[0], list[1..];
      if !Live(v, s) || per == 0 {
        AllocateLoopMoves(v, p, rest, per);
      } else {
        assert s in list;
        var u := Transfer(p.token, v.self, s, per).value;
        TransferMoves(p.token, v.self, s, per);
        TransferSum(p.strats.Keys, p.token, v.self, s, per);
        hide Transfer, Sum, Of;
        AllocateLoopMoves(v, p.(token := u), rest, per);
      }
    }
  }

  // ---- harvest ----

  /** What a strategy holds beyond the funding it has booked. */
  function Principal(p: Pool, s: Address): int {
    if s in p.strats then At(p.token, s) - p.strats[s].accruedFunding else 0
  }

  /** Funding booked, and what its source paid for it. */
  datatype Dues = Dues(booked: nat, paid: nat)

  function DuesOf(d: DN.Strategy, now: nat, call: DN.Call): Dues {
    Dues(DN.Booked(d, now, call), DN.Paid(d, now, call))
  }

  /** The dues of one harvest of `s` by the vault. */
  function HarvestDues(p: Pool, s: Address, env: Env): Dues {
    if s !in p.strats then Dues(0, 0)
    else DuesOf(p.strats[s], env.now, DN.Harvest(Lookup(env.rates, s), Lookup(env.payments, s)))
  }

  /** The dues of `s` over the harvest loop. */
  function LoopDues(v: State, p: Pool, list: seq<Address>, env: Env, s: Address): Dues
    decreases |list|
  {
    if list == [] then Dues(0, 0)
    else if !Live(v, list[0]) || HarvestOne(p, v.self, list[0], env).None? then LoopDues(v, p, list[1..], env, s)
    else
      var rest := LoopDues(v, HarvestOne(p, v.self, list[0], env).value, list[1..], env, s);
      if s != list[0] then rest
      else Dues(rest.booked + HarvestDues(p, s, env).booked, rest.paid + HarvestDues(p, s, env).paid)
  }

  /** The funding each strategy has not swept yet. */
  ghost function AccruedOf(strats: map<Address, DN.Strategy>): Address -> int {
    (s: Address) => if s in strats then strats[s].accruedFunding else 0
  }

  /** What each strategy has swept to its vault so far. */
  ghost function DebtOf(strats: map<Address, DN.Strategy>): Address -> int {
    (s: Address) => if s in strats then strats[s].totalDebt else 0
  }

  /** A strategy's books and tokens follow the dues `f` and what it swept. */
  ghost predicate Settled(p: Pool, q: Pool, s: Address, f: Dues)
    requires s in p.strats && s in q.strats
  {
    var d, d' := p.strats[s], q.strats[s];
    && d.totalDebt <= d'.totalDebt
    && d'.accruedFunding + d'.totalDebt == d.accruedFunding + d.totalDebt + f.booked
    && At(q.token, s) + d'.totalDebt == At(p.token, s) + d.totalDebt + f.paid
  }

  /** The vault gained what the strategies swept. */
  ghost predicate Swept(v: State, p: Pool, q: Pool) {
    && q.strats.Keys == p.strats.Keys
    && Wired(v, q)
    && At(q.token, v.feeDistributor) == At(p.token, v.feeDistributor)
    && At(q.token, v.self) - At(p.token, v.self) == Sum(p.strats.Keys, DebtOf(q.strats)) - Sum(p.strats.Keys, DebtOf(p.strats))
  }

  lemma HarvestTokens(v: State, p: Pool, s: Address, env: Env)
    requires Wired(v, p) && HarvestOne(p, v.self, s, env).Some?
    ensures var q := HarvestOne(p, v.self, s, env).value;
            var d, d' := p.strats[s], q.strats[s];
            && q.strats == p.strats[s := d']
            && d'.vault == d.vault && d'.fundingSource == d.fundingSource
            && Settled(p, q, s, HarvestDues(p, s, env))
            && At(q.token, v.self) == At(p.token, v.self) + d'.totalDebt - d.totalDebt
            && forall a: Address :: a != s && a != v.self && a != d.fundingSource ==> At(q.token, a) == At(p.token, a)
  {
    assert Outsourced(v, p, s);
    hide DN.Funding, DN.Clamp;
  }

  lemma HarvestOnce(v: State, p: Pool, s: Address, env: Env)
    requires Wired(v, p) && HarvestOne(p, v.self, s, env).Some?
    ensures Swept(v, p, HarvestOne(p, v.self, s, env).value)
  {
    hide HarvestOne, HarvestDues, Sum, Settled, Wired, DebtOf;
    HarvestTokens(v, p, s, env);
    StrategyHarvested(p, v.self, s, env);
    var q := HarvestOne(p, v.self, s, env).value;
    OneDebt(p.strats, s, q.strats[s]);
    OneSettled(v, p, q, s);
  }

  lemma OneDebt(strats: map<Address, DN.Strategy>, s: Address, d: DN.Strategy)
    requires s in strats
    ensures Sum(strats.Keys, DebtOf(strats[s := d])) == Sum(strats.Keys, DebtOf(strats)) + d.totalDebt - strats[s].totalDebt
  {
    hide Sum;
    SumUpdate(strats.Keys, DebtOf(strats), DebtOf(strats[s := d]), s);
  }

  /** A pool with one strategy updated, its wiring kept. */
  lemma OneSettled(v: State, p: Pool, q: Pool, s: Address)
    requires Wired(v, p) && s in p.strats && s in q.strats && q.strats == p.strats[s := q.strats[s]]
    requires q.strats[s].vault == p.strats[s].vault && q.strats[s].fundingSource == p.strats[s].fundingSource
    ensures Wired(v, q) && q.strats.Keys == p.strats.Keys
    ensures p.strats[s].fundingSource != v.feeDistributor && s != v.feeDistributor && v.self != v.feeDistributor
  {
    assert Outsourced(v, p, s);
    forall r | r in q.strats ensures Outsourced(v, q, r) {
      assert Outsourced(v, p, r);
    }
  }

  lemma StrategyHarvested(p: Pool, self: Address, s: Address, env: Env)
    requires HarvestOne(p, self, s, env).Some?
    ensures s in p.strats
  {
  }

  /** The other strategies stay as they are. */
  lemma HarvestSettles(v: State, p: Pool, s: Address, env: Env, r: Address)
    requires Wired(v, p) && HarvestOne(p, v.self, s, env).Some? && r in p.strats
    ensures r in HarvestOne(p, v.self, s, env).value.strats && Wired(v, HarvestOne(p, v.self, s, env).value)
    ensures Settled(p, HarvestOne(p, v.self, s, env).value, r, if r == s then HarvestDues(p, s, env) else Dues(0, 0))
  {
    hide HarvestOne, HarvestDues, Sum, Wired;
    HarvestOnce(v, p, s, env);
    HarvestTokens(v, p, s, env);
    StrategyHarvested(p, v.self, s, env);
    PaidFromOutside(v, p, s, r);
  }

  lemma PaidFromOutside(v: State, p: Pool, s: Address, r: Address)
    requires Wired(v, p) && s in p.strats && r in p.strats
    ensures r != v.self && r != p.strats[s].fundingSource
  {
    assert Outsourced(v, p, s);
  }

  /** One turn of the loop. */
  lemma Unroll(v: State, p: Pool, list: seq<Address>, env: Env, s: Address)
    ensures list == [] ==> HarvestLoop(v, p, list, env) == Some(p) && LoopDues(v, p, list, env, s) == Dues(0, 0)
    ensures list != [] ==>
              var rest := list[1..];
              var o := HarvestOne(p, v.self, list[0], env);
              if Live(v, list[0]) && o.Some? then
                && HarvestLoop(v, p, list, env) == HarvestLoop(v, o.value, rest, env)
                && LoopDues(v, p, list, env, s) ==
                   (var f, g := if s == list[0] then HarvestDues(p, s, env) else Dues(0, 0),
                                LoopDues(v, o.value, rest, env, s);
                    Dues(f.booked + g.booked, f.paid + g.paid))
              else
                && (HarvestLoop(v, p, list, env).Some? ==> HarvestLoop(v, p, list, env) == HarvestLoop(v, p, rest, env))
                && LoopDues(v, p, list, env, s) == LoopDues(v, p, rest, env, s)
  {
    hide HarvestOne, HarvestDues;
    if list != [] && HarvestOne(p, v.self, list[0], env).Some? {
      StrategyHarvested(p, v.self, list[0], env);
    }
  }

  /** What the loop over the list brings the vault is what the strategies swept. */
  lemma {:induction false} HarvestLoopSweeps(v: State, p: Pool, list: seq<Address>, env: Env)
    requires Wired(v, p) && HarvestLoop(v, p, list, env).Some?
    ensures Swept(v, p, HarvestLoop(v, p, list, env).value)
    decreases |list|
  {
    hide Wired, HarvestOne, Sum, HarvestLoop, DebtOf;
    Unroll(v, p, list, env, 0);
    if list != [] {
      if Live(v, list[0]) && HarvestOne(p, v.self, list[0], env).Some? {
        var q := HarvestOne(p, v.self, list[0], env).value;
        HarvestOnce(v, p, list[0], env);
        HarvestLoopSweeps(v, q, list[1..], env);
      } else {
        HarvestLoopSweeps(v, p, list[1..], env);
      }
    }
  }

  lemma SettledTwice(p: Pool, q: Pool, r: Pool, s: Address, f: Dues, g: Dues)
    requires s in p.strats && s in q.strats && s in r.strats && Settled(p, q, s, f) && Settled(q, r, s, g)
    ensures Settled(p, r, s, Dues(f.booked + g.booked, f.paid + g.paid))
  {
  }

  /** Over the loop a strategy's accrued and swept funding grows by what was booked, its tokens by what was paid. */
  lemma {:induction false} HarvestLoopSettles(v: State, p: Pool, list: seq<Address>, env: Env, s: Address)
    requires Wired(v, p) && HarvestLoop(v, p, list, env).Some? && s in p.strats
    ensures s in HarvestLoop(v, p, list, env).value.strats
    ensures Settled(p, HarvestLoop(v, p, list, env).value, s, LoopDues(v, p, list, env, s))
    decreases |list|
  {
    hide Wired, HarvestOne, HarvestDues, Settled, HarvestLoop, LoopDues;
    Unroll(v, p, list, env, s);
    if list == [] {
      SettledByNothing(p, s);
    } else if Live(v, list[0]) && HarvestOne(p, v.self, list[0], env).Some? {
      var q := HarvestOne(p, v.self, list[0], env).value;
      HarvestSettles(v, p, list[0], env, s);
      HarvestLoopSettles(v, q, list[1..], env, s);
      var f := if s == list[0] then HarvestDues(p, s, env) else Dues(0, 0);
      SettledTwice(p, q, HarvestLoop(v, q, list[1..], env).value, s, f, LoopDues(v, q, list[1..], env, s));
    } else {
      HarvestLoopSettles(v, p, list[1..], env, s);
    }
  }

  lemma SettledByNothing(p: Pool, s: Address)
    requires s in p.strats
    ensures Settled(p, p, s, Dues(0, 0))
  {
  }

  /** Exactly when a strategy's turn in the loop goes through, and what it brings: the vault gets all accrued and new funding,
    * or all that the strategy then holds, if the strategy is wired to it. */
  lemma StrategyHarvests(v: State, p: Pool, s: Address, env: Env, due: nat)
    requires Wired(v, p) && s in p.strats
    requires s in env.rates ==> DN.IsDue(p.strats[s], Least(env.rates[s], DN.MAX_RATE_BPS), env.now, due)
    ensures var d, o := p.strats[s], HarvestOne(p, v.self, s, env);
            var payment := Lookup(env.payments, s);
            && (o.Some? <==> && d.isActive && s in env.rates && (v.self == d.owner || v.self == d.keeper || v.self == d.vault)
                             && DN.Settles(p.token, d, env.now, due, payment))
            && (o.Some? ==>
                  var held := At(p.token, s) + DN.Came(due, payment);
                  var swept := if d.vault == v.self then Least(d.accruedFunding + due, held) else 0;
                  && o.value == p.(token := o.value.token, strats := p.strats[s := o.value.strats[s]])
                  && o.value.strats[s].totalDebt == d.totalDebt + swept
                  && o.value.strats[s].accruedFunding == d.accruedFunding + due - swept
                  && At(o.value.token, s) == held - swept)
  {
    assert Outsourced(v, p, s);
    var d := p.strats[s];
    hide Wired, DN.Apply, DN.HarvestSpec, DN.IsDue, DN.Settles;
    HarvestIsCall(p.token, d, s, env.now, v.self, Lookup(env.rates, s), Lookup(env.payments, s));
    if s in env.rates {
      DN.HarvestPays(p.token, d, s, env.now, v.self, env.rates[s], Lookup(env.payments, s), due);
    } else {
      DN.HarvestNeedsRate(p.token, d, s, env.now, v.self, Lookup(env.payments, s));
    }
  }

  lemma HarvestIsCall(token: Ledger, d: DN.Strategy, s: Address, now: nat, sender: Address, rate: Option<nat>,
                      payment: Option<nat>)
    ensures DN.HarvestSpec(token, d, s, now, sender, rate, payment)
         == DN.Apply(token, d, s, now, sender, DN.Harvest(rate, payment))
  {
  }

  /** A harvest touches no other strategy's code. */
  lemma HarvestKeepsKeys(p: Pool, self: Address, s: Address, env: Env)
    requires HarvestOne(p, self, s, env).Some?
    ensures HarvestOne(p, self, s, env).value.strats.Keys == p.strats.Keys
    ensures HarvestOne(p, self, s, env).value.others == p.others
  {
    hide DN.HarvestSpec;
  }

  /** Exactly when the loop gets through: every live address of the list holds a contract. */
  lemma {:induction false} HarvestLoopEndsIff(v: State, p: Pool, list: seq<Address>, env: Env)
    ensures HarvestLoop(v, p, list, env).Some? <==> forall s :: s in list && Live(v, s) ==> HasCode(v, p, s)
    decreases |list|
  {
    hide HarvestOne;
    if list != [] {
      assert forall s :: s in list <==> s == list[0] || s in list[1..];
      if Live(v, list[0]) && HarvestOne(p, v.self, list[0], env).Some? {
        HarvestKeepsKeys(p, v.self, list[0], env);
        HarvestLoopEndsIff(v, HarvestOne(p, v.self, list[0], env).value, list[1..], env);
      } else {
        HarvestLoopEndsIff(v, p, list[1..], env);
      }
    }
  }

  /** The list without the paused strategies and without those whose harvest reverts when its turn comes. */
  function Landing(v: State, p: Pool, list: seq<Address>, env: Env): seq<Address>
    decreases |list|
  {
    if list == [] then []
    else if Live(v, list[0]) && HarvestOne(p, v.self, list[0], env).Some? then
      [list[0]] + Landing(v, HarvestOne(p, v.self, list[0], env).value, list[1..], env)
    else Landing(v, p, list[1..], env)
  }

  /** Harvesting without the safety net: any paused or reverting strategy fails the whole loop. */
  function HarvestAll(v: State, p: Pool, list: seq<Address>, env: Env): Option<Pool>
    decreases |list|
  {
    if list == [] then Some(p)
    else if !Live(v, list[0]) then None
    else
      match HarvestOne(p, v.self, list[0], env)
      case None => None
      case Some(q) => HarvestAll(v, q, list[1..], env)
  }

  /** Among contracts a broken or paused one never affects the others: the loop gets through and ends as if it
    * had not been listed. */
  lemma {:induction false} BrokenStrategiesDoNotMatter(v: State, p: Pool, list: seq<Address>, env: Env)
    requires forall s :: s in list && Live(v, s) ==> HasCode(v, p, s)
    ensures HarvestLoop(v, p, list, env).Some?
    ensures HarvestAll(v, p, Landing(v, p, list, env), env) == HarvestLoop(v, p, list, env)
    decreases |list|
  {
    hide HarvestOne;
    if list != [] {
      if Live(v, list[0]) && HarvestOne(p, v.self, list[0], env).Some? {
        var q := HarvestOne(p, v.self, list[0], env).value;
        HarvestKeepsKeys(p, v.self, list[0], env);
        BrokenStrategiesDoNotMatter(v, q, list[1..], env);
        assert ([list[0]] + Landing(v, q, list[1..], env))[1..] == Landing(v, q, list[1..], env);
      } else {
        BrokenStrategiesDoNotMatter(v, p, list[1..], env);
      }
    }
  }
}
