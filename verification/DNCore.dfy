/** DNCoreStrategy: principal and profit of funds bridged to HyperCore and back. Reads of the Core account are inputs. */
module DNCore {
  import opened Common

  const BPS: nat := 10000
  const MAX_BUFFER_BPS: nat := 5000
  const U64: nat := 0x1_0000_0000_0000_0000
  const I64: int := 0x8000_0000_0000_0000

  /** A Core account value as the precompile returns it. */
  type Int64 = x: int | -I64 <= x < I64
  type UInt64 = x: nat | x < U64

  datatype State = State(
    self: Address,
    owner: Address,
    keeper: Address,
    vault: Address,
    isActive: bool,
    paused: bool,
    usdc: Ledger,
    coreScale: nat,
    bufferBps: nat,
    coreEquity6: int,
    corePrincipal6: nat,
    profitRealized: nat,
    profitSwept: nat)

  /** A decimals-of-six or finer token: the scale is a power of ten. */
  function Deployed(self: Address, owner: Address, usdc: Ledger, coreScale: nat): State {
    State(self, owner, 0, 0, true, false, usdc, coreScale, 1500, 0, 0, 0, 0)
  }

  /** `equity` and `spot` are what the precompiles answer in that call, None for a failed read; `account` says whether
    * the Core account does. */
  datatype Call =
    | BridgeToCore(evmAmount: nat)
    | BridgeBack(amount6: UInt64, account: bool, equity: Option<Int64>)
    | SyncCore(equity: Option<Int64>)
    | Harvest(equity: Option<Int64>, spot6: UInt64)
    | Recall(amount: nat)
    | SetBufferBps(bufferBps: nat)
    | SetActive(active: bool)
    | SetPaused(paused: bool)
    | SetKeeper(keeper: Address)
    | SetVault(vault: Address)

  function Idle(s: State): nat {
    At(s.usdc, s.self)
  }

  function Positive(x: int): nat {
    if x > 0 then x else 0
  }

  /** The narrowing conversion to a 64-bit unsigned integer. */
  function ToU64(x: nat): UInt64 {
    x % U64
  }

  function TotalAssets(s: State, spot6: nat): nat {
    Positive(s.coreEquity6) * s.coreScale + spot6 * s.coreScale + Idle(s)
  }

  function Buffer(s: State, spot6: nat): nat {
    Part(TotalAssets(s, spot6), s.bufferBps)
  }

  function Part(amount: nat, bps: nat): nat {
    var scaled: nat := amount * bps;
    scaled / BPS
  }

  /** A Core amount in units of the underlying token. */
  function ToUnits(amount6: nat, coreScale: nat): nat {
    amount6 * coreScale
  }

  /** Profit part of an outflow at the synced equity. */
  function ProfitRed(s: State, amount6: UInt64): nat {
    Least(amount6, if s.coreEquity6 > s.corePrincipal6 then ToU64(s.coreEquity6 - s.corePrincipal6) else 0)
  }

  function BridgeBackSpec(s: State, amount6: UInt64): Option<State> {
    if amount6 > s.coreEquity6 then None
    else
      var profitRed := ProfitRed(s, amount6);
      var principalRed := amount6 - profitRed;
      if s.corePrincipal6 < principalRed then None
      else
        Some(s.(corePrincipal6 := s.corePrincipal6 - principalRed, coreEquity6 := s.coreEquity6 - amount6,
                profitRealized := s.profitRealized + ToUnits(profitRed, s.coreScale)))
  }

  /** What a vault harvest sweeps: unswept profit, as far as idle exceeds the buffer. */
  function Sweep(s: State, spot6: nat): nat {
    var available := Positive(s.profitRealized - s.profitSwept);
    Least(available, Positive(Idle(s) - Buffer(s, spot6)))
  }

  function HarvestSpec(s: State, sender: Address, spot6: nat): Option<State> {
    if sender != s.vault || Sweep(s, spot6) == 0 then Some(s)
    else
      match Transfer(s.usdc, s.self, s.vault, Sweep(s, spot6))
      case None => None
      case Some(t) => Some(s.(usdc := t, profitSwept := s.profitSwept + Sweep(s, spot6)))
  }

  predicate Keeper(s: State, sender: Address) {
    sender == s.owner || sender == s.keeper
  }

  function Apply(s: State, sender: Address, call: Call): Option<State> {
    match call
    case BridgeToCore(evmAmount) =>
      if !Keeper(s, sender) || s.paused || evmAmount == 0 || s.coreScale == 0 || evmAmount % s.coreScale != 0 then None
      else if evmAmount > Idle(s) then None
      else
        Some(s.(corePrincipal6 := s.corePrincipal6 + ToU64(evmAmount / s.coreScale),
                usdc := Put(s.usdc, s.self, Idle(s) - evmAmount)))
    case BridgeBack(amount6, account, equity) =>
      if !Keeper(s, sender) || s.paused || !account || amount6 == 0 || equity.None? then None
      else BridgeBackSpec(s.(coreEquity6 := equity.value), amount6)
    case SyncCore(equity) => if equity.None? then None else Some(s.(coreEquity6 := equity.value))
    case Harvest(equity, spot6) =>
      if !s.isActive || (!Keeper(s, sender) && sender != s.vault) || equity.None? then None
      else HarvestSpec(s.(coreEquity6 := equity.value), sender, spot6)
    case Recall(amount) =>
      if sender != s.vault then None
      else if Least(amount, Idle(s)) == 0 then Some(s)
      else
        (match Transfer(s.usdc, s.self, s.vault, Least(amount, Idle(s)))
         case None => None
         case Some(t) => Some(s.(usdc := t)))
    case SetBufferBps(bufferBps) =>
      if sender != s.owner || bufferBps > MAX_BUFFER_BPS then None else Some(s.(bufferBps := bufferBps))
    case SetActive(active) => if sender != s.owner then None else Some(s.(isActive := active))
    case SetPaused(paused) => if sender != s.owner then None else Some(s.(paused := paused))
    case SetKeeper(keeper) => if sender != s.owner || keeper == 0 then None else Some(s.(keeper := keeper))
    case SetVault(vault) => if sender != s.owner || vault == 0 then None else Some(s.(vault := vault))
  }

  // ---- single calls ----

  /** An equity within 64 bits is never truncated, so the split is profit first, principal for the rest. */
  lemma ProfitFirst(s: State, amount6: UInt64)
    requires -I64 <= s.coreEquity6 < I64
    ensures ProfitRed(s, amount6) == Least(amount6, Positive(s.coreEquity6 - s.corePrincipal6))
  {
    if s.coreEquity6 > s.corePrincipal6 {
      assert 0 <= s.coreEquity6 - s.corePrincipal6 < U64;
    }
  }

  /** A bridge-back goes through exactly when its guards hold and the synced equity covers it: the principal never
    * underflows. It draws on profit first; below principal it realizes nothing. */
  lemma BridgeBackSplit(s: State, sender: Address, amount6: UInt64, account: bool, equity: Option<Int64>)
    ensures Apply(s, sender, BridgeBack(amount6, account, equity)).Some? <==>
              Keeper(s, sender) && !s.paused && account && equity.Some? && 0 < amount6 <= equity.value
    ensures Apply(s, sender, BridgeBack(amount6, account, equity)).Some? ==>
              var t := Apply(s, sender, BridgeBack(amount6, account, equity)).value;
              var profit := Least(amount6, Positive(equity.value - s.corePrincipal6));
              && t.corePrincipal6 == s.corePrincipal6 - (amount6 - profit)
              && t.profitRealized == s.profitRealized + ToUnits(profit, s.coreScale)
              && t.coreEquity6 == equity.value - amount6
              && (equity.value <= s.corePrincipal6 ==> t.profitRealized == s.profitRealized)
              && t == s.(coreEquity6 := t.coreEquity6, corePrincipal6 := t.corePrincipal6, profitRealized := t.profitRealized)
  {
    if equity.Some? {
      ProfitFirst(s.(coreEquity6 := equity.value), amount6);
    }
  }

  /** The principal-first split that the audit scope describes leaves the same principal exactly when there is no profit to
    * draw on, everything is drawn, or there is no principal. */
  lemma PrincipalFirstIff(s: State, sender: Address, amount6: UInt64, account: bool, equity: Option<Int64>)
    requires Apply(s, sender, BridgeBack(amount6, account, equity)).Some?
    ensures Apply(s, sender, BridgeBack(amount6, account, equity)).value.corePrincipal6
              == s.corePrincipal6 - Least(amount6, s.corePrincipal6)
            <==> equity.value <= s.corePrincipal6 || amount6 == equity.value || s.corePrincipal6 == 0
  {
    hide Apply;
    BridgeBackSplit(s, sender, amount6, account, equity);
  }

  lemma PrincipalCovers(s: State, amount6: UInt64)
    requires -I64 <= s.coreEquity6 < I64 && amount6 <= s.coreEquity6
    ensures ProfitRed(s, amount6) <= amount6 && amount6 - ProfitRed(s, amount6) <= s.corePrincipal6
  {
    ProfitFirst(s, amount6);
  }

  /** Bridging back a and then b, with equity down by a in between, is bridging back a + b. */
  lemma BridgeBackTwice(s: State, sender: Address, a: UInt64, b: UInt64, equity: Int64)
    requires Keeper(s, sender) && !s.paused && a > 0 && b > 0 && a + b <= equity
    ensures var once := Apply(s, sender, BridgeBack(a + b, true, Some(equity)));
            var first := Apply(s, sender, BridgeBack(a, true, Some(equity)));
            && once.Some? && first.Some?
            && Apply(first.value, sender, BridgeBack(b, true, Some(equity - a))) == once
  {
    hide Apply;
    BridgeBackSplit(s, sender, a + b, true, Some(equity));
    BridgeBackSplit(s, sender, a, true, Some(equity));
    var first := Apply(s, sender, BridgeBack(a, true, Some(equity))).value;
    BridgeBackSplit(first, sender, b, true, Some(equity - a));
    TwoPartsAddUp(a, b, equity, s.corePrincipal6, s.coreScale);
  }

  /** The profit parts of two outflows in a row add up to that of their sum. */
  lemma TwoPartsAddUp(a: nat, b: nat, equity: int, principal: nat, scale: nat)
    requires a + b <= equity
    ensures var p1 := Least(a, Positive(equity - principal));
            var p2 := Least(b, Positive(equity - a - (principal - (a - p1))));
            && p1 + p2 == Least(a + b, Positive(equity - principal))
            && ToUnits(p1, scale) + ToUnits(p2, scale) == ToUnits(p1 + p2, scale)
  {
  }

  /** A sweep pays the vault exactly what it books, never more than the unswept profit, and leaves at least the buffer
    * idle. */
  lemma SweepLeavesBuffer(s: State, equity: Int64, spot6: UInt64)
    requires s.isActive && s.vault != s.self
    ensures Apply(s, s.vault, Harvest(Some(equity), spot6)).Some?
    ensures var t := Apply(s, s.vault, Harvest(Some(equity), spot6)).value;
            var swept := t.profitSwept - s.profitSwept;
            && 0 <= swept <= Positive(s.profitRealized - s.profitSwept)
            && Idle(t) == Idle(s) - swept
            && At(t.usdc, s.vault) == At(s.usdc, s.vault) + swept
            && (swept > 0 ==> TotalAssets(s.(coreEquity6 := equity), spot6) * s.bufferBps < BPS * (Idle(t) + 1))
            && t.profitRealized == s.profitRealized && t.corePrincipal6 == s.corePrincipal6
  {
    BufferFloors(s.(coreEquity6 := equity), spot6);
    hide Buffer, TotalAssets;
  }

  /** A harvest by the vault syncs and pays exactly the smaller of unswept profit and what is idle above the buffer, the
    * floor of its part of positive equity, spot and idle; one by keeper or owner syncs only. */
  lemma HarvestPays(s: State, sender: Address, equity: Option<Int64>, spot6: UInt64, buffer: nat)
    requires s.vault != s.self
    requires equity.Some? ==>
               var assets := (if equity.value > 0 then equity.value else 0) * s.coreScale + spot6 * s.coreScale + Idle(s);
               BPS * buffer <= assets * s.bufferBps < BPS * (buffer + 1)
    ensures var o := Apply(s, sender, Harvest(equity, spot6));
            && (o.Some? <==> s.isActive && equity.Some?
                             && (sender == s.owner || sender == s.keeper || sender == s.vault))
            && (o.Some? ==>
                  var t := o.value;
                  var unswept := if s.profitRealized > s.profitSwept then s.profitRealized - s.profitSwept else 0;
                  var paid := if sender == s.vault then Least(unswept, if Idle(s) > buffer then Idle(s) - buffer else 0)
                              else 0;
                  && t == s.(coreEquity6 := equity.value, profitSwept := s.profitSwept + paid, usdc := t.usdc)
                  && Idle(t) == Idle(s) - paid
                  && At(t.usdc, s.vault) == At(s.usdc, s.vault) + paid)
  {
    hide Buffer, TotalAssets;
    if equity.Some? {
      var synced := s.(coreEquity6 := equity.value);
      BufferIs(synced, spot6, buffer);
      TransferMoves(s.usdc, s.self, s.vault, Sweep(synced, spot6));
    }
  }

  lemma BufferIsPart(s: State, spot6: UInt64)
    ensures var assets := (if s.coreEquity6 > 0 then s.coreEquity6 else 0) * s.coreScale + spot6 * s.coreScale + Idle(s);
            Buffer(s, spot6) == Part(assets, s.bufferBps)
  {
  }

  lemma BufferIs(s: State, spot6: UInt64, buffer: nat)
    requires var assets := (if s.coreEquity6 > 0 then s.coreEquity6 else 0) * s.coreScale + spot6 * s.coreScale + Idle(s);
             BPS * buffer <= assets * s.bufferBps < BPS * (buffer + 1)
    ensures Buffer(s, spot6) == buffer
  {
    BufferFloors(s, spot6);
  }

  /** Bridging out goes through exactly for the keeper or owner, whole Core units and what is idle; the USDC leaves, and
    * its Core units, narrowed to 64 bits, are booked as principal. */
  lemma BridgeOutMoves(s: State, sender: Address, evmAmount: nat)
    ensures var o := Apply(s, sender, BridgeToCore(evmAmount));
            && (o.Some? <==> && (sender == s.owner || sender == s.keeper) && !s.paused
                             && 0 < evmAmount <= Idle(s) && s.coreScale > 0 && evmAmount % s.coreScale == 0)
            && (o.Some? ==>
                  && o.value == s.(usdc := o.value.usdc,
                                   corePrincipal6 := s.corePrincipal6 + evmAmount / s.coreScale % 0x1_0000_0000_0000_0000)
                  && Idle(o.value) == Idle(s) - evmAmount
                  && forall a: Address :: a != s.self ==> At(o.value.usdc, a) == At(s.usdc, a))
  {
  }

  /** A recall pays the vault, and nobody else, the smaller of request and idle; syncing records what was read. */
  lemma RecallPays(s: State, sender: Address, amount: nat, equity: Option<Int64>)
    requires s.vault != s.self
    ensures var o := Apply(s, sender, Recall(amount));
            && (o.Some? <==> sender == s.vault)
            && (o.Some? ==>
                  && o.value == s.(usdc := o.value.usdc)
                  && Idle(o.value) == Idle(s) - Least(amount, Idle(s))
                  && At(o.value.usdc, s.vault) == At(s.usdc, s.vault) + Least(amount, Idle(s)))
    ensures Apply(s, sender, SyncCore(equity)) == if equity.Some? then Some(s.(coreEquity6 := equity.value)) else None
  {
    TransferMoves(s.usdc, s.self, s.vault, Least(amount, Idle(s)));
    hide Transfer;
  }

  /** Exactly when the owner's setters go through. */
  lemma OwnerSets(s: State, sender: Address, amount: nat, flag: bool)
    ensures Apply(s, sender, SetBufferBps(amount))
         == if sender == s.owner && amount <= 5000 then Some(s.(bufferBps := amount)) else None
    ensures Apply(s, sender, SetActive(flag)) == if sender == s.owner then Some(s.(isActive := flag)) else None
    ensures Apply(s, sender, SetPaused(flag)) == if sender == s.owner then Some(s.(paused := flag)) else None
    ensures Apply(s, sender, SetKeeper(amount)) == if sender == s.owner && amount != 0 then Some(s.(keeper := amount)) else None
    ensures Apply(s, sender, SetVault(amount)) == if sender == s.owner && amount != 0 then Some(s.(vault := amount)) else None
  {
  }

  lemma BufferFloors(s: State, spot6: UInt64)
    ensures BPS * Buffer(s, spot6) <= TotalAssets(s, spot6) * s.bufferBps < BPS * (Buffer(s, spot6) + 1)
  {
  }

  // ---- runs ----

  /** Somebody calls, or USDC moves elsewhere, some of it (bridged back, allocated, donated) into the strategy. */
  datatype Event = Act(sender: Address, call: Call) | Outside(usdc: Ledger, arrived: nat)

  /** The strategy with the USDC bridged out, the part of it lost to narrowing, and the 6-decimals sum bridged back. */
  datatype World = World(s: State, sent: nat, truncated: int, returned: nat)

  function Narrowed(s: State, evmAmount: nat): int {
    if s.coreScale == 0 then 0 else evmAmount - s.coreScale * ToU64(evmAmount / s.coreScale)
  }

  function Step(w: World, e: Event): World {
    match e
    case Outside(usdc, arrived) => w.(s := w.s.(usdc := Put(usdc, w.s.self, Idle(w.s) + arrived)))
    case Act(sender, call) =>
      match Apply(w.s, sender, call)
      case None => w
      case Some(s) =>
        match call
        case BridgeToCore(evmAmount) =>
          World(s, w.sent + evmAmount, w.truncated + Narrowed(w.s, evmAmount), w.returned)
        case BridgeBack(amount6, _, _) => w.(s := s, returned := w.returned + amount6)
        case _ => w.(s := s)
  }

  ghost function Run(w: World, es: seq<Event>): World {
    Fold(Step, w, es)
  }

  /** Everything bridged out is principal still out, came back, or was truncated; profit is what came back beyond it. */
  ghost predicate Exact(w: World) {
    && w.s.profitRealized + w.sent == w.s.coreScale * (w.returned + w.s.corePrincipal6) + w.truncated
    && w.s.profitSwept <= w.s.profitRealized
    && w.truncated >= 0
  }

  lemma NarrowedNonNegative(s: State, evmAmount: nat)
    requires s.coreScale > 0 && evmAmount % s.coreScale == 0
    ensures Narrowed(s, evmAmount) >= 0
    ensures evmAmount / s.coreScale < U64 ==> Narrowed(s, evmAmount) == 0
    ensures s.coreScale * ToU64(evmAmount / s.coreScale) == evmAmount - Narrowed(s, evmAmount)
  {
    var q := evmAmount / s.coreScale;
    assert s.coreScale * q == evmAmount;
    assert ToU64(q) <= q;
    assert s.coreScale * ToU64(q) <= s.coreScale * q;
  }

  lemma BridgeOutExact(w: World, sender: Address, evmAmount: nat)
    requires Exact(w) && Apply(w.s, sender, BridgeToCore(evmAmount)).Some?
    ensures Exact(Step(w, Act(sender, BridgeToCore(evmAmount))))
  {
    NarrowedNonNegative(w.s, evmAmount);
    var core6 := ToU64(evmAmount / w.s.coreScale);
    hide Narrowed, ToU64;
    assert w.s.coreScale * (w.returned + w.s.corePrincipal6 + core6)
        == w.s.coreScale * (w.returned + w.s.corePrincipal6) + w.s.coreScale * core6;
  }

  lemma BridgeBackExact(w: World, sender: Address, call: Call)
    requires Exact(w) && call.BridgeBack? && Apply(w.s, sender, call).Some?
    ensures Exact(Step(w, Act(sender, call)))
  {
    hide Apply;
    BridgeBackSplit(w.s, sender, call.amount6, call.account, call.equity);
    var profit := Least(call.amount6, Positive(call.equity.value - w.s.corePrincipal6));
    assert w.s.coreScale * (w.returned + call.amount6 + w.s.corePrincipal6 - (call.amount6 - profit))
        == w.s.coreScale * (w.returned + w.s.corePrincipal6) + w.s.coreScale * profit;
  }

  lemma StepExact(w: World, e: Event)
    requires Exact(w)
    ensures Exact(Step(w, e)) && Step(w, e).s.coreScale == w.s.coreScale
  {
    hide Buffer, ProfitRed, ToU64, Narrowed;
    match e
    case Outside(_, _) =>
    case Act(sender, call) =>
      if Apply(w.s, sender, call).Some? {
        match call {
          case BridgeToCore(evmAmount) => BridgeOutExact(w, sender, evmAmount);
          case BridgeBack(_, _, _) => BridgeBackExact(w, sender, call);
          case _ =>
        }
      }
  }

  /** The ledger identity in every run, whatever equity the Core account reports: principal is never booked as profit
    * and no more is swept than was realized. */
  lemma {:induction false} LedgerIdentity(w: World, es: seq<Event>)
    requires Exact(w)
    ensures Exact(Run(w, es)) && Run(w, es).s.coreScale == w.s.coreScale
  {
    hide Step, Exact;
    if es != [] {
      LedgerIdentity(w, es[..|es| - 1]);
      StepExact(Run(w, es[..|es| - 1]), es[|es| - 1]);
    }
  }

  lemma DeployedExact(self: Address, owner: Address, usdc: Ledger, coreScale: nat)
    ensures Exact(World(Deployed(self, owner, usdc, coreScale), 0, 0, 0))
  {
    assert coreScale * 0 == 0;
  }

  /** 100 bridged out grow to 110 and 10 come back: all of it is profit and the principal stays at 100, where a
    * principal-first split would leave 90 and no profit. */
  lemma ProfitComesFirst(w: World, es: seq<Event>)
    requires w == World(Deployed(1, 2, map[1 := 100], 1), 0, 0, 0)
    requires es == [Act(2, BridgeToCore(100)), Act(2, BridgeBack(10, true, Some(110)))]
    ensures var x := Run(w, es).s; x.corePrincipal6 == 100 && x.profitRealized == 10
  {
    hide Fold;
    FoldStep(Step, w, [], es[0]);
    FoldStep(Step, w, es[..1], es[1]);
    assert [] + [es[0]] == es[..1] && es[..1] + [es[1]] == es;
    BridgeBackSplit(Run(w, es[..1]).s, 2, 10, true, Some(110));
  }

  // ---- the contract ----

  class DNCoreStrategy {
    const self: Address
    const owner: Address
    const coreScale: nat
    var keeper: Address
    var vault: Address
    var isActive: bool
    var paused: bool
    var usdc: Ledger
    var bufferBps: nat
    var coreEquity6: int
    var corePrincipal6: nat
    var profitRealized: nat
    var profitSwept: nat
    ghost var sent: nat // all USDC bridged out
    ghost var truncated: int // the part of it lost to narrowing
    ghost var returned: nat // all Core units bridged back

    constructor (self: Address, owner: Address, usdc: Ledger, coreScale: nat)
      ensures Valid() && sent == truncated == returned == 0
      ensures Abs() == Deployed(self, owner, usdc, coreScale)
    {
      this.self, this.owner, this.usdc, this.coreScale := self, owner, usdc, coreScale;
      keeper, vault, isActive, paused, bufferBps := 0, 0, true, false, 1500;
      coreEquity6, corePrincipal6, profitRealized, profitSwept := 0, 0, 0, 0;
      sent, truncated, returned := 0, 0, 0;
      new;
      DeployedExact(self, owner, usdc, coreScale);
    }

    function Abs(): State
      reads this
    {
      State(self, owner, keeper, vault, isActive, paused, usdc, coreScale, bufferBps, coreEquity6, corePrincipal6,
            profitRealized, profitSwept)
    }

    /** The ledger identity of every run. */
    ghost predicate Valid()
      reads this
    {
      Exact(World(Abs(), sent, truncated, returned))
    }

    /** Take down what a completed call bridged out or back. */
    ghost method Account(before: State, sender: Address, call: Call)
      requires Exact(World(before, sent, truncated, returned)) && Apply(before, sender, call) == Some(Abs())
      modifies this`sent, this`truncated, this`returned
      ensures Valid()
      ensures World(Abs(), sent, truncated, returned)
           == Step(World(before, old(sent), old(truncated), old(returned)), Act(sender, call))
    {
      hide Apply, Exact, Narrowed;
      var w := World(before, sent, truncated, returned);
      StepExact(w, Act(sender, call));
      var x := Step(w, Act(sender, call));
      sent, truncated, returned := x.sent, x.truncated, x.returned;
    }

    /** The USDC that leaves is booked as principal, up to what the 64-bit conversion cuts off. */
    method DoBridgeToCore(sender: Address, evmAmount: nat) returns (ok: bool)
      requires Valid()
      modifies this
      ensures Valid()
      ensures sent == old(sent) + (if ok then evmAmount else 0) && returned == old(returned)
      ensures Idle(Abs()) + sent == old(Idle(Abs()) + sent)
      ensures ok ==> coreScale * (corePrincipal6 - old(corePrincipal6)) == evmAmount - (truncated - old(truncated))
      ensures ok && coreScale > 0 && evmAmount / coreScale < U64 ==> truncated == old(truncated)
      ensures Ends(Apply(old(Abs()), sender, BridgeToCore(evmAmount)), old(Abs()), ok, Abs())
    {
      hide ToU64, Exact, Narrowed;
      if (sender != owner && sender != keeper) || paused || evmAmount == 0 { return false; }
      if coreScale == 0 || evmAmount % coreScale != 0 { return false; }
      if evmAmount > At(usdc, self) { return false; }
      ghost var before := Abs();
      var core6 := ToU64(evmAmount / coreScale);
      corePrincipal6 := corePrincipal6 + core6;
      usdc := Put(usdc, self, At(usdc, self) - evmAmount);
      Account(before, sender, BridgeToCore(evmAmount));
      NarrowedNonNegative(before, evmAmount);
      return true;
    }

    method DoBridgeBackToEvm(sender: Address, amount6: UInt64, account: bool, equity: Option<Int64>) returns (ok: bool)
      requires Valid()
      modifies this
      ensures Valid()
      ensures returned == old(returned) + (if ok then amount6 else 0) && sent == old(sent) && truncated == old(truncated)
      ensures Ends(Apply(old(Abs()), sender, BridgeBack(amount6, account, equity)), old(Abs()), ok, Abs())
    {
      hide BridgeBackSpec, Exact;
      if (sender != owner && sender != keeper) || paused || !account || amount6 == 0 { return false; }
      var equityBefore := coreEquity6;
      ghost var before := Abs();
      ok := DoSyncCore(equity);
      if !ok { return false; }
      ok := DoSplit(amount6);
      if !ok {
        coreEquity6 := equityBefore; // the revert
        return false;
      }
      Account(before, sender, BridgeBack(amount6, account, equity));
    }

    /** Profit first, principal for the rest. */
    method DoSplit(amount6: UInt64) returns (ok: bool)
      requires -I64 <= coreEquity6 < I64
      modifies this`coreEquity6, this`corePrincipal6, this`profitRealized
      ensures Ends(BridgeBackSpec(old(Abs()), amount6), old(Abs()), ok, Abs())
    {
      hide ToU64;
      if amount6 > coreEquity6 { return false; }
      var profitAvail := if coreEquity6 > corePrincipal6 then ToU64(coreEquity6 - corePrincipal6) else 0;
      var profitRed := if amount6 < profitAvail then amount6 else profitAvail;
      var principalRed := amount6 - profitRed;
      PrincipalCovers(Abs(), amount6);
      assert principalRed <= corePrincipal6; // the checked subtraction never reverts
      corePrincipal6 := corePrincipal6 - principalRed;
      coreEquity6 := coreEquity6 - amount6;
      if profitRed > 0 {
        profitRealized := profitRealized + ToUnits(profitRed, coreScale);
      }
      return true;
    }

    /** Open to everybody, and what a bridge-back and a harvest begin with. Whatever equity is read, the ledger identity
      * stays. */
    method DoSyncCore(equity: Option<Int64>) returns (ok: bool)
      requires Valid()
      modifies this`coreEquity6
      ensures Valid()
      ensures ok <==> equity.Some?
      ensures coreEquity6 == if ok then equity.value else old(coreEquity6)
    {
      if equity.None? { return false; }
      coreEquity6 := equity.value;
      return true;
    }

    method DoHarvest(sender: Address, equity: Option<Int64>, spot6: UInt64) returns (ok: bool, profit: nat)
      requires Valid()
      modifies this
      ensures Valid() && sent == old(sent) && truncated == old(truncated) && returned == old(returned)
      ensures Ends(Apply(old(Abs()), sender, Harvest(equity, spot6)), old(Abs()), ok, Abs())
      ensures profitSwept == old(profitSwept) + profit
      ensures ok && sender == vault ==>
                var idle := old(At(usdc, self));
                var assets := (if equity.value > 0 then equity.value else 0) * coreScale + spot6 * coreScale + idle;
                profit == Least(Minus(old(profitRealized), old(profitSwept)), Minus(idle, Part(assets, bufferBps)))
    {
      hide Buffer, Exact;
      if !isActive || (sender != owner && sender != keeper && sender != vault) { return false, 0; }
      ghost var before := Abs();
      profit := 0;
      ok := DoSyncCore(equity);
      if !ok { return false, 0; }
      if sender == vault {
        BufferIsPart(Abs(), spot6);
        profit := DoSweep(spot6);
      }
      Account(before, sender, Harvest(equity, spot6));
      return true, profit;
    }

    /** Unswept profit goes to the vault as far as idle exceeds the buffer. */
    method DoSweep(spot6: UInt64) returns (sweep: nat)
      modifies this`usdc, this`profitSwept
      ensures profitSwept == old(profitSwept) + sweep
      ensures HarvestSpec(old(Abs()), vault, spot6) == Some(Abs())
    {
      hide Buffer;
      var available := if profitRealized > profitSwept then profitRealized - profitSwept else 0;
      if available == 0 { return 0; }
      var bal := At(usdc, self);
      var buffer := Buffer(Abs(), spot6);
      var sweepable := if bal > buffer then bal - buffer else 0;
      sweep := if available < sweepable then available else sweepable;
      if sweep == 0 { return 0; }
      profitSwept := profitSwept + sweep;
      usdc := Transfer(usdc, self, vault, sweep).value;
    }
  }
}
