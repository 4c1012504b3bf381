/** PTSleeveStrategy: a cross-chain ledger of idle, in-flight and keeper-attested value. */
module PTSleeve {
  import opened Common

  const BPS: nat := 10000
  const MAX_HEADROOM_BPS: nat := 3000
  const MAX_BURN_FEE6: nat := 2_000_000
  const MIN_BRIDGE_FLOOR6: nat := 2_000_000

  datatype State = State(
    self: Address,
    owner: Address,
    keeper: Address,
    vault: Address,
    isActive: bool,
    usdc: Ledger,
    headroomBps: nat,
    minBridgeUsd6: nat,
    sentFace6: nat,
    retFace6: nat,
    inFlight6: nat,
    arbValue6: nat,
    arbPrincipal6: nat,
    pendingRecall6: nat)

  function Deployed(self: Address, owner: Address, usdc: Ledger): State {
    State(self, owner, 0, 0, true, usdc, 2000, 5_000_000, 0, 0, 0, 0, 0, 0)
  }

  function Idle(s: State): nat {
    At(s.usdc, s.self)
  }

  function Outstanding(s: State): nat {
    Minus(s.sentFace6, s.retFace6)
  }

  function TotalAssets(s: State): nat {
    Idle(s) + s.inFlight6 + s.arbValue6
  }

  function ArrivedFace(s: State): nat {
    Minus(Outstanding(s), s.inFlight6)
  }

  /** The most the keeper may attest. */
  function Cap(s: State): nat {
    CapOf(ArrivedFace(s), s.headroomBps)
  }

  function CapOf(arrivedFace: nat, headroomBps: nat): nat {
    var scaled: nat := arrivedFace * (BPS + headroomBps);
    scaled / BPS
  }

  /** DeployToArb carries whether the token messenger takes the burn, CompleteInbound what the message transmitter minted;
    * the bridge and its attestations are outside. */
  datatype Call =
    | DeployToArb(amount: nat, maxFee: nat, burned: bool)
    | CompleteInbound(minted: nat)
    | AckArrival(amount: nat)
    | SyncArbValue(value: nat)
    | PushIdle(amount: nat)
    | Recall(amount: nat)
    | SetParams(headroomBps: nat, minBridgeUsd6: nat)
    | SetActive(active: bool)
    | SetKeeper(keeper: Address)
    | SetVault(vault: Address)

  predicate Keeper(s: State, sender: Address) {
    sender == s.owner || sender == s.keeper
  }

  /** The new state of a completed call, None for a reverted one. */
  function Apply(s: State, sender: Address, call: Call): Option<State> {
    match call
    case DeployToArb(amount, maxFee, burned) =>
      if !Keeper(s, sender) || !s.isActive || amount < s.minBridgeUsd6 || maxFee > MAX_BURN_FEE6 || amount > Idle(s) then None
      else if !burned then None
      else if s.sentFace6 + amount < s.retFace6 then None
      else
        Some(s.(usdc := Put(s.usdc, s.self, Idle(s) - amount), sentFace6 := s.sentFace6 + amount,
                inFlight6 := s.inFlight6 + amount, arbPrincipal6 := s.sentFace6 + amount - s.retFace6))
    case CompleteInbound(minted) =>
      if minted == 0 then None
      else
        Some(s.(usdc := Put(s.usdc, s.self, Idle(s) + minted), retFace6 := s.retFace6 + minted,
                arbPrincipal6 := Minus(s.sentFace6, s.retFace6 + minted), arbValue6 := Minus(s.arbValue6, minted)))
    case AckArrival(amount) =>
      if !Keeper(s, sender) || amount > s.inFlight6 then None else Some(s.(inFlight6 := s.inFlight6 - amount))
    case SyncArbValue(value) =>
      if !Keeper(s, sender) || value > Cap(s) then None
      else Some(s.(arbValue6 := value, arbPrincipal6 := Outstanding(s)))
    case PushIdle(amount) =>
      var sent := if amount > Idle(s) then Idle(s) else amount;
      if !Keeper(s, sender) || sent == 0 || s.vault == 0 then None
      else
        (match Transfer(s.usdc, s.self, s.vault, sent)
         case None => None
         case Some(t) => Some(s.(usdc := t, pendingRecall6 := Minus(s.pendingRecall6, sent))))
    case Recall(amount) =>
      var sent := if amount > Idle(s) then Idle(s) else amount;
      if sender != s.vault then None
      else if sent == 0 then Some(s.(pendingRecall6 := s.pendingRecall6 + amount))
      else
        (match Transfer(s.usdc, s.self, s.vault, sent)
         case None => None
         case Some(t) => Some(s.(usdc := t, pendingRecall6 := s.pendingRecall6 + amount - sent)))
    case SetParams(headroomBps, minBridgeUsd6) =>
      if sender != s.owner || headroomBps > MAX_HEADROOM_BPS || minBridgeUsd6 < MIN_BRIDGE_FLOOR6 then None
      else Some(s.(headroomBps := headroomBps, minBridgeUsd6 := minBridgeUsd6))
    case SetActive(active) => if sender != s.owner then None else Some(s.(isActive := active))
    case SetKeeper(keeper) => if sender != s.owner || keeper == 0 then None else Some(s.(keeper := keeper))
    case SetVault(vault) => if sender != s.owner || vault == 0 then None else Some(s.(vault := vault))
  }

  // ---- runs ----

  /** Somebody calls; or USDC moves elsewhere, some of it into the sleeve (vault allocations, donations). */
  datatype Event = Act(sender: Address, call: Call) | Outside(usdc: Ledger, arrived: nat)

  /** The sleeve with what it received and what it paid to the vault. */
  datatype World = World(s: State, received: nat, paid: nat)

  function Step(w: World, e: Event): World {
    match e
    case Outside(usdc, arrived) =>
      w.(s := w.s.(usdc := Put(usdc, w.s.self, Idle(w.s) + arrived)), received := w.received + arrived)
    case Act(sender, call) =>
      match Apply(w.s, sender, call)
      case None => w
      case Some(s) =>
        w.(s := s,
           paid := w.paid + (if call.PushIdle? || call.Recall? then Minus(Idle(w.s), Idle(s)) else 0))
  }

  ghost function Run(w: World, es: seq<Event>): World {
    Fold(Step, w, es)
  }

  /** The contract never pays itself: it is not its own vault. */
  predicate NotSelf(self: Address, e: Event) {
    e.Act? && e.call.SetVault? ==> e.call.vault != self
  }

  /** Attested value is zero or, with what returned, within 1.3 times the face that arrived. */
  predicate NotOverstated(s: State) {
    s.arbValue6 == 0 || BPS * (s.arbValue6 + s.retFace6) <= (BPS + MAX_HEADROOM_BPS) * (s.sentFace6 - s.inFlight6)
  }

  /** Every token is accounted for. */
  predicate Conserved(w: World) {
    Idle(w.s) + w.s.sentFace6 + w.paid == w.received + w.s.retFace6
  }

  predicate Sound(w: World) {
    && w.s.vault != w.s.self
    && w.s.headroomBps <= MAX_HEADROOM_BPS
    && w.s.inFlight6 <= w.s.sentFace6
    && w.s.arbPrincipal6 == Outstanding(w.s)
    && NotOverstated(w.s)
    && Conserved(w)
  }

  lemma CapBound(s: State)
    ensures BPS * Cap(s) <= ArrivedFace(s) * (BPS + s.headroomBps)
    ensures s.headroomBps <= MAX_HEADROOM_BPS ==> BPS * Cap(s) <= ArrivedFace(s) * (BPS + MAX_HEADROOM_BPS)
    ensures forall value: nat :: value <= Cap(s) <==> BPS * value <= ArrivedFace(s) * (BPS + s.headroomBps)
  {
    var arrived := ArrivedFace(s);
    if s.headroomBps <= MAX_HEADROOM_BPS {
      assert arrived * (BPS + s.headroomBps) <= arrived * (BPS + MAX_HEADROOM_BPS);
    }
  }

  lemma CallNotOverstated(s: State, sender: Address, call: Call)
    requires s.inFlight6 <= s.sentFace6 && s.headroomBps <= MAX_HEADROOM_BPS && NotOverstated(s)
    requires Apply(s, sender, call).Some?
    ensures NotOverstated(Apply(s, sender, call).value)
  {
    hide Cap, Transfer;
    CapBound(s);
  }

  lemma CallConserves(w: World, sender: Address, call: Call)
    requires Conserved(w) && w.s.vault != w.s.self && Apply(w.s, sender, call).Some?
    ensures Conserved(Step(w, Act(sender, call)))
  {
    hide Cap;
  }

  lemma StepSound(w: World, e: Event)
    requires Sound(w) && NotSelf(w.s.self, e)
    ensures Sound(Step(w, e)) && Step(w, e).s.self == w.s.self
  {
    hide Cap, Transfer, NotOverstated, Conserved;
    match e
    case Outside(_, _) => OutsideSound(w, e);
    case Act(sender, call) =>
      if Apply(w.s, sender, call).Some? {
        CallNotOverstated(w.s, sender, call);
        CallConserves(w, sender, call);
      }
  }

  lemma OutsideSound(w: World, e: Event)
    requires Sound(w) && e.Outside?
    ensures Sound(Step(w, e))
  {
  }

  /** In every run: attested value is 0 or within 1.3 times what arrived less what returned, principal is what is out,
    * and every token is accounted for. */
  lemma {:induction false} AlwaysSound(w: World, es: seq<Event>)
    requires Sound(w) && forall i :: 0 <= i < |es| ==> NotSelf(w.s.self, es[i])
    ensures Sound(Run(w, es)) && Run(w, es).s.self == w.s.self
  {
    if es != [] {
      AlwaysSound(w, es[..|es| - 1]);
      StepSound(Run(w, es[..|es| - 1]), es[|es| - 1]);
    }
  }

  lemma DeployedSound(self: Address, owner: Address, usdc: Ledger)
    requires self != 0
    ensures Sound(World(Deployed(self, owner, usdc), At(usdc, self), 0))
  {
  }

  /** What the sleeve reports plus what it paid never exceeds what it received by more than 30% of the face that
    * arrived on the other side; with nothing attested the excess is exactly what came back beyond the face. */
  lemma BookBound(self: Address, owner: Address, usdc: Ledger, es: seq<Event>)
    requires self != 0 && forall i :: 0 <= i < |es| ==> NotSelf(self, es[i])
    ensures var w := Run(World(Deployed(self, owner, usdc), At(usdc, self), 0), es);
            var arrived := w.s.sentFace6 - w.s.inFlight6;
            if w.s.arbValue6 == 0 then TotalAssets(w.s) + w.paid == w.received + w.s.retFace6 - arrived
            else BPS * (TotalAssets(w.s) + w.paid) <= BPS * w.received + MAX_HEADROOM_BPS * arrived
  {
    DeployedSound(self, owner, usdc);
    AlwaysSound(World(Deployed(self, owner, usdc), At(usdc, self), 0), es);
  }

  // ---- single calls ----

  /** Returned face never counts twice: an inbound transfer raises the reported assets only by what exceeds the
    * attested value it replaces. */
  lemma InboundRaisesByExcess(s: State, sender: Address, minted: nat)
    requires Apply(s, sender, CompleteInbound(minted)).Some?
    ensures TotalAssets(Apply(s, sender, CompleteInbound(minted)).value) == TotalAssets(s) + Minus(minted, s.arbValue6)
  {
  }

  predicate WithinCap(s: State) {
    s.arbValue6 <= Cap(s)
  }

  /** What keeps the attested value within the bound: an inbound transfer covers it whole or leaves its headroom unused,
    * and a new headroom is wide enough for it. */
  predicate LeavesRoom(s: State, call: Call) {
    match call
    case CompleteInbound(minted) =>
      || s.arbValue6 <= minted
      || s.headroomBps * minted <= (BPS + s.headroomBps) * ArrivedFace(s) - BPS * s.arbValue6
    case SetParams(headroomBps, _) => BPS * s.arbValue6 <= ArrivedFace(s) * (BPS + headroomBps)
    case _ => true
  }

  /** The attestation bound is checked when the keeper syncs. Exactly which calls keep it. */
  lemma CallKeepsCapIff(s: State, sender: Address, call: Call)
    requires WithinCap(s) && Apply(s, sender, call).Some?
    ensures WithinCap(Apply(s, sender, call).value) <==> LeavesRoom(s, call)
  {
    hide Cap;
    var t := Apply(s, sender, call).value;
    CapBound(s);
    CapBound(t);
    match call {
      case CompleteInbound(minted) =>
        if s.arbValue6 > minted {
          assert ArrivedFace(t) == Minus(ArrivedFace(s), minted);
          HeadroomArithmetic(s.headroomBps, ArrivedFace(s), s.arbValue6, minted);
        }
      case AckArrival(amount) => MoreArrived(ArrivedFace(s), ArrivedFace(t), BPS + s.headroomBps);
      case _ =>
    }
  }

  lemma MoreArrived(a: nat, b: nat, k: nat)
    requires a <= b
    ensures a * k <= b * k
  {
  }

  /** A completed call of this event leaves room. */
  predicate EventLeavesRoom(s: State, e: Event) {
    e.Act? && Apply(s, e.sender, e.call).Some? ==> LeavesRoom(s, e.call)
  }

  /** The bound holds all through a run exactly when every inbound transfer and every change of parameters leaves room. */
  lemma {:induction false} CapHoldsIff(w: World, es: seq<Event>)
    requires WithinCap(w.s)
    ensures (forall k :: 0 <= k <= |es| ==> WithinCap(Run(w, es[..k]).s))
            <==> (forall k :: 0 <= k < |es| ==> EventLeavesRoom(Run(w, es[..k]).s, es[k]))
  {
    hide WithinCap, EventLeavesRoom, Step;
    assert es[..|es|] == es;
    if es != [] {
      var n := |es| - 1;
      var before := es[..n];
      assert forall k :: 0 <= k <= n ==> before[..k] == es[..k];
      assert forall k :: 0 <= k < n ==> before[k] == es[k];
      CapHoldsIff(w, before);
      if WithinCap(Run(w, before).s) {
        EventKeepsCapIff(Run(w, before), es[n]);
      }
    }
  }

  lemma EventKeepsCapIff(w: World, e: Event)
    requires WithinCap(w.s)
    ensures WithinCap(Step(w, e).s) <==> EventLeavesRoom(w.s, e)
  {
    hide Apply, LeavesRoom, Cap;
    match e
    case Outside(_, _) => SameFaces(w.s, Step(w, e).s);
    case Act(sender, call) =>
      if Apply(w.s, sender, call).Some? {
        CallKeepsCapIff(w.s, sender, call);
      }
  }

  lemma SameFaces(s: State, t: State)
    requires t == s.(usdc := t.usdc)
    ensures Cap(t) == Cap(s)
  {
  }

  lemma HeadroomArithmetic(h: nat, a: nat, value: nat, m: nat)
    requires m < value && BPS * value <= a * (BPS + h)
    ensures BPS * (value - m) <= Minus(a, m) * (BPS + h) <==> h * m <= (BPS + h) * a - BPS * value
  {
    if m <= a {
      assert (a - m) * (BPS + h) == a * (BPS + h) - m * BPS - m * h;
    } else {
      assert h * a <= h * m;
    }
  }

  /** A new sleeve that bridges 10 USDC, sees it arrive and is attested 20% more. */
  function Attested(): seq<Event> {
    [Act(2, DeployToArb(10_000_000, 0, true)), Act(2, AckArrival(10_000_000)), Act(2, SyncArbValue(12_000_000))]
  }

  lemma AttestedWithinCap(w: World, es: seq<Event>)
    requires w == World(Deployed(1, 2, map[1 := 10_000_000]), 10_000_000, 0) && es == Attested()
    ensures var x := Run(w, es).s;
            && WithinCap(x) && x.owner == 2
            && x.sentFace6 == 10_000_000 && x.retFace6 == x.inFlight6 == 0 && x.arbValue6 == 12_000_000
            && x.headroomBps == 2000
  {
    hide Fold, Cap;
    FoldStep(Step, w, [], es[0]);
    FoldStep(Step, w, es[..1], es[1]);
    FoldStep(Step, w, es[..2], es[2]);
    assert [] + [es[0]] == es[..1] && es[..1] + [es[1]] == es[..2] && es[..2] + [es[2]] == es;
    KeeperAttests(Run(w, es[..2]).s, 2, 12_000_000);
    CapBound(Run(w, es).s);
  }

  /** From there the bound fails in two ways: 1 USDC comes back, or the owner takes the headroom away. */
  lemma CapFailsTwice(w: World)
    requires w == World(Deployed(1, 2, map[1 := 10_000_000]), 10_000_000, 0)
    ensures !WithinCap(Run(w, Attested() + [Act(3, CompleteInbound(1_000_000))]).s)
    ensures !WithinCap(Run(w, Attested() + [Act(2, SetParams(0, 5_000_000))]).s)
  {
    hide Fold, Cap, Attested, WithinCap;
    AttestedWithinCap(w, Attested());
    var s := Run(w, Attested()).s;
    FoldStep(Step, w, Attested(), Act(3, CompleteInbound(1_000_000)));
    FoldStep(Step, w, Attested(), Act(2, SetParams(0, 5_000_000)));
    CallKeepsCapIff(s, 3, CompleteInbound(1_000_000));
    CallKeepsCapIff(s, 2, SetParams(0, 5_000_000));
  }

  /** Exactly when a deployment goes through, and what it moves: idle USDC becomes sent and in flight, so the reported
    * assets stay. */
  lemma DeployCompletesIff(s: State, sender: Address, amount: nat, maxFee: nat, burned: bool)
    ensures Apply(s, sender, DeployToArb(amount, maxFee, burned)).Some? <==>
              && Keeper(s, sender) && s.isActive && maxFee <= MAX_BURN_FEE6
              && s.minBridgeUsd6 <= amount <= Idle(s) && burned
              && s.retFace6 <= s.sentFace6 + amount
    ensures Apply(s, sender, DeployToArb(amount, maxFee, burned)).Some? ==>
              var t := Apply(s, sender, DeployToArb(amount, maxFee, burned)).value;
              && TotalAssets(t) == TotalAssets(s)
              && Idle(t) == Idle(s) - amount
              && t == s.(usdc := Put(s.usdc, s.self, Idle(t)), sentFace6 := s.sentFace6 + amount,
                         inFlight6 := s.inFlight6 + amount, arbPrincipal6 := Outstanding(t))
  {
  }

  /** An inbound transfer goes through exactly when something is minted; that is idle and returned, and comes off the
    * attested value. */
  lemma InboundMoves(s: State, sender: Address, minted: nat)
    ensures var o := Apply(s, sender, CompleteInbound(minted));
            && (o.Some? <==> minted > 0)
            && (o.Some? ==>
                  && Idle(o.value) == Idle(s) + minted
                  && o.value == s.(usdc := Put(s.usdc, s.self, Idle(o.value)), retFace6 := s.retFace6 + minted,
                                   arbValue6 := Minus(s.arbValue6, minted), arbPrincipal6 := Outstanding(o.value)))
  {
  }

  /** Exactly when the owner's setters go through. */
  lemma OwnerSets(s: State, sender: Address, amount: nat, headroom: nat, flag: bool)
    ensures Apply(s, sender, SetParams(headroom, amount))
         == if sender == s.owner && headroom <= 3000 && 2_000_000 <= amount
            then Some(s.(headroomBps := headroom, minBridgeUsd6 := amount)) else None
    ensures Apply(s, sender, SetActive(flag)) == if sender == s.owner then Some(s.(isActive := flag)) else None
    ensures Apply(s, sender, SetKeeper(amount)) == if sender == s.owner && amount != 0 then Some(s.(keeper := amount)) else None
    ensures Apply(s, sender, SetVault(amount)) == if sender == s.owner && amount != 0 then Some(s.(vault := amount)) else None
  {
  }

  /** A recall pays what is idle and records the exact shortfall; a push pays the vault and works the shortfall off. */
  lemma VaultPayouts(s: State, sender: Address, amount: nat)
    requires s.vault != s.self
    ensures sender == s.vault ==>
              var o := Apply(s, sender, Recall(amount));
              var paid := if amount > Idle(s) then Idle(s) else amount;
              && o.Some?
              && Idle(o.value) == Idle(s) - paid
              && At(o.value.usdc, s.vault) == At(s.usdc, s.vault) + paid
              && o.value.pendingRecall6 == s.pendingRecall6 + (amount - paid)
    ensures sender != s.vault ==> Apply(s, sender, Recall(amount)).None?
    ensures Apply(s, sender, PushIdle(amount)).Some? <==>
              (sender == s.owner || sender == s.keeper) && amount > 0 && Idle(s) > 0 && s.vault != 0
    ensures Apply(s, sender, PushIdle(amount)).Some? ==>
              var t := Apply(s, sender, PushIdle(amount)).value;
              var paid := Idle(s) - Idle(t);
              && 0 < paid <= amount && (paid < amount ==> Idle(t) == 0)
              && At(t.usdc, s.vault) == At(s.usdc, s.vault) + paid
              && t.pendingRecall6 == Minus(s.pendingRecall6, paid)
  {
    TransferMoves(s.usdc, s.self, s.vault, if amount > Idle(s) then Idle(s) else amount);
  }

  /** What the keeper's two attestations do to the reported assets, and exactly when they are accepted. */
  lemma KeeperAttests(s: State, sender: Address, amount: nat)
    ensures var ack := Apply(s, sender, AckArrival(amount));
            && (ack.Some? <==> Keeper(s, sender) && amount <= s.inFlight6)
            && (ack.Some? ==> ack.value == s.(inFlight6 := s.inFlight6 - amount)
                              && TotalAssets(ack.value) == TotalAssets(s) - amount
                              && ack.value.sentFace6 - ack.value.inFlight6 == s.sentFace6 - s.inFlight6 + amount)
    ensures var sync := Apply(s, sender, SyncArbValue(amount));
            && (sync.Some? <==> Keeper(s, sender) && BPS * amount <= ArrivedFace(s) * (BPS + s.headroomBps))
            && (sync.Some? ==> sync.value == s.(arbValue6 := amount, arbPrincipal6 := Outstanding(s))
                               && TotalAssets(sync.value) == TotalAssets(s) - s.arbValue6 + amount)
  {
    CapBound(s);
    hide Cap;
  }

  class PTSleeveStrategy {
    const self: Address
    const owner: Address
    var keeper: Address
    var vault: Address
    var isActive: bool
    var usdc: Ledger
    var headroomBps: nat
    var minBridgeUsd6: nat
    var sentFace6: nat
    var retFace6: nat
    var inFlight6: nat
    var arbValue6: nat
    var arbPrincipal6: nat
    var pendingRecall6: nat
    ghost var received: nat // all USDC that came in from this chain
    ghost var paid: nat // all USDC paid to the vault

    constructor (self: Address, owner: Address, usdc: Ledger)
      requires self != 0
      ensures Valid() && received == At(usdc, self) && paid == 0
      ensures Abs() == Deployed(self, owner, usdc)
    {
      this.self, this.owner, this.usdc := self, owner, usdc;
      keeper, vault, isActive, headroomBps, minBridgeUsd6 := 0, 0, true, 2000, 5_000_000;
      sentFace6, retFace6, inFlight6, arbValue6, arbPrincipal6, pendingRecall6 := 0, 0, 0, 0, 0, 0;
      received, paid := At(usdc, self), 0;
    }

    function Abs(): State
      reads this
    {
      State(self, owner, keeper, vault, isActive, usdc, headroomBps, minBridgeUsd6, sentFace6, retFace6, inFlight6,
            arbValue6, arbPrincipal6, pendingRecall6)
    }

    /** The invariant of every run: nothing is overstated and every token is accounted for. */
    ghost predicate Valid()
      reads this
    {
      Sound(World(Abs(), received, paid))
    }

    /** Take down what a completed call paid the vault. */
    ghost method Account(before: State, sender: Address, call: Call)
      requires Sound(World(before, received, paid)) && !call.SetVault?
      requires Apply(before, sender, call) == Some(Abs())
      modifies this`paid
      ensures Valid()
      ensures paid == old(paid) + if call.PushIdle? || call.Recall? then Minus(Idle(before), Idle(Abs())) else 0
    {
      hide Apply, Sound;
      StepSound(World(before, received, paid), Act(sender, call));
      paid := paid + (if call.PushIdle? || call.Recall? then Minus(Idle(before), Idle(Abs())) else 0);
    }

    /** Burn idle USDC and book it as in flight: the reported assets stay. */
    method DoDeployToArb(sender: Address, amount: nat, maxFee: nat, burned: bool) returns (ok: bool)
      requires Valid()
      modifies this
      ensures Valid() && received == old(received) && paid == old(paid)
      ensures TotalAssets(Abs()) == old(TotalAssets(Abs()))
      ensures Ends(Apply(old(Abs()), sender, DeployToArb(amount, maxFee, burned)), old(Abs()), ok, Abs())
    {
      hide Sound;
      if (sender != owner && sender != keeper) || !isActive || amount < minBridgeUsd6 || maxFee > MAX_BURN_FEE6 {
        return false;
      }
      var bal := At(usdc, self);
      if amount > bal || !burned { return false; }
      var before, sent, inFlight := usdc, sentFace6, inFlight6;
      ghost var start := Abs();
      usdc := Put(usdc, self, bal - amount); // the burn
      sentFace6 := sentFace6 + amount;
      inFlight6 := inFlight6 + amount;
      if sentFace6 < retFace6 {
        usdc, sentFace6, inFlight6 := before, sent, inFlight; // the revert
        return false;
      }
      arbPrincipal6 := sentFace6 - retFace6;
      Account(start, sender, DeployToArb(amount, maxFee, burned));
      return true;
    }

    /** What was minted replaces attested value; only the excess raises the reported assets. */
    method DoCompleteInbound(sender: Address, minted: nat) returns (ok: bool, got: nat)
      requires Valid()
      modifies this
      ensures Valid() && received == old(received) && paid == old(paid)
      ensures ok <==> minted > 0
      ensures got == minted
      ensures TotalAssets(Abs()) == old(TotalAssets(Abs())) + Minus(minted, old(arbValue6))
      ensures Ends(Apply(old(Abs()), sender, CompleteInbound(minted)), old(Abs()), ok, Abs())
    {
      hide Sound;
      var balBefore := At(usdc, self);
      got := minted;
      if got == 0 { return false, 0; }
      ghost var start := Abs();
      usdc := Put(usdc, self, balBefore + minted); // the mint
      retFace6 := retFace6 + got;
      arbPrincipal6 := if sentFace6 > retFace6 then sentFace6 - retFace6 else 0;
      arbValue6 := if arbValue6 > got then arbValue6 - got else 0;
      Account(start, sender, CompleteInbound(minted));
      return true, got;
    }

    /** What arrived leaves the reported assets until it is attested, and widens the bound on that. */
    method DoAckArrival(sender: Address, amount: nat) returns (ok: bool)
      requires Valid()
      modifies this`inFlight6, this`paid
      ensures Valid() && paid == old(paid)
      ensures ok <==> (sender == owner || sender == keeper) && amount <= old(inFlight6)
      ensures ok ==> TotalAssets(Abs()) == old(TotalAssets(Abs())) - amount
      ensures WithinCap(old(Abs())) ==> WithinCap(Abs())
      ensures Ends(Apply(old(Abs()), sender, AckArrival(amount)), old(Abs()), ok, Abs())
    {
      hide Sound, WithinCap;
      if (sender != owner && sender != keeper) || amount > inFlight6 { return false; }
      ghost var start := Abs();
      inFlight6 := inFlight6 - amount;
      Account(start, sender, AckArrival(amount));
      if WithinCap(start) { CallKeepsCapIff(start, sender, AckArrival(amount)); }
      return true;
    }

    /** Every accepted attestation is within arrived face plus headroom. */
    method DoSyncArbValue(sender: Address, value: nat) returns (ok: bool)
      requires Valid()
      modifies this`arbValue6, this`arbPrincipal6, this`paid
      ensures Valid() && paid == old(paid)
      ensures ok <==> (sender == owner || sender == keeper)
                      && BPS * value <= ArrivedFace(old(Abs())) * (BPS + headroomBps)
      ensures ok ==> WithinCap(Abs()) && TotalAssets(Abs()) == old(TotalAssets(Abs()) - arbValue6) + value
      ensures Ends(Apply(old(Abs()), sender, SyncArbValue(value)), old(Abs()), ok, Abs())
    {
      hide Sound, CapOf;
      CapBound(Abs());
      if sender != owner && sender != keeper { return false; }
      ghost var start := Abs();
      var outstanding := if sentFace6 > retFace6 then sentFace6 - retFace6 else 0;
      var arrivedFace := if outstanding > inFlight6 then outstanding - inFlight6 else 0;
      if value > CapOf(arrivedFace, headroomBps) { return false; }
      arbValue6 := value;
      arbPrincipal6 := outstanding;
      Account(start, sender, SyncArbValue(value));
      CapBound(Abs());
      return true;
    }

    /** The vault gets up to what is idle, which is worked off the pending recall. */
    method DoPushIdle(sender: Address, amount: nat) returns (ok: bool)
      requires Valid()
      modifies this`usdc, this`pendingRecall6, this`paid
      ensures Valid()
      ensures ok <==> (sender == owner || sender == keeper) && amount > 0 && old(Idle(Abs())) > 0 && vault != 0
      ensures ok ==> PaidToVault(Least(amount, old(Idle(Abs()))))
      ensures ok ==> pendingRecall6 == Minus(old(pendingRecall6), Least(amount, old(Idle(Abs()))))
      ensures Ends(Apply(old(Abs()), sender, PushIdle(amount)), old(Abs()), ok, Abs())
    {
      if sender != owner && sender != keeper { return false; }
      var bal := At(usdc, self);
      var sent := if amount > bal then bal else amount;
      if sent == 0 || vault == 0 { return false; }
      ghost var start := Abs();
      usdc := Transfer(usdc, self, vault, sent).value;
      pendingRecall6 := if pendingRecall6 > sent then pendingRecall6 - sent else 0;
      Account(start, sender, PushIdle(amount));
      return true;
    }

    twostate predicate PaidToVault(amount: nat)
      reads this
    {
      && paid == old(paid) + amount
      && At(usdc, self) + amount == At(old(usdc), self)
      && At(usdc, vault) == At(old(usdc), vault) + amount
    }

    /** The vault gets what is idle; the rest of its request is pending. */
    method DoRecall(sender: Address, amount: nat) returns (ok: bool)
      requires Valid()
      modifies this`usdc, this`pendingRecall6, this`paid
      ensures Valid()
      ensures ok <==> sender == vault
      ensures ok ==> PaidToVault(Least(amount, old(Idle(Abs()))))
      ensures ok ==> pendingRecall6 - old(pendingRecall6) + (paid - old(paid)) == amount
      ensures Ends(Apply(old(Abs()), sender, Recall(amount)), old(Abs()), ok, Abs())
    {
      if sender != vault { return false; }
      if amount == 0 { return true; }
      ghost var start := Abs();
      var idle := At(usdc, self);
      var sent := if amount > idle then idle else amount;
      if sent > 0 { usdc := Transfer(usdc, self, vault, sent).value; }
      var shortfall := amount - sent;
      if shortfall > 0 { pendingRecall6 := pendingRecall6 + shortfall; }
      Account(start, sender, Recall(amount));
      return true;
    }

    /** A headroom up to 30%; the bound survives exactly when it is wide enough for what is attested. */
    method DoSetParams(sender: Address, newHeadroomBps: nat, newMinBridgeUsd6: nat) returns (ok: bool)
      requires Valid()
      modifies this`headroomBps, this`minBridgeUsd6, this`paid
      ensures Valid() && paid == old(paid)
      ensures TotalAssets(Abs()) == old(TotalAssets(Abs()))
      ensures ok && WithinCap(old(Abs())) ==>
                (WithinCap(Abs()) <==> BPS * arbValue6 <= ArrivedFace(Abs()) * (BPS + newHeadroomBps))
      ensures Ends(Apply(old(Abs()), sender, SetParams(newHeadroomBps, newMinBridgeUsd6)), old(Abs()), ok, Abs())
    {
      hide Sound, WithinCap;
      if sender != owner || newHeadroomBps > MAX_HEADROOM_BPS || newMinBridgeUsd6 < MIN_BRIDGE_FLOOR6 { return false; }
      ghost var start := Abs();
      headroomBps, minBridgeUsd6 := newHeadroomBps, newMinBridgeUsd6;
      Account(start, sender, SetParams(newHeadroomBps, newMinBridgeUsd6));
      if WithinCap(start) { CallKeepsCapIff(start, sender, SetParams(newHeadroomBps, newMinBridgeUsd6)); }
      return true;
    }
  }
}
