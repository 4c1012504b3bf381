/** BaseStrategy and DeltaNeutralStrategy: the strategy the vault allocates to, recalls from and harvests. */
module DeltaNeutral {
  import opened Common

  const BPS_DENOM: nat := 10000
  const SECONDS_PER_YEAR: nat := 31_536_000
  const MAX_RATE_BPS: nat := 10_000

  /** The storage of one strategy. Address zero is the unset funding source. */
  datatype Strategy = Strategy(
    isActive: bool,
    owner: Address,
    keeper: Address,
    vault: Address,
    delta: nat,
    fundingRate: nat,
    lastAccrual: nat,
    accruedFunding: nat,
    totalPrincipal: nat,
    positions: Ledger,
    fundingSource: Address,
    totalDebt: nat)

  /** The underlying token and one strategy after a completed call, with the profit swept to the vault. */
  datatype After = After(token: Ledger, d: Strategy, profit: nat)

  function Clamp(raw: nat): nat {
    if raw > MAX_RATE_BPS then MAX_RATE_BPS else raw
  }

  /** The funding on a notional at an annual rate in basis points. */
  function Funding(notional: nat, rate: nat, elapsed: nat): nat {
    var annual: nat := notional * rate;
    var scaled: nat := annual * elapsed;
    scaled / (SECONDS_PER_YEAR * BPS_DENOM)
  }

  /** What a settlement at `now` books. */
  function DueNow(d: Strategy, now: nat): nat {
    if now < d.lastAccrual || d.delta == 0 || d.fundingSource == 0 || d.fundingRate == 0 then 0
    else Funding(d.delta, d.fundingRate, now - d.lastAccrual)
  }

  /** Book the funding due since the last accrual. `payment` is what the source's call does: None if it fails, else the
    * tokens it moves from the source. The strategy books the amount due whatever was moved. */
  function SettleAccrued(token: Ledger, d: Strategy, self: Address, now: nat, payment: Option<nat>): (r: Option<After>)
    ensures r.Some? ==> r.value.d == d.(lastAccrual := now, accruedFunding := d.accruedFunding + DueNow(d, now))
                        && r.value.profit == 0
  {
    if now < d.lastAccrual then None
    else if DueNow(d, now) == 0 then Some(After(token, d.(lastAccrual := now), 0))
    else if payment.None? then None
    else
      match Transfer(token, d.fundingSource, self, payment.value)
      case None => None
      case Some(t) => Some(After(t, d.(lastAccrual := now, accruedFunding := d.accruedFunding + DueNow(d, now)), 0))
  }

  datatype Call =
    | OpenPosition(size: nat, payment: Option<nat>)
    | ClosePosition(payment: Option<nat>)
    | UpdateFunding(rate: Option<nat>)
    | Harvest(rate: Option<nat>, payment: Option<nat>)
    | Recall(amount: nat)
    | SetActive(active: bool)

  function OpenSpec(token: Ledger, d: Strategy, self: Address, now: nat, sender: Address, size: nat,
                    payment: Option<nat>): Option<After> {
    if sender != d.owner || size == 0 then None
    else
      match SettleAccrued(token, d, self, now, payment)
      case None => None
      case Some(r) =>
        Some(r.(d := r.d.(positions := Put(r.d.positions, sender, At(r.d.positions, sender) + size),
                          delta := r.d.delta + size, totalPrincipal := r.d.totalPrincipal + size)))
  }

  function CloseSpec(token: Ledger, d: Strategy, self: Address, now: nat, sender: Address,
                     payment: Option<nat>): Option<After> {
    var size := At(d.positions, sender);
    if sender != d.owner || size == 0 then None
    else
      match SettleAccrued(token, d, self, now, payment)
      case None => None
      case Some(r) =>
        if r.d.delta < size then None
        else
          Some(r.(d := r.d.(delta := r.d.delta - size, positions := Put(r.d.positions, sender, 0),
                            totalPrincipal := if r.d.totalPrincipal >= size then r.d.totalPrincipal - size
                                              else r.d.totalPrincipal)))
  }

  /** Settle at the freshly fetched rate; a harvest by the vault also sweeps the accrued funding to it.
    * `rate` is the oracle's answer, None for an oracle that reverts. */
  function HarvestSpec(token: Ledger, d: Strategy, self: Address, now: nat, sender: Address,
                       rate: Option<nat>, payment: Option<nat>): Option<After> {
    if !d.isActive || rate.None? || (sender != d.owner && sender != d.keeper && sender != d.vault) then None
    else
      match SettleAccrued(token, d.(fundingRate := Clamp(rate.value)), self, now, payment)
      case None => None
      case Some(r) => SweepSpec(r.token, r.d, self, sender)
  }

  function SweepSpec(token: Ledger, d: Strategy, self: Address, sender: Address): Option<After> {
    var swept := Swept(token, d, self, sender);
    if swept == 0 then Some(After(token, d, 0))
    else
      match Transfer(token, self, d.vault, swept)
      case None => None
      case Some(t) =>
        Some(After(t, d.(accruedFunding := d.accruedFunding - swept, totalDebt := d.totalDebt + swept), swept))
  }

  function Swept(token: Ledger, d: Strategy, self: Address, sender: Address): (swept: nat)
    ensures swept <= d.accruedFunding && swept <= At(token, self)
  {
    if sender != d.vault then 0 else Least(d.accruedFunding, At(token, self))
  }

  /** Pay up to `amount` of the balance back to the vault, on the vault's request only. */
  function RecallSpec(token: Ledger, d: Strategy, self: Address, sender: Address, amount: nat): Option<Ledger> {
    if sender != d.vault then None
    else
      var paid := if amount > At(token, self) then At(token, self) else amount;
      if paid == 0 then Some(token) else Transfer(token, self, d.vault, paid)
  }

  function Apply(token: Ledger, d: Strategy, self: Address, now: nat, sender: Address, call: Call): Option<After> {
    match call
    case OpenPosition(size, payment) => OpenSpec(token, d, self, now, sender, size, payment)
    case ClosePosition(payment) => CloseSpec(token, d, self, now, sender, payment)
    case UpdateFunding(rate) =>
      if sender != d.owner || rate.None? then None else Some(After(token, d.(fundingRate := Clamp(rate.value)), 0))
    case Harvest(rate, payment) => HarvestSpec(token, d, self, now, sender, rate, payment)
    case Recall(amount) =>
      (match RecallSpec(token, d, self, sender, amount)
       case None => None
       case Some(t) => Some(After(t, d, 0)))
    case SetActive(active) => if sender != d.owner then None else Some(After(token, d.(isActive := active), 0))
  }

  // ---- the funding ledger ----

  /** The funding a completed call books, at the rate it settles at. */
  function Booked(d: Strategy, now: nat, call: Call): nat {
    match call
    case OpenPosition(_, _) => DueNow(d, now)
    case ClosePosition(_) => DueNow(d, now)
    case Harvest(Some(rate), _) => DueNow(d.(fundingRate := Clamp(rate)), now)
    case _ => 0
  }

  /** The funding a completed call was paid: nothing is asked for when nothing is due. */
  function Paid(d: Strategy, now: nat, call: Call): nat {
    if Booked(d, now, call) == 0 then 0
    else
      match call
      case OpenPosition(_, Some(paid)) => paid
      case ClosePosition(Some(paid)) => paid
      case Harvest(_, Some(paid)) => paid
      case _ => 0
  }

  /** What a call adds to the accrued funding or sweeps to the vault is what it booked; the tokens that came in are what
    * the source paid, so books and tokens drift apart by exactly the shortfall of the payment. A harvest by the vault
    * sweeps all accrued funding, or as much as the strategy holds. */
  lemma BooksDriftByShortfall(token: Ledger, d: Strategy, self: Address, now: nat, sender: Address, call: Call)
    requires d.fundingSource != self && d.vault != self
    requires Apply(token, d, self, now, sender, call).Some?
    ensures var r := Apply(token, d, self, now, sender, call).value;
            && r.d.accruedFunding + r.profit == d.accruedFunding + Booked(d, now, call)
            && r.d.totalDebt == d.totalDebt + r.profit
            && (!call.Recall? ==> At(r.token, self) + r.profit == At(token, self) + Paid(d, now, call))
            && (!call.Recall? ==> (At(r.token, self) - r.d.accruedFunding) - (At(token, self) - d.accruedFunding)
                                  == Paid(d, now, call) - Booked(d, now, call))
            && (call.Harvest? && sender == d.vault ==> r.d.accruedFunding == 0 || At(r.token, self) == 0)
            && (sender != d.vault ==> r.profit == 0)
  {
    hide Funding, Clamp;
  }

  /** A source that takes the call and pays nothing, as an account without code does: the funding of a year is booked
    * with no tokens behind it. */
  lemma UnpaidFundingIsBooked(d: Strategy)
    requires d == Strategy(true, 2, 0, 9, 0, 0, 0, 0, 0, map[], 7, 0)
    ensures var first := Apply(map[], d, 1, 0, 2, OpenPosition(1000, None));
            && first.Some?
            && var o := Apply(map[], first.value.d, 1, SECONDS_PER_YEAR, 2, Harvest(Some(500), Some(0)));
            && o.Some? && o.value.d.accruedFunding == 50 && At(o.value.token, 1) == 0
  {
    YearPaysRate(1000, 500);
  }

  /** Whatever the oracle answers, one harvest books no more than a 100% annual rate on the open notional. */
  lemma FundingWithinFullRate(token: Ledger, d: Strategy, self: Address, now: nat, sender: Address,
                              rate: Option<nat>, payment: Option<nat>)
    requires d.lastAccrual <= now && Apply(token, d, self, now, sender, Harvest(rate, payment)).Some?
    ensures var r := Apply(token, d, self, now, sender, Harvest(rate, payment)).value;
            (r.d.accruedFunding + r.profit - d.accruedFunding) * SECONDS_PER_YEAR <= d.delta * (now - d.lastAccrual)
  {
    hide Funding;
    FundingBound(d.delta, Clamp(rate.value), now - d.lastAccrual);
  }

  lemma FundingBound(notional: nat, rate: nat, elapsed: nat)
    requires rate <= MAX_RATE_BPS
    ensures Funding(notional, rate, elapsed) * SECONDS_PER_YEAR <= notional * elapsed
  {
    var x: nat := notional * elapsed;
    var scaled: nat := notional * rate * elapsed;
    assert scaled == x * rate <= x * MAX_RATE_BPS;
    assert Funding(notional, rate, elapsed) == scaled / (SECONDS_PER_YEAR * BPS_DENOM);
    assert Funding(notional, rate, elapsed) * (SECONDS_PER_YEAR * BPS_DENOM) <= scaled;
  }

  /** A year at a rate in basis points pays that part of the notional. */
  lemma YearPaysRate(notional: nat, rate: nat)
    ensures Funding(notional, rate, SECONDS_PER_YEAR) == notional * rate / BPS_DENOM
  {
    var annual: nat := notional * rate;
    var q, r := annual / BPS_DENOM, annual % BPS_DENOM;
    assert annual * SECONDS_PER_YEAR == q * (SECONDS_PER_YEAR * BPS_DENOM) + r * SECONDS_PER_YEAR;
  }

  // ---- single calls, amount by amount ----

  /** `due` is the floor of the funding on the notional at that annual rate over the time since the last accrual; nothing
    * without a source. */
  predicate IsDue(d: Strategy, rate: nat, now: nat, due: nat) {
    if d.fundingSource == 0 || d.delta == 0 || rate == 0 || now < d.lastAccrual then due == 0
    else
      && due * (SECONDS_PER_YEAR * BPS_DENOM) <= d.delta * rate * (now - d.lastAccrual)
      && d.delta * rate * (now - d.lastAccrual) < (due + 1) * (SECONDS_PER_YEAR * BPS_DENOM)
  }

  lemma IsDueNow(d: Strategy, now: nat, due: nat)
    requires IsDue(d, d.fundingRate, now, due)
    ensures DueNow(d, now) == due
  {
  }

  /** A settlement fails exactly when time runs backwards or the source does not pay what is due. */
  predicate Settles(token: Ledger, d: Strategy, now: nat, due: nat, payment: Option<nat>) {
    d.lastAccrual <= now && (due > 0 ==> payment.Some? && payment.value <= At(token, d.fundingSource))
  }

  /** The tokens that come in with it. */
  function Came(due: nat, payment: Option<nat>): nat {
    if due > 0 && payment.Some? then payment.value else 0
  }

  lemma SettleMoves(token: Ledger, d: Strategy, self: Address, now: nat, due: nat, payment: Option<nat>)
    requires d.fundingSource != self && IsDue(d, d.fundingRate, now, due)
    ensures var o := SettleAccrued(token, d, self, now, payment);
            && (o.Some? <==> Settles(token, d, now, due, payment))
            && (o.Some? ==>
                  && o.value.profit == 0
                  && o.value.d == d.(lastAccrual := now, accruedFunding := d.accruedFunding + due)
                  && forall a: Address :: At(o.value.token, a) ==
                       At(token, a) + (if a == self then Came(due, payment) else 0)
                       - (if a == d.fundingSource then Came(due, payment) else 0))
  {
    IsDueNow(d, now, due);
    hide DueNow;
  }

  /** When a harvest goes through, what it books at the clamped rate, and what the vault gets: all accrued funding
    * or all the strategy then holds. Any other caller sweeps nothing. */
  lemma HarvestPays(token: Ledger, d: Strategy, self: Address, now: nat, sender: Address, rate: nat, payment: Option<nat>,
                    due: nat)
    requires d.fundingSource != self && d.vault != self && (d.fundingSource == d.vault ==> d.fundingSource == 0)
    requires IsDue(d, Least(rate, MAX_RATE_BPS), now, due)
    ensures var o := Apply(token, d, self, now, sender, Harvest(Some(rate), payment));
            && (o.Some? <==> && d.isActive && (sender == d.owner || sender == d.keeper || sender == d.vault)
                             && Settles(token, d, now, due, payment))
            && (o.Some? ==>
                  var held := At(token, self) + Came(due, payment);
                  var swept := if sender == d.vault then Least(d.accruedFunding + due, held) else 0;
                  && o.value.d == d.(fundingRate := Least(rate, MAX_RATE_BPS), lastAccrual := now,
                                     accruedFunding := d.accruedFunding + due - swept, totalDebt := d.totalDebt + swept)
                  && o.value.profit == swept
                  && At(o.value.token, self) == held - swept
                  && At(o.value.token, d.vault) == At(token, d.vault) + swept)
  {
    hide SettleAccrued, Transfer, IsDue, Settles;
    NothingFromNowhere(d, Least(rate, MAX_RATE_BPS), now, due);
    var clamped := d.(fundingRate := Clamp(rate));
    SameDue(d, clamped, now, due, token, payment);
    SettleMoves(token, clamped, self, now, due, payment);
    var r := SettleAccrued(token, clamped, self, now, payment);
    if r.Some? {
      TransferMoves(r.value.token, self, d.vault, Swept(r.value.token, r.value.d, self, sender));
    }
  }

  lemma NothingFromNowhere(d: Strategy, rate: nat, now: nat, due: nat)
    requires IsDue(d, rate, now, due)
    ensures d.fundingSource == 0 ==> due == 0
  {
  }

  lemma HarvestNeedsRate(token: Ledger, d: Strategy, self: Address, now: nat, sender: Address, payment: Option<nat>)
    ensures Apply(token, d, self, now, sender, Harvest(None, payment)).None?
  {
  }

  lemma SameDue(d: Strategy, clamped: Strategy, now: nat, due: nat, token: Ledger, payment: Option<nat>)
    requires clamped == d.(fundingRate := clamped.fundingRate) && IsDue(d, clamped.fundingRate, now, due)
    ensures IsDue(clamped, clamped.fundingRate, now, due)
    ensures Settles(token, clamped, now, due, payment) <==> Settles(token, d, now, due, payment)
  {
  }

  /** Opening settles at the old notional, then adds to it; closing settles, then removes what the caller opened. */
  lemma PositionsMove(token: Ledger, d: Strategy, self: Address, now: nat, sender: Address, size: nat,
                      payment: Option<nat>, due: nat)
    requires d.fundingSource != self && IsDue(d, d.fundingRate, now, due)
    ensures var o := Apply(token, d, self, now, sender, OpenPosition(size, payment));
            && (o.Some? <==> sender == d.owner && size > 0 && Settles(token, d, now, due, payment))
            && (o.Some? ==>
                  && At(o.value.token, self) == At(token, self) + Came(due, payment)
                  && o.value.d == d.(lastAccrual := now, accruedFunding := d.accruedFunding + due, delta := d.delta + size,
                                     positions := Put(d.positions, sender, At(d.positions, sender) + size),
                                     totalPrincipal := d.totalPrincipal + size))
    ensures var o := Apply(token, d, self, now, sender, ClosePosition(payment));
            var held := At(d.positions, sender);
            && (o.Some? <==> sender == d.owner && 0 < held <= d.delta && Settles(token, d, now, due, payment))
            && (o.Some? ==>
                  && At(o.value.token, self) == At(token, self) + Came(due, payment)
                  && o.value.d == d.(lastAccrual := now, accruedFunding := d.accruedFunding + due, delta := d.delta - held,
                                     positions := Put(d.positions, sender, 0),
                                     totalPrincipal := if held <= d.totalPrincipal then d.totalPrincipal - held
                                                       else d.totalPrincipal))
  {
    hide SettleAccrued, IsDue;
    SettleMoves(token, d, self, now, due, payment);
  }

  /** Exactly when the other calls go through; a recall pays the vault the smaller of request and balance. */
  lemma OthersMove(token: Ledger, d: Strategy, self: Address, now: nat, sender: Address, amount: nat, flag: bool)
    requires d.vault != self
    ensures Apply(token, d, self, now, sender, UpdateFunding(None)).None?
    ensures Apply(token, d, self, now, sender, UpdateFunding(Some(amount)))
         == if sender == d.owner then Some(After(token, d.(fundingRate := Least(amount, 10000)), 0)) else None
    ensures Apply(token, d, self, now, sender, SetActive(flag))
         == if sender == d.owner then Some(After(token, d.(isActive := flag), 0)) else None
    ensures var o := Apply(token, d, self, now, sender, Recall(amount));
            && (o.Some? <==> sender == d.vault)
            && (o.Some? ==>
                  && o.value.d == d && o.value.profit == 0
                  && At(o.value.token, self) == At(token, self) - Least(amount, At(token, self))
                  && At(o.value.token, d.vault) == At(token, d.vault) + Least(amount, At(token, self)))
  {
    TransferMoves(token, self, d.vault, Least(amount, At(token, self)));
    hide Transfer;
  }

  class DeltaNeutralStrategy {
    const self: Address
    const owner: Address
    var token: Ledger
    var isActive: bool
    var keeper: Address
    var vault: Address
    var delta: nat
    var fundingRate: nat
    var lastAccrual: nat
    var accruedFunding: nat
    var totalPrincipal: nat
    var positions: Ledger
    var fundingSource: Address
    var totalDebt: nat
    ghost var booked: nat // all funding ever booked
    ghost var paid: nat // all funding ever paid in

    constructor (self: Address, owner: Address, token: Ledger, now: nat)
      ensures Valid() && booked == paid == 0
      ensures this.self == self && this.token == token
      ensures Abs() == Strategy(true, owner, 0, 0, 0, 0, now, 0, 0, map[], 0, 0)
    {
      this.self, this.owner, this.token := self, owner, token;
      isActive, keeper, vault, delta, fundingRate := true, 0, 0, 0, 0;
      lastAccrual, accruedFunding, totalPrincipal, positions, fundingSource, totalDebt := now, 0, 0, map[], 0, 0;
      booked, paid := 0, 0;
    }

    function Abs(): Strategy
      reads this
    {
      Strategy(isActive, owner, keeper, vault, delta, fundingRate, lastAccrual, accruedFunding, totalPrincipal,
               positions, fundingSource, totalDebt)
    }

    /** Funding still accrued and funding swept (totalDebt) are together all that was ever booked. */
    ghost predicate Valid()
      reads this
    {
      accruedFunding + totalDebt == booked
    }

    /** The strategy's own tokens changed by what came in, less what was swept. */
    twostate predicate TokensFollow()
      reads this
    {
      fundingSource != self && vault != self ==>
        At(token, self) + totalDebt - old(totalDebt) == old(At(token, self)) + paid - old(paid)
    }

    /** The token ledger and the storage together. */
    function Both(): (Ledger, Strategy)
      reads this
    {
      (token, Abs())
    }

    method DoSettle(now: nat, payment: Option<nat>) returns (ok: bool)
      requires Valid()
      modifies this
      ensures Valid() && TokensFollow()
      ensures ok ==> booked == old(booked) + DueNow(old(Abs()), now)
      ensures match SettleAccrued(old(token), old(Abs()), self, now, payment)
              case None => !ok && Both() == old(Both()) && booked == old(booked) && paid == old(paid)
              case Some(r) => ok && Both() == (r.token, r.d)
    {
      hide Funding;
      if now < lastAccrual { return false; }
      var elapsed := now - lastAccrual;
      var mark := lastAccrual;
      lastAccrual := now;
      if delta == 0 || fundingSource == 0 || fundingRate == 0 { return true; }
      var amount := Funding(delta, fundingRate, elapsed);
      if amount == 0 { return true; }
      if payment.None? {
        lastAccrual := mark; // the revert
        return false;
      }
      var moved := Transfer(token, fundingSource, self, payment.value);
      if moved.None? {
        lastAccrual := mark; // the revert
        return false;
      }
      token := moved.value;
      accruedFunding := accruedFunding + amount;
      booked, paid := booked + amount, paid + payment.value;
      return true;
    }

    method DoOpenPosition(sender: Address, now: nat, size: nat, payment: Option<nat>) returns (ok: bool)
      requires Valid()
      modifies this
      ensures Valid() && TokensFollow()
      ensures match Apply(old(token), old(Abs()), self, now, sender, OpenPosition(size, payment))
              case None => !ok && Both() == old(Both())
              case Some(r) => ok && Both() == (r.token, r.d)
    {
      hide SettleAccrued, DueNow;
      if sender != owner || size == 0 { return false; }
      ok := DoSettle(now, payment);
      if !ok { return false; }
      positions := Put(positions, sender, At(positions, sender) + size);
      delta := delta + size;
      totalPrincipal := totalPrincipal + size;
    }

    method DoClosePosition(sender: Address, now: nat, payment: Option<nat>) returns (ok: bool)
      requires Valid()
      modifies this
      ensures Valid() && TokensFollow()
      ensures match Apply(old(token), old(Abs()), self, now, sender, ClosePosition(payment))
              case None => !ok && Both() == old(Both())
              case Some(r) => ok && Both() == (r.token, r.d)
    {
      hide SettleAccrued, DueNow, At;
      var size := At(positions, sender);
      if sender != owner || size == 0 { return false; }
      var tokenBefore, accrued, last := token, accruedFunding, lastAccrual;
      ghost var bookedBefore, paidBefore := booked, paid;
      ok := DoSettle(now, payment);
      if !ok { return false; }
      if delta < size {
        token, accruedFunding, lastAccrual := tokenBefore, accrued, last; // the revert
        booked, paid := bookedBefore, paidBefore;
        return false;
      }
      delta := delta - size;
      positions := Put(positions, sender, 0);
      if totalPrincipal >= size { totalPrincipal := totalPrincipal - size; }
    }

    method DoHarvest(sender: Address, now: nat, rate: Option<nat>, payment: Option<nat>) returns (ok: bool)
      requires Valid()
      modifies this
      ensures Valid() && TokensFollow()
      ensures match Apply(old(token), old(Abs()), self, now, sender, Harvest(rate, payment))
              case None => !ok && Both() == old(Both())
              case Some(r) => ok && Both() == (r.token, r.d)
    {
      hide SettleAccrued, Clamp, DueNow, SweepSpec, Transfer;
      if !isActive || rate.None? || (sender != owner && sender != keeper && sender != vault) { return false; }
      var rateBefore := fundingRate;
      fundingRate := Clamp(rate.value);
      ok := DoSettle(now, payment);
      if !ok {
        fundingRate := rateBefore; // the revert
        return false;
      }
      DoSweep(sender);
    }

    /** The sweep of a harvest: all accrued funding or all that is there, for the vault alone. */
    method DoSweep(sender: Address)
      requires Valid()
      modifies this`token, this`accruedFunding, this`totalDebt
      ensures Valid() && TokensFollow()
      ensures sender == vault ==> accruedFunding == 0 || vault == self || At(token, self) == 0
      ensures totalDebt >= old(totalDebt)
      ensures SweepSpec(old(token), old(Abs()), self, sender)
              == Some(After(token, Abs(), totalDebt - old(totalDebt)))
    {
      if sender != vault || accruedFunding == 0 { return; }
      var swept := accruedFunding;
      if swept > At(token, self) { swept := At(token, self); }
      if swept == 0 { return; }
      accruedFunding := accruedFunding - swept;
      token := Transfer(token, self, vault, swept).value;
      totalDebt := totalDebt + swept;
    }

    /** Pay the vault, and nobody else, up to the request; the books stay as they are. */
    method DoRecall(sender: Address, amount: nat) returns (ok: bool)
      requires Valid()
      modifies this`token
      ensures Valid()
      ensures ok <==> sender == vault
      ensures !ok ==> token == old(token)
      ensures ok && vault != self ==>
                var sent := Least(amount, old(At(token, self)));
                && At(token, vault) == old(At(token, vault)) + sent
                && At(token, self) == old(At(token, self)) - sent
                && forall a: Address :: a != vault && a != self ==> At(token, a) == old(At(token, a))
      ensures ok ==> RecallSpec(old(token), Abs(), self, sender, amount) == Some(token)
    {
      if sender != vault { return false; }
      var sent := amount;
      if sent > At(token, self) { sent := At(token, self); }
      if sent == 0 { return true; }
      token := Transfer(token, self, vault, sent).value;
      return true;
    }
  }
}
