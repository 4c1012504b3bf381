/** Addresses, the mappings of Solidity storage, ERC-20 balances and finite sums over accounts. */
module Common {

  datatype Option<+T> = None | Some(value: T)

  /** What a call leaves: the new state of a completed one, the old state of a reverted one. */
  ghost predicate Ends<S>(o: Option<S>, before: S, ok: bool, after: S) {
    match o
    case None => !ok && after == before
    case Some(s) => ok && after == s
  }

  /** Subtraction that stops at zero. */
  function Minus(x: nat, y: nat): nat {
    if x > y then x - y else 0
  }

  function Least(x: nat, y: nat): nat {
    if x < y then x else y
  }

  ghost predicate Distinct<T>(list: seq<T>) {
    forall i, j :: 0 <= i < j < |list| ==> list[i] != list[j]
  }

  // ---- runs ----

  /** The state after the events of a run, one step each. */
  ghost function Fold<W, E>(step: (W, E) -> W, w: W, es: seq<E>): W {
    if es == [] then w else step(Fold(step, w, es[..|es| - 1]), es[|es| - 1])
  }

  lemma FoldStep<W, E>(step: (W, E) -> W, w: W, es: seq<E>, e: E)
    ensures Fold(step, w, []) == w
    ensures Fold(step, w, es + [e]) == step(Fold(step, w, es), e)
  {
    assert (es + [e])[..|es|] == es;
  }

  type Address = nat

  /** A Solidity mapping from addresses to unsigned integers: an absent key reads as zero. */
  type Ledger = map<Address, nat>

  function At(m: Ledger, a: Address): nat {
    if a in m then m[a] else 0
  }

  function Put(m: Ledger, a: Address, v: nat): (r: Ledger)
    ensures forall b: Address {:trigger At(r, b)} :: At(r, b) == if b == a then v else At(m, b)
  {
    m[a := v]
  }

  /** An ERC-20 transfer; None is the revert for a balance that is too small. */
  function Transfer(m: Ledger, from: Address, to: Address, amount: nat): Option<Ledger> {
    if At(m, from) < amount then None
    else
      var debited := Put(m, from, At(m, from) - amount);
      Some(Put(debited, to, At(debited, to) + amount))
  }

  lemma TransferMoves(m: Ledger, from: Address, to: Address, amount: nat)
    ensures Transfer(m, from, to, amount).Some? <==> amount <= At(m, from)
    ensures Transfer(m, from, to, amount).Some? && from != to ==>
              var r := Transfer(m, from, to, amount).value;
              && At(r, from) == At(m, from) - amount
              && At(r, to) == At(m, to) + amount
              && forall a: Address {:trigger At(r, a)} :: a != from && a != to ==> At(r, a) == At(m, a)
  {
  }

  // ---- finite sums ----

  ghost function Pick(us: set<Address>): (a: Address)
    requires us != {}
    ensures a in us
  {
    var a :| a in us; a
  }

  /** The sum of `f` over the accounts in `us`. */
  ghost function Sum(us: set<Address>, f: Address -> int): int {
    if us == {} then 0 else f(Pick(us)) + Sum(us - {Pick(us)}, f)
  }

  /** The entries of a ledger as a function of the account. */
  ghost function Of(m: Ledger): Address -> int {
    (a: Address) => At(m, a)
  }

  lemma {:induction false} SumSplit(us: set<Address>, f: Address -> int, a: Address)
    requires a in us
    ensures Sum(us, f) == f(a) + Sum(us - {a}, f)
  {
    var b := Pick(us);
    if a != b {
      SumSplit(us - {b}, f, a);
      SumSplit(us - {a}, f, b);
      assert us - {b} - {a} == us - {a} - {b};
    }
  }

  lemma {:induction false} SumLinear(us: set<Address>, f: Address -> int, g: Address -> int, k: int, h: Address -> int)
    requires forall a :: a in us ==> h(a) == f(a) + k * g(a)
    ensures Sum(us, h) == Sum(us, f) + k * Sum(us, g)
  {
    if us != {} {
      var b := Pick(us);
      SumLinear(us - {b}, f, g, k, h);
      assert k * (g(b) + Sum(us - {b}, g)) == k * g(b) + k * Sum(us - {b}, g);
    }
  }

  lemma {:induction false} SumAtMost(us: set<Address>, f: Address -> int, g: Address -> int)
    requires forall a :: a in us ==> f(a) <= g(a)
    ensures Sum(us, f) <= Sum(us, g)
  {
    if us != {} {
      SumAtMost(us - {Pick(us)}, f, g);
    }
  }

  lemma SumSame(us: set<Address>, f: Address -> int, g: Address -> int)
    requires forall a :: a in us ==> f(a) == g(a)
    ensures Sum(us, f) == Sum(us, g)
  {
    SumAtMost(us, f, g);
    SumAtMost(us, g, f);
  }

  /** Two functions that differ at one account only. */
  lemma SumUpdate(us: set<Address>, f: Address -> int, g: Address -> int, a: Address)
    requires a in us
    requires forall b :: b in us && b != a ==> g(b) == f(b)
    ensures Sum(us, g) == Sum(us, f) - f(a) + g(a)
  {
    SumSplit(us, f, a);
    SumSplit(us, g, a);
    SumSame(us - {a}, f, g);
  }

  lemma SumNonNegative(us: set<Address>, f: Address -> int)
    requires forall a :: a in us ==> 0 <= f(a)
    ensures 0 <= Sum(us, f)
    ensures forall a :: a in us ==> f(a) <= Sum(us, f)
  {
    SumOfZeros(us);
    SumAtMost(us, _ => 0, f);
    forall a | a in us ensures f(a) <= Sum(us, f) {
      SumSplit(us, f, a);
      SumOfZeros(us - {a});
      SumAtMost(us - {a}, _ => 0, f);
    }
  }

  lemma {:induction false} SumOfZeros(us: set<Address>)
    ensures Sum(us, _ => 0) == 0
  {
    if us != {} {
      SumOfZeros(us - {Pick(us)});
    }
  }

  /** A transfer moves exactly its amount into and out of any group of accounts. */
  lemma TransferSum(us: set<Address>, m: Ledger, from: Address, to: Address, amount: nat)
    requires Transfer(m, from, to, amount).Some?
    ensures Sum(us, Of(Transfer(m, from, to, amount).value))
            == Sum(us, Of(m)) - (if from in us then amount else 0) + (if to in us then amount else 0)
  {
    hide Sum, Of;
    var debited := Put(m, from, At(m, from) - amount);
    PutSum(us, m, from, At(m, from) - amount);
    PutSum(us, debited, to, At(debited, to) + amount);
  }

  /** An absent key adds nothing. */
  lemma SumOverKeys(m: Ledger, a: Address)
    ensures Sum(m.Keys + {a}, Of(m)) == Sum(m.Keys, Of(m))
  {
    if a in m {
      assert m.Keys + {a} == m.Keys;
    } else {
      SumSplit(m.Keys + {a}, Of(m), a);
      assert m.Keys + {a} - {a} == m.Keys;
    }
  }

  lemma PutSum(us: set<Address>, m: Ledger, a: Address, v: nat)
    ensures Sum(us, Of(Put(m, a, v))) == Sum(us, Of(m)) + (if a in us then v - At(m, a) else 0)
  {
    if a in us {
      SumUpdate(us, Of(m), Of(Put(m, a, v)), a);
    } else {
      SumSame(us, Of(m), Of(Put(m, a, v)));
    }
  }
}
