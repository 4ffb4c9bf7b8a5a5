/** The gas limit a validator's preference leads to, block after block. */
module GasLimit {
  import opened Words

  const MIN_GAS_LIMIT: nat := 5000
  const GAS_LIMIT_BOUND_DIVISOR: nat := 1024

  function Desired(target: U64): U64 {
    if target < MIN_GAS_LIMIT then MIN_GAS_LIMIT else target
  }

  /** The step in exact arithmetic. */
  function Delta(parent: int): int {
    parent / GAS_LIMIT_BOUND_DIVISOR - 1
  }

  /** The suggestion, reassigned step by step in 64-bit arithmetic that wraps. */
  method SuggestGasLimit(target: U64, parent: U64) returns (limit: U64)
    ensures limit == Suggest(target, parent)
  {
    if parent == 0 {
      return parent;
    }
    var delta := WrappingSub64(parent / GAS_LIMIT_BOUND_DIVISOR, 1);
    limit := parent;
    var desired := target;
    if desired < MIN_GAS_LIMIT {
      desired := MIN_GAS_LIMIT;
    }
    if limit < desired {
      limit := WrappingAdd64(parent, delta);
      if limit > desired {
        limit := desired;
      }
      return;
    }
    if limit > desired {
      limit := WrappingSub64(parent, delta);
      if limit < desired {
        limit := desired;
      }
    }
  }

  /** One step from the parent's limit towards the desired one, modulo 2^64. */
  function Suggest(target: U64, parent: U64): U64 {
    var desired := Desired(target);
    var delta := WrappingSub64(parent / GAS_LIMIT_BOUND_DIVISOR, 1);
    if parent == 0 || parent == desired then parent
    else if parent < desired then
      var up := WrappingAdd64(parent, delta);
      if up > desired then desired else up
    else
      var down := WrappingSub64(parent, delta);
      if down < desired then desired else down
  }

  /** EIP-1559, section "Specification": the limit is at least 5000 and differs from the
      parent's by less than a 1024th of it. */
  predicate ValidSuccessor(parent: nat, limit: nat) {
    limit >= MIN_GAS_LIMIT && parent - parent / 1024 < limit < parent + parent / 1024
  }

  /** Raising the limit stays within 64 bits, or nothing has to be raised. */
  predicate NoWrap(target: U64, parent: U64) {
    parent >= Desired(target) || parent + Delta(parent) < U64_SIZE
  }

  /** For every parent and target the suggestion is a valid successor exactly when it does not
      wrap and the parent is at most 3 below the minimum, which one step can still reach. */
  lemma ValidIffNoWrap(target: U64, parent: U64)
    ensures ValidSuccessor(parent, Suggest(target, parent)) <==>
            parent >= MIN_GAS_LIMIT - 3 && NoWrap(target, parent)
  {
    var q := parent / 1024;
    assert 1024 * q <= parent < 1024 * q + 1024;
    if parent >= MIN_GAS_LIMIT - 3 {
      assert q >= 4;
    } else {
      assert q <= 4;
    }
  }

  /** From a parent limit of 1024 on, the suggestion is the limit nearest to the validator's target,
      or to 5000 if that is more, among all that differ from the parent by less than a 1024th,
      provided the largest of these fits in 64 bits or nothing has to be raised. Below, it is one
      less than the parent. */
  lemma SuggestsNearest(target: U64, parent: U64, other: nat)
    requires parent >= 1024
    requires (parent >= target && parent >= 5000) || parent + parent / 1024 - 1 < U64_SIZE
    requires parent - parent / 1024 < other < parent + parent / 1024
    ensures var goal, limit := if target < 5000 then 5000 else target, Suggest(target, parent);
            && parent - parent / 1024 < limit < parent + parent / 1024
            && (parent >= 5000 ==> limit >= 5000)
            && Distance(limit, goal) <= Distance(other, goal)
            && (Distance(limit, goal) == Distance(other, goal) ==> other == limit)
  {
    var q := parent / 1024;
    assert 1024 * q <= parent < 1024 * q + 1024;
  }

  lemma SuggestsBelow(target: U64, parent: U64)
    requires parent < 1024
    ensures Suggest(target, parent) == if parent == 0 then 0 else parent - 1
  {
    assert parent / 1024 == 0;
  }

  /** When a higher limit is desired the suggestion is higher exactly from a parent limit of 2048
      on and without wrapping. Between 1024 and 2047 the step is 0, and below 1024 it wraps to
      minus 1, so that the limit falls although the target is higher. */
  lemma RaisesIff(target: U64, parent: U64)
    requires parent < Desired(target)
    ensures Suggest(target, parent) > parent <==> parent >= 2048 && NoWrap(target, parent)
    ensures 1024 <= parent < 2048 ==> Suggest(target, parent) == parent
    ensures 0 < parent < 1024 ==> Suggest(target, parent) == parent - 1
  {
    var q := parent / 1024;
    assert 1024 * q <= parent < 1024 * q + 1024;
    if parent >= 2048 {
      assert q >= 2;
    } else if parent >= 1024 {
      assert q == 1;
    } else {
      assert q == 0;
    }
  }

  /** Between its parent and the desired limit, never past either. */
  lemma MovesTowards(target: U64, parent: U64)
    requires parent >= MIN_GAS_LIMIT && NoWrap(target, parent)
    ensures var next, desired := Suggest(target, parent), Desired(target);
            && (parent < desired ==> parent < next <= desired)
            && (parent > desired ==> desired <= next < parent)
            && (parent == desired ==> next == desired)
            && (next == desired || next - parent == Delta(parent) || parent - next == Delta(parent))
  {
    assert 3 <= Delta(parent) <= parent;
  }

  // ---------- chains ----------

  /** The limit after `n` blocks proposed by validators with these targets. */
  function Chain(parent: U64, targets: seq<U64>, n: nat): U64
    requires n <= |targets|
    decreases n
  {
    if n == 0 then parent else Suggest(targets[n - 1], Chain(parent, targets, n - 1))
  }

  ghost predicate NoWrapAt(parent: U64, targets: seq<U64>, i: nat)
    requires i < |targets|
  {
    NoWrap(targets[i], Chain(parent, targets, i))
  }

  ghost predicate ValidAt(parent: U64, targets: seq<U64>, i: nat)
    requires i < |targets|
  {
    ValidSuccessor(Chain(parent, targets, i), Chain(parent, targets, i + 1))
  }

  lemma {:induction false} ChainAtLeastMinimum(parent: U64, targets: seq<U64>, n: nat)
    requires n <= |targets| && parent >= MIN_GAS_LIMIT
    requires forall i: nat {:trigger NoWrapAt(parent, targets, i)} :: i < n ==> NoWrapAt(parent, targets, i)
    ensures Chain(parent, targets, n) >= MIN_GAS_LIMIT
    decreases n
  {
    if n > 0 {
      ChainAtLeastMinimum(parent, targets, n - 1);
      assert NoWrapAt(parent, targets, n - 1);
      MovesTowards(targets[n - 1], Chain(parent, targets, n - 1));
    }
  }

  lemma ChainStepIff(parent: U64, targets: seq<U64>, i: nat)
    requires i < |targets| && Chain(parent, targets, i) >= MIN_GAS_LIMIT
    ensures ValidAt(parent, targets, i) <==> NoWrapAt(parent, targets, i)
  {
    ValidIffNoWrap(targets[i], Chain(parent, targets, i));
  }

  /** In every chain of arbitrary targets, the limits are valid successors of one another, each
      at least 5000, exactly when no step wraps. */
  lemma {:induction false} ChainValidIff(parent: U64, targets: seq<U64>, n: nat)
    requires n <= |targets| && parent >= MIN_GAS_LIMIT
    ensures (forall i: nat {:trigger ValidAt(parent, targets, i)} :: i < n ==> ValidAt(parent, targets, i)) <==>
            (forall i: nat {:trigger NoWrapAt(parent, targets, i)} :: i < n ==> NoWrapAt(parent, targets, i))
    decreases n
  {
    if n > 0 {
      ChainValidIff(parent, targets, n - 1);
      if forall i: nat {:trigger NoWrapAt(parent, targets, i)} :: i < n - 1 ==> NoWrapAt(parent, targets, i) {
        ChainAtLeastMinimum(parent, targets, n - 1);
        ChainStepIff(parent, targets, n - 1);
      }
    }
  }

  /** The limit after `n` blocks of one validator. */
  function Repeat(parent: U64, target: U64, n: nat): U64
    decreases n
  {
    if n == 0 then parent else Suggest(target, Repeat(parent, target, n - 1))
  }

  function Distance(a: int, b: int): nat {
    if a < b then b - a else a - b
  }

  ghost predicate StaysInRange(parent: U64, target: U64, n: nat) {
    forall i: nat {:trigger Repeat(parent, target, i)} :: i < n ==> NoWrap(target, Repeat(parent, target, i))
  }

  /** With a fixed target and steps that do not wrap the limit never overshoots, its distance to
      the desired limit shrinks by at least 3 per block until it is 0, and it stays 0 from then on. */
  lemma {:induction false} Approaches(parent: U64, target: U64, n: nat)
    requires MIN_GAS_LIMIT <= parent && StaysInRange(parent, target, n)
    ensures var d, limit := Desired(target), Repeat(parent, target, n);
            && MIN_GAS_LIMIT <= limit
            && (parent <= d ==> parent <= limit <= d)
            && (parent >= d ==> d <= limit <= parent)
            && (limit == d || Distance(limit, d) + 3 * n <= Distance(parent, d))
    decreases n
  {
    if n > 0 {
      Approaches(parent, target, n - 1);
      var p := Repeat(parent, target, n - 1);
      MovesTowards(target, p);
      assert Delta(p) >= 3;
    }
  }

  /** A fixed target is reached after at most a third of the distance in blocks, and kept. */
  lemma Converges(parent: U64, target: U64, n: nat)
    requires MIN_GAS_LIMIT <= parent && StaysInRange(parent, target, n)
    requires n >= Distance(parent, Desired(target)) / 3 + 1
    ensures Repeat(parent, target, n) == if target < 5000 then 5000 else target
  {
    Approaches(parent, target, n);
  }

  /** Steps never wrap when the limit has to fall, or when the desired limit leaves room for one
      more step above it. */
  lemma {:induction false} RoomKeepsInRange(parent: U64, target: U64, n: nat)
    requires MIN_GAS_LIMIT <= parent
    requires parent >= Desired(target) || Desired(target) + Delta(Desired(target)) < U64_SIZE
    ensures StaysInRange(parent, target, n)
    decreases n
  {
    if n > 0 {
      RoomKeepsInRange(parent, target, n - 1);
      Approaches(parent, target, n - 1);
      DeltaMonotone(Repeat(parent, target, n - 1), Desired(target));
    }
  }

  lemma DeltaMonotone(a: nat, b: nat)
    ensures a <= b ==> Delta(a) <= Delta(b)
  {
  }
}
