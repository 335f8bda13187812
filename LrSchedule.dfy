/**
 * exp_lr_scheduler: the learning rate init_lr * 0.1 ** (epoch // lr_decay_epoch)
 * is written into every parameter group of the optimizer. Python's floor
 * division is written out (it rounds toward minus infinity, Dafny's / is
 * Euclidean); a period of 0 raises ZeroDivisionError. Rates are exact reals.
 */
module LrSchedule {

  /** Python's a // b. */
  function FloorDiv(a: int, b: int): (q: int)
    requires b != 0
    ensures b > 0 ==> q * b <= a < q * b + b
    ensures b < 0 ==> q * b + b < a <= q * b
  {
    if b > 0 || a % b == 0 then a / b else a / b - 1
  }

  function Pow(x: real, n: nat): real {
    if n == 0 then 1.0 else x * Pow(x, n - 1)
  }

  /** 0.1 ** k for an integer exponent of either sign. */
  function DecayFactor(k: int): real {
    if k >= 0 then Pow(0.1, k) else Pow(10.0, -k)
  }

  function LearningRate(initLr: real, epoch: nat, decayEvery: int): real
    requires decayEvery != 0
  {
    initLr * DecayFactor(FloorDiv(epoch, decayEvery))
  }

  /** The optimizer as the schedule sees it: the 'lr' entry of each parameter group. */
  class Optimizer {
    const groupLr: array<real>

    constructor (lrs: seq<real>)
      ensures groupLr[..] == lrs && fresh(groupLr)
    {
      groupLr := new real[|lrs|](i requires 0 <= i < |lrs| => lrs[i]);
    }
  }

  /** Sets every parameter group's rate; false stands for the ZeroDivisionError of period 0, with nothing written. */
  method ExpLrScheduler(optimizer: Optimizer, epoch: nat, initLr: real, decayEvery: int) returns (ok: bool)
    modifies optimizer.groupLr
    ensures ok <==> decayEvery != 0
    ensures ok ==> forall g | 0 <= g < optimizer.groupLr.Length :: optimizer.groupLr[g] == LearningRate(initLr, epoch, decayEvery)
    ensures !ok ==> optimizer.groupLr[..] == old(optimizer.groupLr[..])
  {
    if decayEvery == 0 {
      return false;
    }
    var lr := initLr * DecayFactor(FloorDiv(epoch, decayEvery));
    var g := 0;
    while g < optimizer.groupLr.Length
      invariant 0 <= g <= optimizer.groupLr.Length
      invariant forall h | 0 <= h < g :: optimizer.groupLr[h] == lr
    {
      optimizer.groupLr[g] := lr;
      g := g + 1;
    }
    ok := true;
  }

  lemma MulMonotone(a: int, b: int, d: nat)
    ensures a <= b ==> a * d <= b * d
  {
    assert b * d - a * d == (b - a) * d;
  }

  lemma FloorDivOfBlock(k: nat, j: nat, d: nat)
    requires 0 <= j < d
    ensures FloorDiv(k * d + j, d) == k
  {
    var q := FloorDiv(k * d + j, d);
    MulMonotone(k + 1, q, d);
    MulMonotone(q + 1, k, d);
  }

  /** Inside the k-th block of decayEvery epochs the rate is init_lr * 0.1^k. */
  lemma LrWithinBlock(initLr: real, decayEvery: nat, k: nat, j: nat)
    requires 0 <= j < decayEvery
    ensures LearningRate(initLr, k * decayEvery + j, decayEvery) == initLr * Pow(0.1, k)
  {
    FloorDivOfBlock(k, j, decayEvery);
  }

  /** At each block boundary the rate drops by a factor of 10. */
  lemma LrDropsAtBoundary(initLr: real, decayEvery: nat, k: nat)
    requires decayEvery > 0
    ensures LearningRate(initLr, (k + 1) * decayEvery, decayEvery) == LearningRate(initLr, k * decayEvery, decayEvery) * 0.1
  {
    FloorDivOfBlock(k + 1, 0, decayEvery);
    FloorDivOfBlock(k, 0, decayEvery);
    assert Pow(0.1, k + 1) == 0.1 * Pow(0.1, k);
  }

  lemma {:induction false} PowDecreasing(m: nat, n: nat)
    requires m <= n
    ensures 0.0 < Pow(0.1, n) <= Pow(0.1, m)
  {
    if m < n {
      PowDecreasing(m, n - 1);
    } else if n > 0 {
      PowDecreasing(0, n - 1);
    }
  }

  /** Python's epoch // period is non-negative and non-decreasing in the epoch for a positive period. */
  lemma FloorDivMonotone(e1: nat, e2: nat, d: nat)
    requires d > 0 && e1 <= e2
    ensures 0 <= FloorDiv(e1, d) <= FloorDiv(e2, d)
  {
    var q1, q2 := FloorDiv(e1, d), FloorDiv(e2, d);
    MulMonotone(q2 + 1, q1, d);
    MulMonotone(q1 + 1, 0, d);
  }

  /** With a positive period and a non-negative initial rate the schedule never increases. */
  lemma LrNonIncreasing(initLr: real, decayEvery: nat, e1: nat, e2: nat)
    requires decayEvery > 0 && initLr >= 0.0 && e1 <= e2
    ensures 0.0 <= LearningRate(initLr, e2, decayEvery) <= LearningRate(initLr, e1, decayEvery)
  {
    var q1, q2 := LrExponents(initLr, decayEvery, e1, e2);
    PowDecreasing(q1, q2);
    ScaleMonotone(initLr, Pow(0.1, q2), Pow(0.1, q1));
  }

  /** With a positive period both rates are init_lr * 0.1^q for exponents that grow with the epoch. */
  lemma LrExponents(initLr: real, decayEvery: nat, e1: nat, e2: nat) returns (q1: nat, q2: nat)
    requires decayEvery > 0 && e1 <= e2
    ensures q1 <= q2
    ensures LearningRate(initLr, e1, decayEvery) == initLr * Pow(0.1, q1)
    ensures LearningRate(initLr, e2, decayEvery) == initLr * Pow(0.1, q2)
  {
    FloorDivMonotone(e1, e2, decayEvery);
    q1, q2 := FloorDiv(e1, decayEvery), FloorDiv(e2, decayEvery);
  }

  lemma ScaleMonotone(c: real, x: real, y: real)
    requires c >= 0.0 && 0.0 <= x <= y
    ensures 0.0 <= c * x <= c * y
  {
    assert c * y - c * x == c * (y - x);
  }

  lemma {:induction false} PowTenAtLeast(n: nat)
    requires n >= 1
    ensures Pow(10.0, n) >= 10.0
  {
    if n > 1 { PowTenAtLeast(n - 1); }
  }

  /** A negative period makes the exponent negative from epoch 1 on, so the rate grows at least tenfold. */
  lemma LrNegativePeriodGrows(initLr: real, decayEvery: int, epoch: nat)
    requires decayEvery < 0 && epoch >= 1 && initLr > 0.0
    ensures LearningRate(initLr, epoch, decayEvery) >= 10.0 * initLr
  {
    var q := FloorDiv(epoch, decayEvery);
    PowTenAtLeast(-q);
  }
}
