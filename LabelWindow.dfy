/**
 * Soft and multi-label target vectors built around an integer class label.
 *
 * The general construction pads a zero vector of length numOut + 2*extend,
 * writes the coefficient list into the slice [lbl, lbl + 2*extend + 1),
 * and cuts extend entries off each end. Slice assignment follows numpy:
 * a slice is clipped to the array, and the right-hand side must have the
 * slice's length or length 1 (broadcast); otherwise numpy raises ValueError.
 * The fixed variant pads to 11 slots and keeps the middle 9.
 */
module LabelWindow {
  import opened Wrappers

  datatype TargetError =
    | ShapeMismatch(row: nat)   // numpy cannot broadcast the coefficients into the slice
    | ZeroSum(row: nat)         // division by a zero sum: numpy yields NaN or inf entries
    | IndexError(row: nat)      // an element write past the end of the 11 slots

  /** extend = int((len(coeff) - 1) / 2): true division truncated toward zero. */
  function Extend(len: nat): (e: nat)
    ensures len == 0 ==> e == 0
    ensures len > 0 ==> len == 2 * e + 1 || len == 2 * e + 2
  {
    if len == 0 then 0 else (len - 1) / 2
  }

  /** When the slice assignment succeeds, stated without the slice arithmetic. */
  predicate Fits(len: nat, lbl: nat, numOut: nat) {
    len == 1 || (len % 2 == 1 && lbl < numOut) || (len == 0 && numOut <= lbl)
  }

  /** The closed form of the window: entry i holds coeff[i - lbl + extend] where that index exists. */
  function Window(coeff: seq<real>, lbl: nat, numOut: nat): (w: seq<real>)
    ensures |w| == numOut
  {
    seq(numOut, i requires 0 <= i < numOut =>
      var k := i + Extend(|coeff|) - lbl;
      if 0 <= k < |coeff| then coeff[k] else 0.0)
  }

  function Sum(s: seq<real>): real {
    if s == [] then 0.0 else Sum(s[..|s| - 1]) + s[|s| - 1]
  }

  function Zeros(n: nat): (z: seq<real>)
    ensures |z| == n && forall i | 0 <= i < n :: z[i] == 0.0
  {
    seq(n, _ => 0.0)
  }

  /** label_multi / np.sum(label_multi). */
  function Normalise(w: seq<real>): (r: seq<real>)
    requires Sum(w) != 0.0
    ensures |r| == |w|
  {
    seq(|w|, i requires 0 <= i < |w| => w[i] / Sum(w))
  }

  /**
   * One row of label_multi: np.zeros(numOut + 2*extend), the slice
   * assignment of coeff at lbl, and the cut [extend:-extend] when extend != 0.
   * None stands for numpy's ValueError.
   */
  method BuildWindow(coeff: seq<real>, lbl: nat, numOut: nat) returns (r: Option<seq<real>>)
    ensures r.Some? <==> Fits(|coeff|, lbl, numOut)
    ensures r.Some? ==> r.value == Window(coeff, lbl, numOut)
  {
    var e := Extend(|coeff|);
    var m := numOut + 2 * e;
    var buf := new real[m](_ => 0.0);
    // the slice lbl:lbl + 2*extend + 1, clipped to the array
    var start := if lbl < m then lbl else m;
    var stop := if lbl + 2 * e + 1 < m then lbl + 2 * e + 1 else m;
    if |coeff| == stop - start {
      forall j | start <= j < stop {
        buf[j] := coeff[j - start];
      }
    } else if |coeff| != 1 {
      return None;
    }
    // otherwise a single coefficient is broadcast into a slice that, with
    // extend == 0, can only be empty here: nothing is written
    var row := if e != 0 then buf[e..m - e] else buf[..];
    assert |row| == numOut;
    assert forall i | 0 <= i < numOut :: row[i] == buf[i + e];
    r := Some(row);
  }

  lemma {:induction false} SumConcat(a: seq<real>, b: seq<real>)
    ensures Sum(a + b) == Sum(a) + Sum(b)
  {
    if b == [] {
      assert a + b == a;
    } else {
      var k := |b| - 1;
      assert (a + b)[..|a + b| - 1] == a + b[..k];
      SumConcat(a, b[..k]);
    }
  }

  lemma {:induction false} SumZeros(n: nat)
    ensures Sum(Zeros(n)) == 0.0
  {
    if n > 0 {
      assert Zeros(n)[..n - 1] == Zeros(n - 1);
      SumZeros(n - 1);
    }
  }

  lemma {:induction false} SumDivided(w: seq<real>, s: real)
    requires s != 0.0
    ensures Sum(seq(|w|, i requires 0 <= i < |w| => w[i] / s)) == Sum(w) / s
  {
    var d := seq(|w|, i requires 0 <= i < |w| => w[i] / s);
    if w != [] {
      var k := |w| - 1;
      assert d[..k] == seq(k, i requires 0 <= i < k => w[..k][i] / s);
      SumDivided(w[..k], s);
    }
  }

  /** A normalised row is a probability mass: it sums to exactly 1. */
  lemma NormaliseSumsToOne(w: seq<real>)
    requires Sum(w) != 0.0
    ensures Sum(Normalise(w)) == 1.0
  {
    SumDivided(w, Sum(w));
    assert Sum(w) / Sum(w) == 1.0;
  }

  /**
   * For an odd coefficient list and an in-range lbl the window is zeros,
   * the part of coeff that falls inside [0, numOut), then zeros; the
   * coefficients pushed past either end by the cut are dropped.
   */
  lemma WindowLayout(coeff: seq<real>, lbl: nat, numOut: nat)
    requires |coeff| % 2 == 1 && lbl < numOut
    ensures
      var e := Extend(|coeff|);
      var lo := if e > lbl then e - lbl else 0;
      var hi := if |coeff| < numOut + e - lbl then |coeff| else numOut + e - lbl;
      var before := if lbl > e then lbl - e else 0;
      0 <= lo <= hi <= |coeff| && before + (hi - lo) <= numOut
      && Window(coeff, lbl, numOut) == Zeros(before) + coeff[lo..hi] + Zeros(numOut - before - (hi - lo))
    // the centre coefficient always lands on the label itself
    ensures Window(coeff, lbl, numOut)[lbl] == coeff[Extend(|coeff|)]
  {
    var e := Extend(|coeff|);
    var lo := if e > lbl then e - lbl else 0;
    var hi := if |coeff| < numOut + e - lbl then |coeff| else numOut + e - lbl;
    var before := if lbl > e then lbl - e else 0;
    var w := Window(coeff, lbl, numOut);
    var v := Zeros(before) + coeff[lo..hi] + Zeros(numOut - before - (hi - lo));
    assert |v| == |w|;
    forall i | 0 <= i < numOut ensures w[i] == v[i] {
      if i < before {
      } else if i < before + (hi - lo) {
        assert v[i] == coeff[lo..hi][i - before];
      } else {
      }
    }
  }

  /** The window carries exactly the coefficients that land inside [0, numOut). */
  lemma WindowSum(coeff: seq<real>, lbl: nat, numOut: nat)
    requires |coeff| % 2 == 1 && lbl < numOut
    ensures
      var e := Extend(|coeff|);
      var lo := if e > lbl then e - lbl else 0;
      var hi := if |coeff| < numOut + e - lbl then |coeff| else numOut + e - lbl;
      0 <= lo <= hi <= |coeff| && Sum(Window(coeff, lbl, numOut)) == Sum(coeff[lo..hi])
  {
    var e := Extend(|coeff|);
    var lo := if e > lbl then e - lbl else 0;
    var hi := if |coeff| < numOut + e - lbl then |coeff| else numOut + e - lbl;
    var before := if lbl > e then lbl - e else 0;
    WindowLayout(coeff, lbl, numOut);
    SumPadded(before, coeff[lo..hi], numOut - before - (hi - lo));
  }

  /** Zeros on either side add nothing to a sum. */
  lemma SumPadded(a: nat, mid: seq<real>, b: nat)
    ensures Sum(Zeros(a) + mid + Zeros(b)) == Sum(mid)
  {
    SumConcat(Zeros(a) + mid, Zeros(b));
    SumConcat(Zeros(a), mid);
    SumZeros(a);
    SumZeros(b);
  }

  /** Away from both ends nothing is cut: the window holds every coefficient, centred on lbl. */
  lemma InteriorWindow(coeff: seq<real>, lbl: nat, numOut: nat)
    requires |coeff| % 2 == 1
    requires Extend(|coeff|) <= lbl && lbl + Extend(|coeff|) < numOut
    ensures Window(coeff, lbl, numOut)[lbl] == coeff[Extend(|coeff|)]
    ensures Sum(Window(coeff, lbl, numOut)) == Sum(coeff)
  {
    var e := Extend(|coeff|);
    assert |coeff| <= numOut + e - lbl;
    WindowSum(coeff, lbl, numOut);
    assert coeff[0..|coeff|] == coeff;
  }

  /** A row is produced without error: the slice fits, and a KL row that is normalised has a non-zero sum. */
  predicate RowOk(coeff: seq<real>, lbl: nat, numOut: nat, kl: bool) {
    Fits(|coeff|, lbl, numOut)
    && (kl && Extend(|coeff|) != 0 ==> Sum(Window(coeff, lbl, numOut)) != 0.0)
  }

  /** The target row: the window, divided by its sum in the KL branch when extend != 0. */
  function TargetRow(coeff: seq<real>, lbl: nat, numOut: nat, kl: bool): (r: seq<real>)
    requires RowOk(coeff, lbl, numOut, kl)
  {
    var w := Window(coeff, lbl, numOut);
    if kl && Extend(|coeff|) != 0 then Normalise(w) else w
  }

  /** KL targets built from more than one coefficient are probability distributions. */
  lemma KLRowIsDistribution(coeff: seq<real>, lbl: nat, numOut: nat)
    requires RowOk(coeff, lbl, numOut, true) && Extend(|coeff|) != 0
    ensures |TargetRow(coeff, lbl, numOut, true)| == numOut
    ensures Sum(TargetRow(coeff, lbl, numOut, true)) == 1.0
  {
    NormaliseSumsToOne(Window(coeff, lbl, numOut));
  }

  /** A single coefficient (or a multi-label row) is never normalised: it is the bare window. */
  lemma UnnormalisedRow(coeff: seq<real>, lbl: nat, numOut: nat, kl: bool)
    requires RowOk(coeff, lbl, numOut, kl) && (!kl || |coeff| <= 2)
    ensures TargetRow(coeff, lbl, numOut, kl) == Window(coeff, lbl, numOut)
    ensures |coeff| == 1 && lbl < numOut ==>
      forall i | 0 <= i < numOut :: TargetRow(coeff, lbl, numOut, kl)[i] == (if i == lbl then coeff[0] else 0.0)
  {
    assert Extend(1) == 0;
  }

  /**
   * labels_multi for one batch: one target row per lbl, in order, with
   * kl selecting the KL branch (normalised when extend != 0) and !kl the
   * multi-label branch (never normalised). The first failing row raises.
   */
  method BuildTargets(labels: seq<nat>, coeff: seq<real>, numOut: nat, kl: bool)
    returns (r: Result<seq<seq<real>>, TargetError>)
    ensures r.Ok? <==> forall k | 0 <= k < |labels| :: RowOk(coeff, labels[k], numOut, kl)
    ensures r.Ok? ==>
      |r.value| == |labels| && forall k | 0 <= k < |labels| :: r.value[k] == TargetRow(coeff, labels[k], numOut, kl)
    ensures r.Err? ==> !r.error.IndexError?
    ensures r.Err? ==>
      var k := r.error.row;
      k < |labels| && !RowOk(coeff, labels[k], numOut, kl)
      && (r.error.ShapeMismatch? <==> !Fits(|coeff|, labels[k], numOut))
      && forall j | 0 <= j < k :: RowOk(coeff, labels[j], numOut, kl)
  {
    var rows: seq<seq<real>> := [];
    var k := 0;
    while k < |labels|
      invariant 0 <= k <= |labels| && |rows| == k
      invariant forall j | 0 <= j < k :: RowOk(coeff, labels[j], numOut, kl) && rows[j] == TargetRow(coeff, labels[j], numOut, kl)
    {
      var w := BuildWindow(coeff, labels[k], numOut);
      if w.None? {
        return Err(ShapeMismatch(k));
      }
      var row := w.value;
      if kl && Extend(|coeff|) != 0 {
        var total := Sum(row);
        if total == 0.0 {
          return Err(ZeroSum(k));
        }
        row := seq(|row|, i requires 0 <= i < |row| => row[i] / total);
      }
      rows := rows + [row];
      k := k + 1;
    }
    r := Ok(rows);
  }

  /** The closed form of the fixed 11-slot row, with the coefficients each mode writes. */
  function FixedCoeff(multiProb: bool): seq<real> {
    if multiProb then [0.5, 1.0, 0.5] else [1.0, 1.0, 1.0]
  }

  /**
   * One row of the fixed variant: np.zeros(11); either the three element
   * writes .5, 1, .5 at lbl, lbl + 1, lbl + 2 (IndexError past slot 10)
   * or the scalar slice write [lbl:lbl + 3] = 1 (clipped, never fails);
   * then the cut [1:-1]. None stands for the IndexError.
   */
  method FixedTarget(lbl: nat, multiProb: bool) returns (r: Option<seq<real>>)
    ensures r.Some? <==> (!multiProb || lbl < 9)
    ensures r.Some? ==> r.value == Window(FixedCoeff(multiProb), lbl, 9)
  {
    var buf := new real[11](_ => 0.0);
    if multiProb {
      if lbl >= 11 { return None; }
      buf[lbl] := 0.5;
      if lbl + 1 >= 11 { return None; }
      buf[lbl + 1] := 1.0;
      if lbl + 2 >= 11 { return None; }
      buf[lbl + 2] := 0.5;
    } else {
      var start := if lbl < 11 then lbl else 11;
      var stop := if lbl + 3 < 11 then lbl + 3 else 11;
      forall j | start <= j < stop {
        buf[j] := 1.0;
      }
    }
    var row := buf[1..10];
    assert Extend(3) == 1;
    forall i | 0 <= i < 9 ensures row[i] == Window(FixedCoeff(multiProb), lbl, 9)[i] {
      assert row[i] == buf[i + 1];
    }
    r := Some(row);
  }

  /**
   * The fixed rows are not normalised. For a label below 9 its own slot
   * holds 1 and the row weighs what of the three coefficients survives the
   * cut [1:-1]: a label at either end (0 or 8) loses an outer one. Above 8
   * the scalar mode, which never fails, keeps a single 1 in the last slot for
   * label 9 and gives an all-zero row for every larger label.
   */
  lemma FixedRowMass(lbl: nat, multiProb: bool)
    ensures lbl < 9 ==> Window(FixedCoeff(multiProb), lbl, 9)[lbl] == 1.0
    ensures lbl < 9 ==>
      Sum(Window(FixedCoeff(multiProb), lbl, 9))
      == if multiProb then (if lbl == 0 || lbl == 8 then 1.5 else 2.0)
         else (if lbl == 0 || lbl == 8 then 2.0 else 3.0)
    ensures !multiProb && lbl >= 9 ==>
      Window(FixedCoeff(false), lbl, 9) == if lbl == 9 then Zeros(8) + [1.0] else Zeros(9)
  {
    var c := FixedCoeff(multiProb);
    if lbl < 9 {
      WindowLayout(c, lbl, 9);
      WindowSum(c, lbl, 9);
      if lbl == 0 {
        SumOfTwo(c[1..3]);
      } else if lbl == 8 {
        SumOfTwo(c[0..2]);
      } else {
        assert c[0..3] == c;
        SumOfTwo(c[..2]);
      }
    } else if !multiProb {
      assert Extend(3) == 1;
      if lbl == 9 {
        assert Window(c, lbl, 9) == Zeros(8) + [1.0];
      } else {
        assert Window(c, lbl, 9) == Zeros(9);
      }
    }
  }

  lemma SumOfTwo(s: seq<real>)
    requires |s| == 2
    ensures Sum(s) == s[0] + s[1]
  {
    assert Sum(s[..1]) == s[0] by {
      assert s[..1][..0] == [];
    }
  }

  /** labels_multi for one batch of the fixed variant; the first failing row raises. */
  method BuildFixedTargets(labels: seq<nat>, multiProb: bool) returns (r: Result<seq<seq<real>>, TargetError>)
    ensures r.Ok? <==> (!multiProb || forall k | 0 <= k < |labels| :: labels[k] < 9)
    ensures r.Ok? ==>
      |r.value| == |labels| && forall k | 0 <= k < |labels| :: r.value[k] == Window(FixedCoeff(multiProb), labels[k], 9)
    ensures r.Err? ==>
      r.error.IndexError? && multiProb && r.error.row < |labels| && labels[r.error.row] >= 9
      && forall j | 0 <= j < r.error.row :: labels[j] < 9
  {
    var rows: seq<seq<real>> := [];
    var k := 0;
    while k < |labels|
      invariant 0 <= k <= |labels| && |rows| == k
      invariant multiProb ==> forall j | 0 <= j < k :: labels[j] < 9
      invariant forall j | 0 <= j < k :: rows[j] == Window(FixedCoeff(multiProb), labels[j], 9)
    {
      var row := FixedTarget(labels[k], multiProb);
      if row.None? {
        return Err(IndexError(k));
      }
      rows := rows + [row.value];
      k := k + 1;
    }
    r := Ok(rows);
  }
}
