/**
 * The algo argument of train_model: a tag that overrides the loss flags
 * passed in, before any training starts. Tags are compared by value.
 */
module AlgoTag {
  import opened Wrappers

  datatype Algo = KL | Softmax | Sigmoid | LearnA | FixA | Unlisted

  /** The loss configuration train_model works with. */
  datatype Flags = Flags(kl: bool, regression: bool, learnA: bool, crossLoss: real, multiLoss: real)

  /** The tag an algo argument names; None and every other string name no tag. */
  function TagOf(algo: Option<string>): (t: Algo)
    ensures t == KL <==> algo == Some("KL")
    ensures t == Softmax <==> algo == Some("softmax")
    ensures t == Sigmoid <==> algo == Some("sigmoid")
    ensures t == LearnA <==> algo == Some("learn_a")
    ensures t == FixA <==> algo == Some("fix_a")
    ensures t == Unlisted <==> algo !in {Some("KL"), Some("softmax"), Some("sigmoid"), Some("learn_a"), Some("fix_a")}
  {
    match algo
    case Some("KL") => KL
    case Some("softmax") => Softmax
    case Some("sigmoid") => Sigmoid
    case Some("learn_a") => LearnA
    case Some("fix_a") => FixA
    case _ => Unlisted
  }

  /** The string a caller passes for a listed tag. */
  function TagName(t: Algo): string
    requires t != Unlisted
  {
    match t
    case KL => "KL"
    case Softmax => "softmax"
    case Sigmoid => "sigmoid"
    case LearnA => "learn_a"
    case FixA => "fix_a"
  }

  /** Every listed tag is named by exactly one string: TagOf and TagName are inverse. */
  lemma TagNameRoundTrip(t: Algo, algo: Option<string>)
    ensures t != Unlisted ==> TagOf(Some(TagName(t))) == t
    ensures TagOf(algo) != Unlisted ==> algo == Some(TagName(TagOf(algo)))
  {
  }

  /** The flags after the tag dispatch at the top of train_model. */
  function Resolve(t: Algo, f: Flags): (r: Flags)
    // every listed tag selects exactly one of the two loss weights, with weight 1
    ensures t != Unlisted ==>
      (r.crossLoss, r.multiLoss) == (if t == Sigmoid then (0.0, 1.0) else (1.0, 0.0))
    // an unlisted tag leaves every flag as passed in
    ensures t == Unlisted ==> r == f
    // KL switches the KL-divergence loss on, softmax switches it off
    ensures t == KL ==> r.kl
    ensures t == Softmax ==> !r.kl
    // learn_a and fix_a select regression, with a learned vector for learn_a only
    ensures t in {LearnA, FixA} ==> r.regression && (r.learnA <==> t == LearnA)
    // only KL and softmax touch the KL flag, only learn_a and fix_a the regression flags
    ensures r.kl != f.kl ==> t in {KL, Softmax}
    ensures (r.regression, r.learnA) != (f.regression, f.learnA) ==> t in {LearnA, FixA}
  {
    match t
    case KL => f.(kl := true, crossLoss := 1.0, multiLoss := 0.0)
    case Softmax => f.(kl := false, crossLoss := 1.0, multiLoss := 0.0)
    case Sigmoid => f.(crossLoss := 0.0, multiLoss := 1.0)
    case LearnA => f.(learnA := true, regression := true, crossLoss := 1.0, multiLoss := 0.0)
    case FixA => f.(learnA := false, regression := true, crossLoss := 1.0, multiLoss := 0.0)
    case Unlisted => f
  }

  /** Resolving a tag twice changes nothing more. */
  lemma ResolveIdempotent(t: Algo, f: Flags)
    ensures Resolve(t, Resolve(t, f)) == Resolve(t, f)
  {
  }

  datatype CrossTerm = NoCross | KLDivergence | CrossEntropy

  /** Which loss terms a batch adds, as the branches of the batch loop decide it. */
  datatype Branch =
    | Regression(sigmoidBounded: bool)
    | Classification(cross: CrossTerm, multiLabel: bool)

  /**
   * The loss terms a batch adds. Without regression and with neither loss
   * weight positive, no term is added and loss stays the float 0.0, on which
   * loss.backward() (training) and loss.data[0] (validation) raise
   * AttributeError at the first batch: None.
   */
  function LossBranch(f: Flags): (b: Option<Branch>)
    ensures b.None? <==> !f.regression && f.crossLoss <= 0.0 && f.multiLoss <= 0.0
    ensures b.Some? ==> (b.value.Regression? <==> f.regression)
    ensures b.Some? && b.value.Regression? ==> (b.value.sigmoidBounded <==> f.learnA)
    ensures b.Some? && b.value.Classification? ==>
      (b.value.cross != NoCross <==> f.crossLoss > 0.0) && (b.value.multiLabel <==> f.multiLoss > 0.0)
    ensures b.Some? && b.value.Classification? && b.value.cross != NoCross ==>
      (b.value.cross == KLDivergence <==> f.kl)
  {
    if f.regression then Some(Regression(f.learnA))
    else if f.crossLoss <= 0.0 && f.multiLoss <= 0.0 then None
    else Some(Classification(
      if f.crossLoss > 0.0 then (if f.kl then KLDivergence else CrossEntropy) else NoCross,
      f.multiLoss > 0.0))
  }

  /**
   * What each tag makes the batch loop do. learn_a and fix_a always select
   * regression; KL, softmax and sigmoid leave the regression flag alone, so
   * they select their classification loss only when regression was not
   * requested by the caller.
   */
  lemma TagSelectsBranch(f: Flags)
    ensures LossBranch(Resolve(LearnA, f)) == Some(Regression(true))
    ensures LossBranch(Resolve(FixA, f)) == Some(Regression(false))
    ensures LossBranch(Resolve(KL, f)) == Some(if f.regression then Regression(f.learnA) else Classification(KLDivergence, false))
    ensures LossBranch(Resolve(Softmax, f)) == Some(if f.regression then Regression(f.learnA) else Classification(CrossEntropy, false))
    ensures LossBranch(Resolve(Sigmoid, f)) == Some(if f.regression then Regression(f.learnA) else Classification(NoCross, true))
    ensures LossBranch(Resolve(Unlisted, f)) == LossBranch(f)
  {
  }

  /** The ordinal position vector a_vec of the regression branch. */
  datatype Positions = NotUsed | Learned | Fixed(values: seq<real>)

  /**
   * a_vec: a learned parameter appended to the optimiser with learn_a, the
   * fixed vector torch.range(0, numOut - 1) otherwise, and none without regression.
   */
  function OrdinalPositions(f: Flags, numOut: nat): (p: Positions)
    ensures p.NotUsed? <==> !f.regression
    ensures p.Learned? <==> f.regression && f.learnA
    ensures p.Fixed? ==> |p.values| == numOut && forall i | 0 <= i < numOut :: p.values[i] == i as real
  {
    if !f.regression then NotUsed
    else if f.learnA then Learned
    else Fixed(seq(numOut, i => i as real))
  }

  /** fix_a predicts with the class positions 0, 1, ..., numOut - 1 whatever flags came in. */
  lemma FixAUsesClassPositions(f: Flags, numOut: nat)
    ensures OrdinalPositions(Resolve(FixA, f), numOut) == Fixed(seq(numOut, i => i as real))
    ensures OrdinalPositions(Resolve(LearnA, f), numOut) == Learned
  {
  }
}
