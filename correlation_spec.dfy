/**
 * The behaviour of `DensityCorrelations._correlate_density` as functions: the
 * input checks, one CG iteration, the state after `i` iterations, the
 * `order_nu` post-pass and the single-or-list return.
 */
module CorrelationSpec {
  import opened Outcomes
  import opened Metadata
  import opened Collaborators
  import opened Configuration

  /** The backend string that `compute_metadata` hands to the combiner. */
  const MetadataBackend: string := "metadata"

  const SingleCenterKeyNames: seq<string> := ["o3_lambda", "o3_sigma", "center_type"]
  const PairKeyNames: seq<string> := ["o3_lambda", "o3_sigma", "center_type", "neighbor_type"]
  const ComponentAxisNames: seq<string> := ["o3_mu"]

  /** What stays fixed during the iterations: the object's settings, the collaborators,
      the standardised density and the backend string passed to the combiner. */
  datatype Context = Context(settings: Settings, ops: Collaborators, density: TensorMap, backend: string) {
    predicate Valid() { WellFormed(settings) }
  }

  /** The loop variables: `keys_iter`, `density_correlation` and `density_correlations`. */
  datatype State = State(keys: Labels, running: TensorMap, outputs: seq<TensorMap>)

  datatype Output = Single(tensor: TensorMap) | Many(tensors: seq<TensorMap>)

  function Initial(ctx: Context): State {
    State(ctx.density.keys, ctx.density, [])
  }

  /** The key names moved to properties at iteration `iteration`: `l_1 .. l_{iteration+2}`, then
      `k_2 .. k_{iteration+1}`. */
  function MovedNames(iteration: nat): (names: seq<string>)
    ensures |names| == 2 * iteration + 2
    ensures forall j :: 0 <= j < iteration + 2 ==> names[j] == "l_" + NatToString(j + 1)
    ensures forall j :: iteration + 2 <= j < |names| ==> names[j] == "k_" + NatToString(j - iteration)
  {
    seq(iteration + 2, j requires 0 <= j => "l_" + NatToString(j + 1)) +
    seq(iteration, j requires 0 <= j => "k_" + NatToString(j + 2))
  }

  /** The planner's answer at iteration `it`: always against the keys of the original density. */
  function PlanFor(ctx: Context, it: nat, st: State): Result<KeyPlan>
    requires ctx.Valid() && it < Iterations(ctx.settings)
  {
    Lift(ctx.ops.precomputeKeys(st.keys, ctx.density.keys, ctx.settings.selectedKeys[it], ctx.settings.skipRedundant[it]))
  }

  /** One planned product: the running tensor's block `first` with the density's block `second`. */
  function CombineOne(ctx: Context, running: TensorMap, c: Combination): (r: Result<seq<Block>>)
    ensures c.first >= |running.blocks| ==> r == Failure(BlockIndexOutOfRange(c.first, |running.blocks|))
    ensures c.first < |running.blocks| && c.second >= |ctx.density.blocks| ==>
              r == Failure(BlockIndexOutOfRange(c.second, |ctx.density.blocks|))
    // the running tensor's block comes first, the original density's second
    ensures r.Success? ==>
              && c.first < |running.blocks| && c.second < |ctx.density.blocks|
              && ctx.ops.combine(running.blocks[c.first], ctx.density.blocks[c.second], c.o3Lambdas,
                                 ctx.settings.cgCoefficients, ctx.backend) == Returned(r.value)
  {
    if c.first >= |running.blocks| then Failure(BlockIndexOutOfRange(c.first, |running.blocks|))
    else if c.second >= |ctx.density.blocks| then Failure(BlockIndexOutOfRange(c.second, |ctx.density.blocks|))
    else
      Lift(ctx.ops.combine(running.blocks[c.first], ctx.density.blocks[c.second], c.o3Lambdas,
                           ctx.settings.cgCoefficients, ctx.backend))
  }

  /** The blocks produced by the first `j` planned products, concatenated in order. */
  function CombineUpTo(ctx: Context, running: TensorMap, cs: seq<Combination>, j: nat): (r: Result<seq<Block>>)
    requires j <= |cs|
  {
    if j == 0 then Success([])
    else
      var done :- CombineUpTo(ctx, running, cs, j - 1);
      var produced :- CombineOne(ctx, running, cs[j - 1]);
      Success(done + produced)
  }

  /** One more planned product: either its error ends the whole inner loop, or its blocks are appended. */
  lemma CombineNext(ctx: Context, running: TensorMap, cs: seq<Combination>, j: nat, done: seq<Block>)
    requires j < |cs| && CombineUpTo(ctx, running, cs, j) == Success(done)
    ensures CombineOne(ctx, running, cs[j]).Failure? ==>
              CombineUpTo(ctx, running, cs, |cs|) == Failure(CombineOne(ctx, running, cs[j]).error)
    ensures CombineOne(ctx, running, cs[j]).Success? ==>
              CombineUpTo(ctx, running, cs, j + 1) == Success(done + CombineOne(ctx, running, cs[j]).value)
  {
    if CombineOne(ctx, running, cs[j]).Failure? {
      CombineStopsAtFailure(ctx, running, cs, j + 1, |cs|);
    }
  }

  /** The products are made in plan order and the first one that fails decides the error. */
  lemma {:induction false} CombineFailsAtFirstFailure(ctx: Context, running: TensorMap, cs: seq<Combination>, k: nat, j: nat)
    requires k < j <= |cs|
    requires forall m :: 0 <= m < k ==> CombineOne(ctx, running, cs[m]).Success?
    requires CombineOne(ctx, running, cs[k]).Failure?
    ensures CombineUpTo(ctx, running, cs, j) == Failure(CombineOne(ctx, running, cs[k]).error)
  {
    CombineSucceedsExactly(ctx, running, cs, k);
    CombineStopsAtFailure(ctx, running, cs, k + 1, j);
  }

  /** The first `j` products succeed together exactly when each of them succeeds. */
  lemma {:induction false} CombineSucceedsExactly(ctx: Context, running: TensorMap, cs: seq<Combination>, j: nat)
    requires j <= |cs|
    ensures CombineUpTo(ctx, running, cs, j).Success? <==> forall k :: 0 <= k < j ==> CombineOne(ctx, running, cs[k]).Success?
  {
    if j > 0 {
      CombineSucceedsExactly(ctx, running, cs, j - 1);
    }
  }

  lemma {:induction false} CombineStopsAtFailure(ctx: Context, running: TensorMap, cs: seq<Combination>, k: nat, j: nat)
    requires k <= j <= |cs|
    requires CombineUpTo(ctx, running, cs, k).Failure?
    ensures CombineUpTo(ctx, running, cs, j) == CombineUpTo(ctx, running, cs, k)
    decreases j - k
  {
    if j > k {
      CombineStopsAtFailure(ctx, running, cs, k, j - 1);
    }
  }

  /** The loop variables after the first `i` iterations. */
  function Run(ctx: Context, i: nat): (r: Result<State>)
    requires ctx.Valid() && i <= Iterations(ctx.settings)
    decreases i, 0
  {
    if i == 0 then Success(Initial(ctx)) else Step(ctx, i - 1)
  }

  /** Iteration `it` of the loop of `_correlate_density`, applied to the state the first `it`
      iterations reached: plan the keys, check them, combine the blocks, and record an output
      when this iteration is selected. */
  function Step(ctx: Context, it: nat): (r: Result<State>)
    requires ctx.Valid() && it < Iterations(ctx.settings)
    decreases it, 1
  {
    var st :- Run(ctx, it);
    var plan :- PlanFor(ctx, it, st);
    if |plan.keys.rows| == 0 then Failure(NoValidCombinations(it + 1))
    else
      var lambdas :- Column(plan.keys, "o3_lambda");
      var top := MaxOf(lambdas);
      if top > ctx.settings.maxAngular then Failure(CorrelationAngularTooLarge(top, ctx.settings.maxAngular))
      else
        var blocks :- CombineUpTo(ctx, st.running, plan.combinations, |plan.combinations|);
        var next :- MakeTensor(plan.keys, blocks);
        if ctx.settings.outputSelection[it] then
          var moved :- Lift(ctx.ops.keysToProperties(next, MovedNames(it)));
          Success(State(plan.keys, next, st.outputs + [moved]))
        else
          Success(State(plan.keys, next, st.outputs))
  }

  lemma {:induction false} RunStopsAtFailure(ctx: Context, k: nat, i: nat)
    requires ctx.Valid() && k <= i <= Iterations(ctx.settings)
    requires Run(ctx, k).Failure?
    ensures Run(ctx, i) == Run(ctx, k)
    decreases i - k
  {
    if i > k {
      RunStopsAtFailure(ctx, k, i - 1);
    }
  }

  /** The post-pass on one output: drop the `order_nu` key column when it holds a single value. */
  function DropDegenerate(t: TensorMap): (r: Result<TensorMap>)
    ensures r.Success? <==> "order_nu" in t.keys.names
    ensures r.Failure? ==> r.error == MissingKeyName("order_nu")
    ensures r.Success? ==> r.value.blocks == t.blocks
    ensures r.Success? ==> ("order_nu" in r.value.keys.names <==> |Distinct(Column(t.keys, "order_nu").value)| != 1)
    ensures r.Success? && |Distinct(Column(t.keys, "order_nu").value)| == 1 ==>
              r.value.keys.names == DropAt(t.keys.names, IndexOf(t.keys.names, "order_nu"))
    ensures r.Success? && |Distinct(Column(t.keys, "order_nu").value)| == 1 ==>
              |r.value.keys.rows| == |t.keys.rows| &&
              forall i :: 0 <= i < |t.keys.rows| ==> r.value.keys.rows[i] == DropAt(t.keys.rows[i], IndexOf(t.keys.names, "order_nu"))
    ensures r.Success? && |Distinct(Column(t.keys, "order_nu").value)| != 1 ==> r.value == t
  {
    var column :- Column(t.keys, "order_nu");
    if |Distinct(column)| == 1 then
      var c := IndexOf(t.keys.names, "order_nu");
      assert ConstantColumn(t.keys, c) by {
        forall i, j | 0 <= i < |t.keys.rows| && 0 <= j < |t.keys.rows|
          ensures t.keys.rows[i][c] == t.keys.rows[j][c]
        {
          SingletonMembers(Distinct(column), column[i], column[j]);
        }
      }
      var keys := RemoveConstantColumn(t.keys, "order_nu");
      var dropped: TensorMap := TensorData(keys, t.blocks);
      Success(dropped)
    else
      Success(t)
  }

  lemma SingletonMembers(s: set<int>, a: int, b: int)
    requires |s| == 1 && a in s && b in s
    ensures a == b
  {
    if a != b {
      assert {a, b} <= s;
      assert |{a, b}| == 2;
      SubsetCardinality({a, b}, s);
    }
  }

  lemma SubsetCardinality(a: set<int>, b: set<int>)
    requires a <= b
    ensures |a| <= |b|
  {
    assert b == a + (b - a);
  }

  /** The post-pass over the first `i` outputs (the loop that overwrites `density_correlations[i]`). */
  function DropUpTo(ts: seq<TensorMap>, i: nat): (r: Result<seq<TensorMap>>)
    requires i <= |ts|
    ensures r.Success? <==> forall k :: 0 <= k < i ==> "order_nu" in ts[k].keys.names
    ensures r.Success? ==> |r.value| == i
    ensures r.Failure? ==> r.error == MissingKeyName("order_nu")
  {
    if i == 0 then Success([])
    else
      var done :- DropUpTo(ts, i - 1);
      var t :- DropDegenerate(ts[i - 1]);
      Success(done + [t])
  }

  lemma {:induction false} DropStopsAtFailure(ts: seq<TensorMap>, k: nat, i: nat)
    requires k <= i <= |ts|
    requires DropUpTo(ts, k).Failure?
    ensures DropUpTo(ts, i) == DropUpTo(ts, k)
    decreases i - k
  {
    if i > k {
      DropStopsAtFailure(ts, k, i - 1);
    }
  }

  /** A single tensor when exactly one iteration was selected, the list otherwise. */
  function Assemble(outs: seq<TensorMap>): (r: Output)
    ensures r.Single? <==> |outs| == 1
    ensures r.Single? ==> r.tensor == outs[0]
    ensures r.Many? ==> r.tensors == outs
  {
    if |outs| == 1 then Single(outs[0]) else Many(outs)
  }

  predicate RecognisedKeyNames(names: seq<string>) {
    names == SingleCenterKeyNames || names == PairKeyNames
  }

  /** `_correlate_density(density, compute_metadata)`, with `backend` the string given to the combiner. */
  function Correlate(s: Settings, ops: Collaborators, density: TensorMap, backend: string): (r: Result<Output>)
    requires WellFormed(s)
    ensures !RecognisedKeyNames(density.keys.names) ==> r == Failure(InvalidKeyNames(density.keys.names))
    ensures RecognisedKeyNames(density.keys.names) && ComponentNames(density) != ComponentAxisNames ==>
              r == Failure(InvalidComponentNames(ComponentNames(density)))
    ensures RecognisedKeyNames(density.keys.names) && ComponentNames(density) == ComponentAxisNames &&
            ops.standardizeKeys(density).Returned? && AllCarryGradients(ops.standardizeKeys(density).value) ==>
              r == Failure(GradientsNotImplemented)
    ensures RecognisedKeyNames(density.keys.names) && ComponentNames(density) == ComponentAxisNames &&
            ops.standardizeKeys(density).Raised? ==>
              r == Failure(CollaboratorFailed(ops.standardizeKeys(density).message))
    ensures RecognisedKeyNames(density.keys.names) && ComponentNames(density) == ComponentAxisNames &&
            ops.standardizeKeys(density).Returned? && !AllCarryGradients(ops.standardizeKeys(density).value) ==>
              var std := ops.standardizeKeys(density).value;
              && (Column(std.keys, "o3_lambda").Failure? ==> r == Failure(MissingKeyName("o3_lambda")))
              && (Column(std.keys, "o3_lambda").Success? && |std.keys.rows| > 0 &&
                  MaxOf(Column(std.keys, "o3_lambda").value) > s.maxAngular ==>
                    r == Failure(DensityAngularTooLarge(MaxOf(Column(std.keys, "o3_lambda").value), s.maxAngular)))
    ensures r.Success? ==>
              && RecognisedKeyNames(density.keys.names)
              && ComponentNames(density) == ComponentAxisNames
              && ops.standardizeKeys(density).Returned?
              && !AllCarryGradients(ops.standardizeKeys(density).value)
              && Column(ops.standardizeKeys(density).value.keys, "o3_lambda").Success?
              && (forall k :: 0 <= k < |ops.standardizeKeys(density).value.keys.rows| ==>
                    Column(ops.standardizeKeys(density).value.keys, "o3_lambda").value[k] <= s.maxAngular)
  {
    if !RecognisedKeyNames(density.keys.names) then Failure(InvalidKeyNames(density.keys.names))
    else if ComponentNames(density) != ComponentAxisNames then Failure(InvalidComponentNames(ComponentNames(density)))
    else
      var standard :- Lift(ops.standardizeKeys(density));
      if AllCarryGradients(standard) then Failure(GradientsNotImplemented)
      else
        var lambdas :- Column(standard.keys, "o3_lambda");
        var top := MaxOf(lambdas);
        if top > s.maxAngular then Failure(DensityAngularTooLarge(top, s.maxAngular))
        else
          var last :- Run(Context(s, ops, standard, backend), Iterations(s));
          var outs :- DropUpTo(last.outputs, |last.outputs|);
          Success(Assemble(outs))
  }

  /** Once the density passes every check, an error raised inside the iteration loop (an empty plan, a planned
      `o3_lambda` above the ceiling, a collaborator) is what the whole call raises. */
  lemma CorrelateRaisesLoopError(s: Settings, ops: Collaborators, density: TensorMap, backend: string)
    requires WellFormed(s)
    requires RecognisedKeyNames(density.keys.names) && ComponentNames(density) == ComponentAxisNames
    requires ops.standardizeKeys(density).Returned? && !AllCarryGradients(ops.standardizeKeys(density).value)
    requires Column(ops.standardizeKeys(density).value.keys, "o3_lambda").Success?
    requires forall k :: 0 <= k < |ops.standardizeKeys(density).value.keys.rows| ==>
               Column(ops.standardizeKeys(density).value.keys, "o3_lambda").value[k] <= s.maxAngular
    requires Run(Context(s, ops, ops.standardizeKeys(density).value, backend), Iterations(s)).Failure?
    ensures Correlate(s, ops, density, backend) ==
              Failure(Run(Context(s, ops, ops.standardizeKeys(density).value, backend), Iterations(s)).error)
  {
  }
}
