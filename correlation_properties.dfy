/**
 * What `_correlate_density` guarantees, proved about the functions of
 * `CorrelationSpec`: the checks each iteration makes before combining, the
 * invariant linking the running tensor to the planned keys, which outputs are
 * recorded and in which order, the shape of the returned value, and the facts
 * that only the original density is ever reused and that `compute` and
 * `compute_metadata` plan the same keys.
 */
module CorrelationProperties {
  import opened Outcomes
  import opened Metadata
  import opened Collaborators
  import opened Configuration
  import opened CorrelationSpec

  /** The indices of the set flags, in increasing order. */
  function SelectedIterations(flags: seq<bool>): (r: seq<nat>)
    ensures forall k :: 0 <= k < |r| ==> r[k] < |flags| && flags[r[k]]
    ensures forall k, m :: 0 <= k < m < |r| ==> r[k] < r[m]
    ensures forall j :: 0 <= j < |flags| && flags[j] ==> j in r
  {
    if |flags| == 0 then []
    else
      var earlier := SelectedIterations(flags[..|flags| - 1]);
      if flags[|flags| - 1] then earlier + [|flags| - 1] else earlier
  }

  /** The tensors of a result, whether it was returned bare or as a list. */
  function Tensors(o: Output): (r: seq<TensorMap>)
    ensures o.Single? ==> r == [o.tensor]
    ensures o.Many? ==> r == o.tensors
  {
    match o
    case Single(t) => [t]
    case Many(ts) => ts
  }

  /**
   * One iteration, from a state the loop reached: a planner error or an empty plan
   * ends the loop before any block is combined; otherwise the planned keys become
   * the keys of the new running tensor, and none of them has an `o3_lambda` above
   * `max_angular`.
   */
  lemma StepChecks(ctx: Context, it: nat)
    requires ctx.Valid() && it < Iterations(ctx.settings)
    requires Run(ctx, it).Success?
    ensures PlanFor(ctx, it, Run(ctx, it).value).Failure? ==>
              Step(ctx, it) == Failure(PlanFor(ctx, it, Run(ctx, it).value).error)
    ensures PlanFor(ctx, it, Run(ctx, it).value).Success? && |PlanFor(ctx, it, Run(ctx, it).value).value.keys.rows| == 0 ==>
              Step(ctx, it) == Failure(NoValidCombinations(it + 1))
    ensures var plan := PlanFor(ctx, it, Run(ctx, it).value);
            plan.Success? && |plan.value.keys.rows| > 0 && Column(plan.value.keys, "o3_lambda").Failure? ==>
              Step(ctx, it) == Failure(MissingKeyName("o3_lambda"))
    ensures var plan := PlanFor(ctx, it, Run(ctx, it).value);
            plan.Success? && |plan.value.keys.rows| > 0 && Column(plan.value.keys, "o3_lambda").Success? &&
            MaxOf(Column(plan.value.keys, "o3_lambda").value) > ctx.settings.maxAngular ==>
              Step(ctx, it) == Failure(CorrelationAngularTooLarge(MaxOf(Column(plan.value.keys, "o3_lambda").value),
                                                                  ctx.settings.maxAngular))
    ensures Step(ctx, it).Success? ==>
              && PlanFor(ctx, it, Run(ctx, it).value).Success?
              && Step(ctx, it).value.keys == PlanFor(ctx, it, Run(ctx, it).value).value.keys
              && Step(ctx, it).value.running.keys == Step(ctx, it).value.keys
              && |Step(ctx, it).value.keys.rows| > 0
              && Column(Step(ctx, it).value.keys, "o3_lambda").Success?
              && MaxOf(Column(Step(ctx, it).value.keys, "o3_lambda").value) <= ctx.settings.maxAngular
  {
  }

  /** One iteration appends an output exactly when it is selected: the running tensor it
      produced, with this iteration's key names moved to properties. */
  lemma StepOutputs(ctx: Context, it: nat)
    requires ctx.Valid() && it < Iterations(ctx.settings)
    requires Run(ctx, it).Success?
    ensures Step(ctx, it).Success? && ctx.settings.outputSelection[it] ==>
              && ctx.ops.keysToProperties(Step(ctx, it).value.running, MovedNames(it)).Returned?
              && Step(ctx, it).value.outputs ==
                   Run(ctx, it).value.outputs + [ctx.ops.keysToProperties(Step(ctx, it).value.running, MovedNames(it)).value]
    ensures Step(ctx, it).Success? && !ctx.settings.outputSelection[it] ==>
              Step(ctx, it).value.outputs == Run(ctx, it).value.outputs
  {
  }

  /** A state the loop reached was preceded only by states it reached. */
  lemma RunSucceedsBefore(ctx: Context, j: nat, i: nat)
    requires ctx.Valid() && j <= i <= Iterations(ctx.settings)
    requires Run(ctx, i).Success?
    ensures Run(ctx, j).Success?
  {
    if Run(ctx, j).Failure? {
      RunStopsAtFailure(ctx, j, i);
    }
  }

  /** `out` is the output recorded by iteration `j`: what `keys_to_properties` returned on
      the running tensor that iteration produced, with that iteration's key names. */
  predicate RecordedAt(ctx: Context, j: nat, out: TensorMap)
    requires ctx.Valid()
  {
    && j < Iterations(ctx.settings)
    && Run(ctx, j + 1).Success?
    && ctx.ops.keysToProperties(Run(ctx, j + 1).value.running, MovedNames(j)) == Returned(out)
  }

  /** After `i` iterations the loop holds one output per selected iteration among the
      first `i`, in iteration order, each recorded by that iteration. */
  ghost predicate OutputsRecorded(ctx: Context, i: nat)
    requires ctx.Valid() && i <= Iterations(ctx.settings) && Run(ctx, i).Success?
  {
    && |Run(ctx, i).value.outputs| == |SelectedIterations(ctx.settings.outputSelection[..i])|
    && forall k :: 0 <= k < |Run(ctx, i).value.outputs| ==>
         RecordedAt(ctx, SelectedIterations(ctx.settings.outputSelection[..i])[k], Run(ctx, i).value.outputs[k])
  }

  /** The outputs of the loop are recorded by the selected iterations, in order. */
  lemma {:induction false} OutputsInOrder(ctx: Context, i: nat)
    requires ctx.Valid() && i <= Iterations(ctx.settings)
    requires Run(ctx, i).Success?
    ensures OutputsRecorded(ctx, i)
  {
    if i == 0 {
      assert ctx.settings.outputSelection[..0] == [];
    } else {
      RunSucceedsBefore(ctx, i - 1, i);
      OutputsInOrder(ctx, i - 1);
      OutputsRecordedStep(ctx, i);
    }
  }

  lemma OutputsRecordedStep(ctx: Context, i: nat)
    requires ctx.Valid() && 0 < i <= Iterations(ctx.settings)
    requires Run(ctx, i).Success? && Run(ctx, i - 1).Success?
    requires OutputsRecorded(ctx, i - 1)
    ensures OutputsRecorded(ctx, i)
  {
    var flags := ctx.settings.outputSelection;
    StepOutputs(ctx, i - 1);
    assert flags[..i][..i - 1] == flags[..i - 1];
    var before, after := Run(ctx, i - 1).value.outputs, Run(ctx, i).value.outputs;
    var sel, selBefore := SelectedIterations(flags[..i]), SelectedIterations(flags[..i - 1]);
    assert sel == if flags[i - 1] then selBefore + [i - 1] else selBefore;
    assert after[..|before|] == before;
    forall k | 0 <= k < |after|
      ensures RecordedAt(ctx, sel[k], after[k])
    {
      if k < |before| {
        assert sel[k] == selBefore[k] && after[k] == before[k];
      }
    }
  }

  /** The post-pass keeps one tensor per output, in order, with the blocks unchanged. */
  lemma {:induction false} DropUpToElementwise(ts: seq<TensorMap>, i: nat)
    requires i <= |ts|
    requires DropUpTo(ts, i).Success?
    ensures |DropUpTo(ts, i).value| == i
    ensures forall k :: 0 <= k < i ==>
              DropDegenerate(ts[k]).Success? && DropUpTo(ts, i).value[k] == DropDegenerate(ts[k]).value
  {
    if i > 0 {
      DropUpToElementwise(ts, i - 1);
      var done, last := DropUpTo(ts, i - 1).value, DropDegenerate(ts[i - 1]).value;
      assert DropUpTo(ts, i).value == done + [last];
    }
  }

  /**
   * What a successful `_correlate_density` returns: the loop over the standardised
   * density ran to the end, and the result holds one tensor per selected
   * iteration, in order, each the recorded output after the `order_nu` post-pass
   * with its blocks unchanged; it is a bare tensor exactly when one iteration is
   * selected.
   */
  lemma CorrelateResult(s: Settings, ops: Collaborators, density: TensorMap, backend: string)
    requires WellFormed(s)
    requires Correlate(s, ops, density, backend).Success?
    ensures ops.standardizeKeys(density).Returned?
    ensures Run(Context(s, ops, ops.standardizeKeys(density).value, backend), Iterations(s)).Success?
    ensures
      var outs := Run(Context(s, ops, ops.standardizeKeys(density).value, backend), Iterations(s)).value.outputs;
      var result := Correlate(s, ops, density, backend).value;
      && |outs| == |SelectedIterations(s.outputSelection)|
      && |Tensors(result)| == |outs|
      && (forall k :: 0 <= k < |outs| ==>
            DropDegenerate(outs[k]).Success? && Tensors(result)[k] == DropDegenerate(outs[k]).value &&
            Tensors(result)[k].blocks == outs[k].blocks)
    ensures Correlate(s, ops, density, backend).value.Single? <==> |SelectedIterations(s.outputSelection)| == 1
  {
    var ctx := Context(s, ops, ops.standardizeKeys(density).value, backend);
    var n := Iterations(s);
    var outs := Run(ctx, n).value.outputs;
    OutputsInOrder(ctx, n);
    assert s.outputSelection[..n] == s.outputSelection;
    DropUpToElementwise(outs, |outs|);
  }

  /**
   * `ctx'` has the settings, the density and the backend of `ctx`, and collaborators
   * that answer like those of `ctx` wherever the loop can call them: the planner
   * with the original density's keys as its second argument, the combiner with a
   * block of the original density as its second block and with the configured
   * table and backend, and `keys_to_properties` everywhere.
   */
  ghost predicate AgreeOnCalls(ctx: Context, ctx': Context) {
    && ctx'.settings == ctx.settings && ctx'.density == ctx.density && ctx'.backend == ctx.backend
    && (forall keys, selected, skip ::
          ctx.ops.precomputeKeys(keys, ctx.density.keys, selected, skip) ==
          ctx'.ops.precomputeKeys(keys, ctx.density.keys, selected, skip))
    && (forall first, k, lambdas :: 0 <= k < |ctx.density.blocks| ==>
          ctx.ops.combine(first, ctx.density.blocks[k], lambdas, ctx.settings.cgCoefficients, ctx.backend) ==
          ctx'.ops.combine(first, ctx.density.blocks[k], lambdas, ctx.settings.cgCoefficients, ctx.backend))
    && (forall t, names :: ctx.ops.keysToProperties(t, names) == ctx'.ops.keysToProperties(t, names))
  }

  lemma {:induction false} CombineUsesOriginalDensity(ctx: Context, ctx': Context, running: TensorMap,
                                                      cs: seq<Combination>, j: nat)
    requires AgreeOnCalls(ctx, ctx') && j <= |cs|
    ensures CombineUpTo(ctx, running, cs, j) == CombineUpTo(ctx', running, cs, j)
  {
    if j > 0 {
      CombineUsesOriginalDensity(ctx, ctx', running, cs, j - 1);
    }
  }

  /**
   * Every iteration pairs the running tensor with the ORIGINAL density: the planner
   * is only ever asked about the original keys, and the combiner only ever gets a
   * block of the original density as its second block, so collaborators that agree
   * on those calls produce the same loop.
   */
  lemma {:induction false} OnlyOriginalDensityReused(ctx: Context, ctx': Context, i: nat)
    requires ctx.Valid() && i <= Iterations(ctx.settings)
    requires AgreeOnCalls(ctx, ctx')
    ensures Run(ctx, i) == Run(ctx', i)
  {
    if i > 0 {
      OnlyOriginalDensityReused(ctx, ctx', i - 1);
      StepUsesOriginalDensity(ctx, ctx', i - 1);
    }
  }

  lemma StepUsesOriginalDensity(ctx: Context, ctx': Context, it: nat)
    requires ctx.Valid() && it < Iterations(ctx.settings)
    requires AgreeOnCalls(ctx, ctx')
    requires Run(ctx, it) == Run(ctx', it)
    ensures Run(ctx, it + 1) == Run(ctx', it + 1)
  {
    if Run(ctx, it).Success? {
      var st := Run(ctx, it).value;
      var selected, skip := ctx.settings.selectedKeys[it], ctx.settings.skipRedundant[it];
      assert ctx.ops.precomputeKeys(st.keys, ctx.density.keys, selected, skip) ==
             ctx'.ops.precomputeKeys(st.keys, ctx.density.keys, selected, skip);
      var plan := PlanFor(ctx, it, st);
      if plan.Success? {
        CombineUsesOriginalDensity(ctx, ctx', st.running, plan.value.combinations, |plan.value.combinations|);
      }
    }
  }

  /** The keys the planner alone produces over the first `i` iterations, fed back its
      own answers and the original keys; `None` once it raises. */
  function PlannedKeys(ctx: Context, i: nat): Option<Labels>
    requires ctx.Valid() && i <= Iterations(ctx.settings)
  {
    if i == 0 then Some(ctx.density.keys)
    else
      match PlannedKeys(ctx, i - 1)
      case None => None
      case Some(keys) =>
        var planned := ctx.ops.precomputeKeys(keys, ctx.density.keys, ctx.settings.selectedKeys[i - 1],
                                              ctx.settings.skipRedundant[i - 1]);
        if planned.Raised? then None else Some(planned.value.keys)
  }

  /** The keys of the loop are the planner's: `keys_iter` is reassigned to its answer at
      every iteration, and the combiner's results never feed back into it. */
  lemma {:induction false} KeysFollowPlanner(ctx: Context, i: nat)
    requires ctx.Valid() && i <= Iterations(ctx.settings)
    requires Run(ctx, i).Success?
    ensures PlannedKeys(ctx, i) == Some(Run(ctx, i).value.keys)
  {
    if i > 0 {
      RunSucceedsBefore(ctx, i - 1, i);
      KeysFollowPlanner(ctx, i - 1);
      StepChecks(ctx, i - 1);
    }
  }

  /** `ctx'` is `ctx` with possibly another backend string for the combiner. */
  ghost predicate OnlyBackendDiffers(ctx: Context, ctx': Context) {
    ctx'.settings == ctx.settings && ctx'.ops == ctx.ops && ctx'.density == ctx.density
  }

  lemma {:induction false} PlannedKeysIgnoreBackend(ctx: Context, ctx': Context, i: nat)
    requires ctx.Valid() && i <= Iterations(ctx.settings) && OnlyBackendDiffers(ctx, ctx')
    ensures PlannedKeys(ctx, i) == PlannedKeys(ctx', i)
  {
    if i > 0 {
      PlannedKeysIgnoreBackend(ctx, ctx', i - 1);
    }
  }

  /**
   * `compute` and `compute_metadata` differ only in the backend string handed to the
   * combiner, which the planner never sees: whenever both loops reach iteration
   * `i`, they hold the same keys.
   */
  lemma KeysIndependentOfBackend(ctx: Context, ctx': Context, i: nat)
    requires ctx.Valid() && i <= Iterations(ctx.settings) && OnlyBackendDiffers(ctx, ctx')
    requires Run(ctx, i).Success? && Run(ctx', i).Success?
    ensures Run(ctx, i).value.keys == Run(ctx', i).value.keys
  {
    KeysFollowPlanner(ctx, i);
    KeysFollowPlanner(ctx', i);
    PlannedKeysIgnoreBackend(ctx, ctx', i);
  }

  /** Two combiner answers that agree on everything but the numeric values. */
  predicate SameBlocksMetadata(x: Result<seq<Block>>, y: Result<seq<Block>>) {
    x.Success? == y.Success? && (x.Success? ==> MetaBlocks(x.value) == MetaBlocks(y.value))
  }

  predicate SameTensorMetadata(x: Result<TensorMap>, y: Result<TensorMap>) {
    x.Success? == y.Success? && (x.Success? ==> MetaTensor(x.value) == MetaTensor(y.value))
  }

  /** Two loop states that agree on everything but the numeric values. */
  predicate SameStateMetadata(x: Result<State>, y: Result<State>) {
    && x.Success? == y.Success?
    && (x.Success? ==>
          && x.value.keys == y.value.keys
          && MetaTensor(x.value.running) == MetaTensor(y.value.running)
          && MetaTensors(x.value.outputs) == MetaTensors(y.value.outputs))
  }

  /** The result with every block's values dropped. */
  function MetaOutput(o: Output): (r: Output)
    ensures r.Single? <==> o.Single?
    ensures Tensors(r) == MetaTensors(Tensors(o))
  {
    match o
    case Single(t) => Single(MetaTensor(t))
    case Many(ts) => Many(MetaTensors(ts))
  }

  /**
   * What the metadata backend relies on: whether the combiner succeeds, and the
   * metadata of what it returns, depend on its first block only through that
   * block's metadata, and not on the backend string.
   */
  ghost predicate CombinerMetadataOnly(ops: Collaborators) {
    forall first, first', second, lambdas, table, backend, backend' ::
      MetaBlock(first) == MetaBlock(first') ==>
        SameBlocksMetadata(Lift(ops.combine(first, second, lambdas, table, backend)),
                           Lift(ops.combine(first', second, lambdas, table, backend')))
  }

  /** `keys_to_properties` moves metadata only: its outcome depends on the metadata of its input. */
  ghost predicate KeysToPropertiesMetadataOnly(ops: Collaborators) {
    forall t, t', names :: MetaTensor(t) == MetaTensor(t') ==>
      SameTensorMetadata(Lift(ops.keysToProperties(t, names)), Lift(ops.keysToProperties(t', names)))
  }

  lemma MetaBlocksAppend(a: seq<Block>, b: seq<Block>)
    ensures MetaBlocks(a + b) == MetaBlocks(a) + MetaBlocks(b)
  {
    assert forall k :: 0 <= k < |a + b| ==> MetaBlocks(a + b)[k] == (MetaBlocks(a) + MetaBlocks(b))[k];
  }

  lemma MetaTensorsAppend(a: seq<TensorMap>, b: seq<TensorMap>)
    ensures MetaTensors(a + b) == MetaTensors(a) + MetaTensors(b)
  {
    assert forall k :: 0 <= k < |a + b| ==> MetaTensors(a + b)[k] == (MetaTensors(a) + MetaTensors(b))[k];
  }

  lemma MetaTensorsSnoc(done: seq<TensorMap>, done': seq<TensorMap>, t: TensorMap, t': TensorMap)
    requires MetaTensors(done) == MetaTensors(done') && MetaTensor(t) == MetaTensor(t')
    ensures MetaTensors(done + [t]) == MetaTensors(done' + [t'])
  {
    MetaTensorsAppend(done, [t]);
    MetaTensorsAppend(done', [t']);
    assert MetaTensors([t]) == MetaTensors([t']);
  }

  lemma {:induction false} CombineKeepsMetadata(ctx: Context, ctx': Context, running: TensorMap, running': TensorMap,
                                                cs: seq<Combination>, j: nat)
    requires OnlyBackendDiffers(ctx, ctx') && CombinerMetadataOnly(ctx.ops) && j <= |cs|
    requires MetaTensor(running) == MetaTensor(running')
    ensures SameBlocksMetadata(CombineUpTo(ctx, running, cs, j), CombineUpTo(ctx', running', cs, j))
  {
    if j > 0 {
      CombineKeepsMetadata(ctx, ctx', running, running', cs, j - 1);
      var done, done' := CombineUpTo(ctx, running, cs, j - 1), CombineUpTo(ctx', running', cs, j - 1);
      var one, one' := CombineOne(ctx, running, cs[j - 1]), CombineOne(ctx', running', cs[j - 1]);
      var c := cs[j - 1];
      assert |running.blocks| == |running'.blocks|;
      if c.first < |running.blocks| && c.second < |ctx.density.blocks| {
        assert MetaBlock(running.blocks[c.first]) == MetaBlock(running'.blocks[c.first]);
      }
      assert SameBlocksMetadata(one, one');
      if done.Success? && one.Success? {
        MetaBlocksAppend(done.value, one.value);
        MetaBlocksAppend(done'.value, one'.value);
      }
    }
  }

  lemma StepKeepsMetadata(ctx: Context, ctx': Context, it: nat)
    requires ctx.Valid() && it < Iterations(ctx.settings) && OnlyBackendDiffers(ctx, ctx')
    requires CombinerMetadataOnly(ctx.ops) && KeysToPropertiesMetadataOnly(ctx.ops)
    requires SameStateMetadata(Run(ctx, it), Run(ctx', it))
    ensures SameStateMetadata(Run(ctx, it + 1), Run(ctx', it + 1))
  {
    if Run(ctx, it).Success? {
      var st, st' := Run(ctx, it).value, Run(ctx', it).value;
      var plan := PlanFor(ctx, it, st);
      assert plan == PlanFor(ctx', it, st');
      if plan.Success? {
        CombineKeepsMetadata(ctx, ctx', st.running, st'.running, plan.value.combinations, |plan.value.combinations|);
        var blocks := CombineUpTo(ctx, st.running, plan.value.combinations, |plan.value.combinations|);
        var blocks' := CombineUpTo(ctx', st'.running, plan.value.combinations, |plan.value.combinations|);
        if blocks.Success? && |plan.value.keys.rows| == |blocks.value| {
          var next, next' := MakeTensor(plan.value.keys, blocks.value).value, MakeTensor(plan.value.keys, blocks'.value).value;
          assert MetaTensor(next) == MetaTensor(next');
          var moved := Lift(ctx.ops.keysToProperties(next, MovedNames(it)));
          var moved' := Lift(ctx.ops.keysToProperties(next', MovedNames(it)));
          assert SameTensorMetadata(moved, moved');
          if moved.Success? {
            MetaTensorsSnoc(st.outputs, st'.outputs, moved.value, moved'.value);
          }
        }
      }
    }
  }

  lemma {:induction false} RunKeepsMetadata(ctx: Context, ctx': Context, i: nat)
    requires ctx.Valid() && i <= Iterations(ctx.settings) && OnlyBackendDiffers(ctx, ctx')
    requires CombinerMetadataOnly(ctx.ops) && KeysToPropertiesMetadataOnly(ctx.ops)
    ensures SameStateMetadata(Run(ctx, i), Run(ctx', i))
  {
    if i > 0 {
      RunKeepsMetadata(ctx, ctx', i - 1);
      assert SameStateMetadata(Run(ctx, i - 1), Run(ctx', i - 1));
      StepKeepsMetadata(ctx, ctx', i - 1);
    }
  }

  lemma DropDegenerateKeepsMetadata(t: TensorMap, t': TensorMap)
    requires MetaTensor(t) == MetaTensor(t')
    ensures SameTensorMetadata(DropDegenerate(t), DropDegenerate(t'))
  {
    assert t.keys == t'.keys;
  }

  /** The `order_nu` post-pass reads keys only, so it treats tensors with equal metadata alike. */
  lemma {:induction false} DropKeepsMetadata(ts: seq<TensorMap>, ts': seq<TensorMap>, i: nat)
    requires i <= |ts| && MetaTensors(ts) == MetaTensors(ts')
    ensures DropUpTo(ts, i).Success? == DropUpTo(ts', i).Success?
    ensures DropUpTo(ts, i).Success? ==> MetaTensors(DropUpTo(ts, i).value) == MetaTensors(DropUpTo(ts', i).value)
  {
    if i > 0 {
      DropKeepsMetadata(ts, ts', i - 1);
      assert MetaTensor(ts[i - 1]) == MetaTensor(ts'[i - 1]);
      DropDegenerateKeepsMetadata(ts[i - 1], ts'[i - 1]);
      var t, t' := DropDegenerate(ts[i - 1]), DropDegenerate(ts'[i - 1]);
      var done, done' := DropUpTo(ts, i - 1), DropUpTo(ts', i - 1);
      if done.Success? && t.Success? {
        assert DropUpTo(ts, i) == Success(done.value + [t.value]);
        assert DropUpTo(ts', i) == Success(done'.value + [t'.value]);
        MetaTensorsSnoc(done.value, done'.value, t.value, t'.value);
      }
    }
  }

  /**
   * `compute` and `compute_metadata` agree on metadata: when the combiner and
   * `keys_to_properties` let metadata depend on metadata only, the two calls
   * succeed together and return results that differ at most in their values.
   */
  lemma ComputeMatchesComputeMetadata(s: Settings, ops: Collaborators, density: TensorMap)
    requires WellFormed(s)
    requires CombinerMetadataOnly(ops) && KeysToPropertiesMetadataOnly(ops)
    ensures Correlate(s, ops, density, s.cgBackend).Success? == Correlate(s, ops, density, MetadataBackend).Success?
    ensures Correlate(s, ops, density, s.cgBackend).Success? ==>
              MetaOutput(Correlate(s, ops, density, s.cgBackend).value) ==
              MetaOutput(Correlate(s, ops, density, MetadataBackend).value)
  {
    if ops.standardizeKeys(density).Returned? {
      var ctx := Context(s, ops, ops.standardizeKeys(density).value, s.cgBackend);
      var ctx' := Context(s, ops, ops.standardizeKeys(density).value, MetadataBackend);
      var n := Iterations(s);
      RunKeepsMetadata(ctx, ctx', n);
      var last, last' := Run(ctx, n), Run(ctx', n);
      if last.Success? {
        DropKeepsMetadata(last.value.outputs, last'.value.outputs, |last.value.outputs|);
      }
    }
  }

  /** Two names with the same prefix and different numbers differ. */
  lemma NumberedNamesDiffer(prefix: string, m: nat, n: nat)
    requires m != n
    ensures prefix + NatToString(m) != prefix + NatToString(n)
  {
    if prefix + NatToString(m) == prefix + NatToString(n) {
      assert (prefix + NatToString(m))[|prefix|..] == NatToString(m);
      assert (prefix + NatToString(n))[|prefix|..] == NatToString(n);
      NatToStringInjective(m, n);
    }
  }

  /** The key names moved to properties at one iteration are pairwise distinct. */
  lemma MovedNamesDistinct(iteration: nat)
    ensures NoDuplicates(MovedNames(iteration))
  {
    var names := MovedNames(iteration);
    forall a, b | 0 <= a < b < |names| ensures names[a] != names[b] {
      if b < iteration + 2 {
        NumberedNamesDiffer("l_", a + 1, b + 1);
      } else if iteration + 2 <= a {
        NumberedNamesDiffer("k_", a - iteration, b - iteration);
      } else {
        assert names[a][0] == 'l' && names[b][0] == 'k';
      }
    }
  }

  /** The first two iterations move `l_1, l_2` and then `l_1, l_2, l_3, k_2`. */
  lemma MovedNamesFirstIterations()
    ensures MovedNames(0) == ["l_1", "l_2"]
    ensures MovedNames(1) == ["l_1", "l_2", "l_3", "k_2"]
  {
    assert NatToString(1) == "1" && NatToString(2) == "2" && NatToString(3) == "3";
    var m0, m1 := MovedNames(0), MovedNames(1);
    assert m0[0] == "l_1" && m0[1] == "l_2";
    assert m1[0] == "l_1" && m1[1] == "l_2" && m1[2] == "l_3" && m1[3] == "k_2";
  }

  /**
   * The gradient check uses `all`: on a tensor whose blocks all carry the same
   * gradients (metatensor's rule) it agrees with `any` as long as there is a
   * block, while a tensor without blocks counts as carrying gradients.
   */
  lemma GradientCheckAllVersusAny(t: TensorMap)
    ensures |t.blocks| == 0 ==> AllCarryGradients(t) && !AnyCarriesGradients(t)
    ensures |t.blocks| > 0 && UniformGradients(t) ==> (AllCarryGradients(t) <==> AnyCarriesGradients(t))
  {
    if |t.blocks| > 0 && AllCarryGradients(t) {
      assert HasGradients(t.blocks[0]);
    }
    if |t.blocks| > 0 && UniformGradients(t) && AnyCarriesGradients(t) {
      var k :| 0 <= k < |t.blocks| && HasGradients(t.blocks[k]);
      assert forall j :: 0 <= j < |t.blocks| ==> t.blocks[j].gradientParameters == t.blocks[k].gradientParameters;
    }
  }
}
