/**
 * The `DensityCorrelations` class: a constructor that validates and resolves its
 * configuration, and `compute` / `compute_metadata` / `forward`, which run the
 * iterative CG products of a density with itself.
 */
module CorrelateDensity {
  import opened Outcomes
  import opened Metadata
  import opened Collaborators
  import opened Configuration
  import opened CorrelationSpec

  class DensityCorrelations {
    const cgBackend: string
    const maxAngular: int
    const cgCoefficients: CgTable
    const correlationOrder: int
    const angularCutoff: Option<int>
    const selectedKeys: seq<Option<Labels>>
    const skipRedundant: seq<bool>
    const outputSelection: seq<bool>

    function Resolved(): Settings {
      Settings(cgBackend, maxAngular, cgCoefficients, correlationOrder, angularCutoff,
               selectedKeys, skipRedundant, outputSelection)
    }

    ghost predicate Valid() {
      WellFormed(Resolved())
    }

    /** Stores the resolved configuration in the object's fields. */
    constructor (s: Settings)
      ensures Resolved() == s
    {
      cgBackend := s.cgBackend;
      maxAngular := s.maxAngular;
      cgCoefficients := s.cgCoefficients;
      correlationOrder := s.correlationOrder;
      angularCutoff := s.angularCutoff;
      selectedKeys := s.selectedKeys;
      skipRedundant := s.skipRedundant;
      outputSelection := s.outputSelection;
    }

    /** `DensityCorrelations(...)`: raises, or returns an object holding the resolved configuration. */
    static method New(args: Arguments, env: Environment, ops: Collaborators) returns (r: Result<DensityCorrelations>)
      ensures r.Failure? <==> Configure(args, env, ops).Failure?
      ensures r.Failure? ==> r.error == Configure(args, env, ops).error
      ensures r.Success? ==> fresh(r.value) && r.value.Valid() && r.value.Resolved() == Configure(args, env, ops).value
    {
      var resolved := ResolveArrays(args.arraysBackend, env);
      if resolved.Failure? {
        return Failure(resolved.error);
      }
      var arraysBackend := resolved.value;

      var backend: string;
      if args.cgBackend.None? {
        if arraysBackend == Torch {
          backend := DenseBackend;
        } else {
          backend := SparseBackend;
        }
      } else {
        backend := args.cgBackend.value;
      }

      if args.maxAngular < 0 {
        return Failure(NegativeMaxAngular(args.maxAngular));
      }
      var table := ops.calculateCgCoefficients(args.maxAngular, backend == SparseBackend, arraysBackend == Torch);
      if table.Raised? {
        return Failure(CollaboratorFailed(table.message));
      }

      if args.correlationOrder <= 1 {
        return Failure(CorrelationOrderTooSmall(args.correlationOrder));
      }
      if arraysBackend == Torch && !env.torchImported {
        return Failure(TorchNotImported);
      }
      var nIterations := args.correlationOrder - 1;
      var selected := ops.parseSelectedKeys(nIterations, arraysBackend, args.angularCutoff, args.selectedKeys);
      if selected.Raised? {
        return Failure(CollaboratorFailed(selected.message));
      }
      var filters := ops.parseBoolIterationFilters(nIterations, args.skipRedundant, args.outputSelection);
      if filters.Raised? {
        return Failure(CollaboratorFailed(filters.message));
      }
      var o := new DensityCorrelations(Settings(backend, args.maxAngular, table.value, args.correlationOrder,
                                                args.angularCutoff, selected.value, filters.value.0, filters.value.1));
      return Success(o);
    }

    /** The constructor's resolution of `arrays_backend`. */
    static method ResolveArrays(requested: Option<string>, env: Environment) returns (r: Result<ArraysBackend>)
      ensures r == ResolveArraysBackend(requested, env)
    {
      if requested.None? {
        if env.scripting {
          r := Success(Torch);
        } else if env.labelsIsTorchScript {
          r := Success(Torch);
        } else {
          r := Success(Numpy);
        }
      } else if requested.value == "numpy" {
        if env.scripting {
          return Failure(NumpyWhileScripting);
        }
        r := Success(Numpy);
      } else if requested.value == "torch" {
        r := Success(Torch);
      } else {
        r := Failure(UnknownArraysBackend(requested.value));
      }
    }

    /** `forward(density)`: the same as `compute`. */
    method Forward(density: TensorMap, ops: Collaborators) returns (r: Result<Output>)
      requires Valid()
      ensures r == Correlate(Resolved(), ops, density, cgBackend)
    {
      r := Compute(density, ops);
    }

    /** `compute(density)`: the combiner runs with the stored CG backend. */
    method Compute(density: TensorMap, ops: Collaborators) returns (r: Result<Output>)
      requires Valid()
      ensures r == Correlate(Resolved(), ops, density, cgBackend)
    {
      r := CorrelateDensity(density, false, ops);
    }

    /** `compute_metadata(density)`: the combiner runs with the "metadata" backend. */
    method ComputeMetadata(density: TensorMap, ops: Collaborators) returns (r: Result<Output>)
      requires Valid()
      ensures r == Correlate(Resolved(), ops, density, MetadataBackend)
    {
      r := CorrelateDensity(density, true, ops);
    }

    /** `_correlate_density(density, compute_metadata)`. */
    method CorrelateDensity(density: TensorMap, computeMetadata: bool, ops: Collaborators) returns (r: Result<Output>)
      requires Valid()
      ensures r == Correlate(Resolved(), ops, density, if computeMetadata then MetadataBackend else cgBackend)
    {
      if !(density.keys.names == SingleCenterKeyNames || density.keys.names == PairKeyNames) {
        return Failure(InvalidKeyNames(density.keys.names));
      }
      if ComponentNames(density) != ComponentAxisNames {
        return Failure(InvalidComponentNames(ComponentNames(density)));
      }
      var standardized := ops.standardizeKeys(density);
      if standardized.Raised? {
        return Failure(CollaboratorFailed(standardized.message));
      }
      var original := standardized.value;

      if AllCarryGradients(original) {
        return Failure(GradientsNotImplemented);
      }
      var lambdas := Column(original.keys, "o3_lambda");
      if lambdas.Failure? {
        return Failure(lambdas.error);
      }
      var largest := MaxOf(lambdas.value);
      if largest > maxAngular {
        return Failure(DensityAngularTooLarge(largest, maxAngular));
      }

      var backend := if computeMetadata then MetadataBackend else cgBackend;
      var last := RunIterations(original, backend, ops);
      if last.Failure? {
        return Failure(last.error);
      }
      var outputs := DropDegenerateKeys(last.value.outputs);
      if outputs.Failure? {
        return Failure(outputs.error);
      }
      return Success(Assemble(outputs.value));
    }

    /** The iteration loop of `_correlate_density`, over `correlation_order - 1` iterations. */
    method RunIterations(original: TensorMap, backend: string, ops: Collaborators) returns (r: Result<State>)
      requires Valid()
      ensures r == Run(Context(Resolved(), ops, original, backend), Iterations(Resolved()))
    {
      var nIterations := Iterations(Resolved());
      ghost var ctx := Context(Resolved(), ops, original, backend);
      r := Success(State(original.keys, original, []));
      var iteration := 0;
      while iteration < nIterations && r.Success?
        invariant iteration <= nIterations
        invariant r == Run(ctx, iteration)
      {
        r := Iteration(iteration, r.value.keys, r.value.running, r.value.outputs, original, backend, ops);
        iteration := iteration + 1;
      }
      if r.Failure? {
        RunStopsAtFailure(ctx, iteration, nIterations);
      }
    }

    /** One pass of the iteration loop of `_correlate_density`: plan, check, combine, record. */
    method Iteration(iteration: nat, keysIter: Labels, densityCorrelation: TensorMap, outputs: seq<TensorMap>,
                     original: TensorMap, backend: string, ops: Collaborators) returns (r: Result<State>)
      requires Valid() && iteration < Iterations(Resolved())
      requires Run(Context(Resolved(), ops, original, backend), iteration) == Success(State(keysIter, densityCorrelation, outputs))
      ensures r == Run(Context(Resolved(), ops, original, backend), iteration + 1)
    {
      var planned := ops.precomputeKeys(keysIter, original.keys, selectedKeys[iteration], skipRedundant[iteration]);
      if planned.Raised? {
        return Failure(CollaboratorFailed(planned.message));
      }
      var nextKeys := planned.value.keys;
      var combinations := planned.value.combinations;

      if |nextKeys.rows| == 0 {
        return Failure(NoValidCombinations(iteration + 1));
      }
      var lambdas := Column(nextKeys, "o3_lambda");
      if lambdas.Failure? {
        return Failure(lambdas.error);
      }
      var largest := MaxOf(lambdas.value);
      if largest > maxAngular {
        return Failure(CorrelationAngularTooLarge(largest, maxAngular));
      }

      var blocksIter := CombineBlocks(densityCorrelation, combinations, original, backend, ops);
      if blocksIter.Failure? {
        return Failure(blocksIter.error);
      }
      if |nextKeys.rows| != |blocksIter.value| {
        return Failure(KeysBlocksMismatch(|nextKeys.rows|, |blocksIter.value|));
      }
      var next: TensorMap := TensorData(nextKeys, blocksIter.value);

      if outputSelection[iteration] {
        var moved := ops.keysToProperties(next, MovedNames(iteration));
        if moved.Raised? {
          return Failure(CollaboratorFailed(moved.message));
        }
        return Success(State(nextKeys, next, outputs + [moved.value]));
      }
      return Success(State(nextKeys, next, outputs));
    }

    /** The inner loop: `blocks_iter.extend(...)` for every planned combination, in order. */
    method CombineBlocks(densityCorrelation: TensorMap, combinations: seq<Combination>,
                         original: TensorMap, backend: string, ops: Collaborators) returns (r: Result<seq<Block>>)
      ensures r == CombineUpTo(Context(Resolved(), ops, original, backend), densityCorrelation, combinations, |combinations|)
    {
      ghost var ctx := Context(Resolved(), ops, original, backend);
      var blocksIter: seq<Block> := [];
      for j := 0 to |combinations|
        invariant CombineUpTo(ctx, densityCorrelation, combinations, j) == Success(blocksIter)
      {
        CombineNext(ctx, densityCorrelation, combinations, j, blocksIter);
        var c := combinations[j];
        if c.first >= |densityCorrelation.blocks| {
          return Failure(BlockIndexOutOfRange(c.first, |densityCorrelation.blocks|));
        }
        if c.second >= |original.blocks| {
          return Failure(BlockIndexOutOfRange(c.second, |original.blocks|));
        }
        var produced := ops.combine(densityCorrelation.blocks[c.first], original.blocks[c.second],
                                    c.o3Lambdas, cgCoefficients, backend);
        if produced.Raised? {
          return Failure(CollaboratorFailed(produced.message));
        }
        blocksIter := blocksIter + produced.value;
      }
      return Success(blocksIter);
    }
  }

  /** The post-pass: every selected output loses its `order_nu` key column when that column holds one value. */
  method DropDegenerateKeys(selected: seq<TensorMap>) returns (r: Result<seq<TensorMap>>)
    ensures r == DropUpTo(selected, |selected|)
  {
    var outputs: seq<TensorMap> := selected;
    var i := 0;
    while i < |outputs|
      invariant 0 <= i <= |outputs| == |selected|
      invariant DropUpTo(selected, i) == Success(outputs[..i])
      invariant outputs[i..] == selected[i..]
    {
      assert outputs[i] == selected[i] by { assert outputs[i..][0] == selected[i..][0]; }
      var dropped := DropDegenerate(outputs[i]);
      if dropped.Failure? {
        DropStopsAtFailure(selected, i + 1, |selected|);
        return Failure(dropped.error);
      }
      ghost var done := outputs[..i];
      outputs := outputs[i := dropped.value];
      assert outputs[..i + 1] == done + [dropped.value];
      assert outputs[i + 1..] == selected[i + 1..];
      i := i + 1;
    }
    assert outputs[..i] == outputs;
    return Success(outputs);
  }
}
