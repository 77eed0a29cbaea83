/**
 * What the `DensityCorrelations` constructor decides: the arrays backend, the CG
 * backend, the coefficient table, and the per-iteration selections, or the
 * error it raises instead.
 */
module Configuration {
  import opened Outcomes
  import opened Metadata
  import opened Collaborators

  const DenseBackend: string := "python-dense"
  const SparseBackend: string := "python-sparse"

  /** The constructor's arguments, with Python's `None` as `Option.None`. */
  datatype Arguments = Arguments(
    maxAngular: int,
    correlationOrder: int,
    angularCutoff: Option<int>,
    selectedKeys: SelectedKeysArg,
    skipRedundant: FlagsArg,
    outputSelection: FlagsArg,
    arraysBackend: Option<string>,
    cgBackend: Option<string>)

  /** The facts about the running process the constructor depends on: whether TorchScript is
      compiling the module, whether `Labels` is the TorchScript class, and whether `import torch`
      succeeded when the module was loaded (`HAS_TORCH`). */
  datatype Environment = Environment(scripting: bool, labelsIsTorchScript: bool, torchImported: bool)

  /** The fields a successfully constructed object holds. */
  datatype Settings = Settings(
    cgBackend: string,
    maxAngular: int,
    cgCoefficients: CgTable,
    correlationOrder: int,
    angularCutoff: Option<int>,
    selectedKeys: seq<Option<Labels>>,
    skipRedundant: seq<bool>,
    outputSelection: seq<bool>)

  /** What every constructed object satisfies: one selection and two flags per iteration. */
  predicate WellFormed(s: Settings) {
    && s.maxAngular >= 0
    && s.correlationOrder >= 2
    && |s.selectedKeys| == s.correlationOrder - 1
    && |s.skipRedundant| == s.correlationOrder - 1
    && |s.outputSelection| == s.correlationOrder - 1
  }

  /** The number of CG iterations, `correlation_order - 1`. */
  function Iterations(s: Settings): nat
    requires WellFormed(s)
  {
    s.correlationOrder - 1
  }

  /** Resolution of the `arrays_backend` argument. */
  function ResolveArraysBackend(requested: Option<string>, env: Environment): (r: Result<ArraysBackend>)
    ensures requested.None? ==> r.Success? && (r.value == Torch <==> env.scripting || env.labelsIsTorchScript)
    ensures requested == Some("numpy") ==> (r.Failure? <==> env.scripting)
    ensures requested == Some("numpy") && r.Success? ==> r.value == Numpy
    ensures requested == Some("numpy") && r.Failure? ==> r.error == NumpyWhileScripting
    ensures requested == Some("torch") ==> r == Success(Torch)
    ensures requested.Some? && requested.value != "numpy" && requested.value != "torch" ==>
              r == Failure(UnknownArraysBackend(requested.value))
  {
    match requested
    case None =>
      if env.scripting then Success(Torch)
      else if env.labelsIsTorchScript then Success(Torch)
      else Success(Numpy)
    case Some(name) =>
      if name == "numpy" then
        if env.scripting then Failure(NumpyWhileScripting) else Success(Numpy)
      else if name == "torch" then Success(Torch)
      else Failure(UnknownArraysBackend(name))
  }

  /** The CG backend: a given name is kept verbatim, otherwise dense for torch and sparse for numpy. */
  function SelectCgBackend(requested: Option<string>, arrays: ArraysBackend): (r: string)
    ensures requested.Some? ==> r == requested.value
    ensures requested.None? ==> (r == DenseBackend <==> arrays == Torch)
    ensures requested.None? ==> (r == SparseBackend <==> arrays == Numpy)
  {
    match requested
    case Some(name) => name
    case None =>
      assert DenseBackend[7] != SparseBackend[7];
      if arrays == Torch then DenseBackend else assert arrays == Numpy; SparseBackend
  }

  /** The constructor, as a function from its arguments to the settings it stores or the error it raises. */
  function Configure(args: Arguments, env: Environment, ops: Collaborators): (r: Result<Settings>)
    ensures r.Success? ==> WellFormed(r.value)
    ensures r.Success? ==> r.value.maxAngular == args.maxAngular && r.value.correlationOrder == args.correlationOrder
    ensures r.Success? ==> r.value.angularCutoff == args.angularCutoff
    ensures r.Success? ==> ResolveArraysBackend(args.arraysBackend, env).Success?
    // the stored table is the builder's, for `max_angular`, sparse exactly with the sparse backend
    // and torch exactly with torch arrays
    ensures r.Success? ==>
              ops.calculateCgCoefficients(args.maxAngular, r.value.cgBackend == SparseBackend,
                                          ResolveArraysBackend(args.arraysBackend, env).value == Torch) ==
                Returned(r.value.cgCoefficients)
    ensures r.Success? ==> (r.value.cgCoefficients.sparse <==> r.value.cgBackend == SparseBackend)
    ensures r.Success? ==> r.value.cgCoefficients.lambdaMax == args.maxAngular
    ensures r.Success? ==> (r.value.cgCoefficients.useTorch <==> ResolveArraysBackend(args.arraysBackend, env).value == Torch)
    ensures r.Success? && args.cgBackend.Some? ==> r.value.cgBackend == args.cgBackend.value
    ensures r.Success? && args.cgBackend.None? ==>
              r.value.cgBackend == (if ResolveArraysBackend(args.arraysBackend, env).value == Torch then DenseBackend else SparseBackend)
    // the per-iteration lists are what the two parsers return for `correlation_order - 1` iterations
    ensures r.Success? ==>
              && ops.parseSelectedKeys(args.correlationOrder - 1, ResolveArraysBackend(args.arraysBackend, env).value,
                                       args.angularCutoff, args.selectedKeys) == Returned(r.value.selectedKeys)
              && ops.parseBoolIterationFilters(args.correlationOrder - 1, args.skipRedundant, args.outputSelection) ==
                   Returned((r.value.skipRedundant, r.value.outputSelection))
    // the errors, in the order the constructor raises them
    ensures ResolveArraysBackend(args.arraysBackend, env).Failure? ==>
              r == Failure(ResolveArraysBackend(args.arraysBackend, env).error)
    ensures args.maxAngular < 0 ==> r.Failure?
    ensures ResolveArraysBackend(args.arraysBackend, env).Success? && args.maxAngular < 0 ==>
              r == Failure(NegativeMaxAngular(args.maxAngular))
    ensures args.correlationOrder <= 1 ==> r.Failure?
    // once the arrays backend resolves and `max_angular` is accepted: the table builder, the
    // correlation order, the torch import and the two parsers, in this order
    ensures ResolveArraysBackend(args.arraysBackend, env).Success? && args.maxAngular >= 0 ==>
              var arrays := ResolveArraysBackend(args.arraysBackend, env).value;
              var table := ops.calculateCgCoefficients(args.maxAngular, SelectCgBackend(args.cgBackend, arrays) == SparseBackend,
                                                       arrays == Torch);
              && (table.Raised? ==> r == Failure(CollaboratorFailed(table.message)))
              && (table.Returned? && args.correlationOrder <= 1 ==> r == Failure(CorrelationOrderTooSmall(args.correlationOrder)))
              && (table.Returned? && args.correlationOrder >= 2 && arrays == Torch && !env.torchImported ==>
                    r == Failure(TorchNotImported))
    ensures ResolveArraysBackend(args.arraysBackend, env).Success? && args.maxAngular >= 0 && args.correlationOrder >= 2 ==>
              var arrays := ResolveArraysBackend(args.arraysBackend, env).value;
              var table := ops.calculateCgCoefficients(args.maxAngular, SelectCgBackend(args.cgBackend, arrays) == SparseBackend,
                                                       arrays == Torch);
              var selected := ops.parseSelectedKeys(args.correlationOrder - 1, arrays, args.angularCutoff, args.selectedKeys);
              var filters := ops.parseBoolIterationFilters(args.correlationOrder - 1, args.skipRedundant, args.outputSelection);
              table.Returned? && (arrays == Numpy || env.torchImported) ==>
                && (selected.Raised? ==> r == Failure(CollaboratorFailed(selected.message)))
                && (selected.Returned? && filters.Raised? ==> r == Failure(CollaboratorFailed(filters.message)))
                // and the constructor succeeds when no check fails and no collaborator raises
                && (selected.Returned? && filters.Returned? ==> r.Success?)
  {
    var arrays :- ResolveArraysBackend(args.arraysBackend, env);
    var cgBackend := SelectCgBackend(args.cgBackend, arrays);
    if args.maxAngular < 0 then Failure(NegativeMaxAngular(args.maxAngular))
    else
      var table :- Lift(ops.calculateCgCoefficients(args.maxAngular, cgBackend == SparseBackend, arrays == Torch));
      if args.correlationOrder <= 1 then Failure(CorrelationOrderTooSmall(args.correlationOrder))
      else if arrays == Torch && !env.torchImported then Failure(TorchNotImported)
      else
        var n := args.correlationOrder - 1;
        var selected :- Lift(ops.parseSelectedKeys(n, arrays, args.angularCutoff, args.selectedKeys));
        var filters :- Lift(ops.parseBoolIterationFilters(n, args.skipRedundant, args.outputSelection));
        Success(Settings(cgBackend, args.maxAngular, table, args.correlationOrder, args.angularCutoff,
                         selected, filters.0, filters.1))
  }
}
