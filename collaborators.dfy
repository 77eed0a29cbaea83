/**
 * The functions the driver calls but whose code is not part of this model: the
 * builder of the CG coefficient table, the argument parsers, key standardisation, the key planner, the block combiner and
 * metatensor's `keys_to_properties`. They are passed in as function values and
 * nothing is assumed about them except the shape of what they return (`Shaped`).
 */
module Collaborators {
  import opened Outcomes
  import opened Metadata

  /** The arrays library the module computes with. */
  datatype ArraysBackend = Numpy | Torch

  /**
   * The Clebsch-Gordan coefficient table, identified by the arguments it was
   * built from (`lambda_max`, `sparse`, `use_torch`); its numbers are not modelled.
   */
  datatype CgTable = CgTable(lambdaMax: int, sparse: bool, useTorch: bool)

  /** One planned product: block `first` of the running tensor with block `second` of the density. */
  datatype Combination = Combination(first: nat, second: nat, o3Lambdas: seq<int>)

  /** What the key planner returns: the keys of the next tensor and the products that make its blocks. */
  datatype KeyPlan = KeyPlan(keys: Labels, combinations: seq<Combination>)

  /** The `selected_keys` argument: nothing, one Labels (for the last iteration), or one per iteration. */
  datatype SelectedKeysArg = NoSelectedKeys | SelectedForLast(labels: Labels) | SelectedPerIteration(perIteration: seq<Labels>)

  /** The `skip_redundant` / `output_selection` arguments: None, one bool, or one bool per iteration. */
  datatype FlagsArg = NoFlags | SingleFlag(flag: bool) | FlagPerIteration(flags: seq<bool>)

  datatype CollaboratorSet = CollaboratorSet(
    /** `_coefficients.calculate_cg_coefficients(lambda_max, sparse, use_torch)` */
    calculateCgCoefficients: (int, bool, bool) -> CallResult<CgTable>,
    /** `_utils.parse_selected_keys(n_iterations, array_like, angular_cutoff, selected_keys)` */
    parseSelectedKeys: (nat, ArraysBackend, Option<int>, SelectedKeysArg) -> CallResult<seq<Option<Labels>>>,
    /** `_utils.parse_bool_iteration_filters(n_iterations, skip_redundant, output_selection)` */
    parseBoolIterationFilters: (nat, FlagsArg, FlagsArg) -> CallResult<(seq<bool>, seq<bool>)>,
    /** `_utils.standardize_keys(density)` */
    standardizeKeys: TensorMap -> CallResult<TensorMap>,
    /** `_utils.precompute_keys(keys, density_keys, selected_keys, skip_redundant)` */
    precomputeKeys: (Labels, Labels, Option<Labels>, bool) -> CallResult<KeyPlan>,
    /** `_utils.cg_tensor_product_blocks_same_samples(block_1, block_2, o3_lambdas, cg_coefficients, cg_backend)` */
    combine: (Block, Block, seq<int>, CgTable, string) -> CallResult<seq<Block>>,
    /** `TensorMap.keys_to_properties(names)` */
    keysToProperties: (TensorMap, seq<string>) -> CallResult<TensorMap>)

  /** A table the builder returns is the one for the arguments it was given, and the parsers
      return one entry per iteration. */
  ghost predicate Shaped(c: CollaboratorSet) {
    && (forall lambdaMax, sparse, useTorch ::
          c.calculateCgCoefficients(lambdaMax, sparse, useTorch).Returned? ==>
            c.calculateCgCoefficients(lambdaMax, sparse, useTorch).value == CgTable(lambdaMax, sparse, useTorch))
    && (forall n, arrays, cutoff, arg ::
          c.parseSelectedKeys(n, arrays, cutoff, arg).Returned? ==>
            |c.parseSelectedKeys(n, arrays, cutoff, arg).value| == n)
    && (forall n, skip, output ::
          c.parseBoolIterationFilters(n, skip, output).Returned? ==>
            |c.parseBoolIterationFilters(n, skip, output).value.0| == n &&
            |c.parseBoolIterationFilters(n, skip, output).value.1| == n)
  }

  type Collaborators = c: CollaboratorSet | Shaped(c)
    witness CollaboratorSet(
      (lambdaMax, sparse, useTorch) => Raised(""),
      (n, arrays, cutoff, arg) => Raised(""),
      (n, skip, output) => Raised(""),
      t => Raised(""),
      (keys, densityKeys, selected, skip) => Raised(""),
      (a, b, lambdas, table, backend) => Raised(""),
      (t, names) => Raised(""))
}
