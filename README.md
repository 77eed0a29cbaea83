# DensityCorrelations, modelled in Dafny

This project models `DensityCorrelations` from rascaline's Clebsch-Gordan utilities. The class takes a density
descriptor (a metatensor `TensorMap` of body order 2) and correlates it with itself, one Clebsch-Gordan (CG)
tensor product per iteration, until it reaches the requested correlation order. It returns the tensors of the
selected iterations. The model covers the constructor (argument checks, backend resolution, the choice of CG
backend, the coefficient table and the two argument parsers), `forward`, `compute`, `compute_metadata` and the
driver `_correlate_density`:

- the checks on the input density;
- the iteration loop: plan the keys, refuse an empty plan or a too-large `o3_lambda`, combine the blocks,
  record the output;
- the `order_nu` post-pass;
- the choice between returning one tensor and returning a list.

The project has these modules:

| file | module | contents |
|---|---|---|
| `outcomes.dfy` | `Outcomes` | `Option`, `Result`, one `Error` constructor per place the code raises, and `CallResult`: the value or the exception a collaborator gives back |
| `metadata.dfy` | `Metadata` | labels, blocks and tensor maps; the label operations the driver performs itself (`column`, `remove`, `component_names`, the `TensorMap` constructor's count check) |
| `collaborators.dfy` | `Collaborators` | the functions the driver calls but whose code is not modelled, passed in as function values |
| `configuration.dfy` | `Configuration` | the constructor as a function from its arguments to the stored settings or the error |
| `correlation_spec.dfy` | `CorrelationSpec` | `_correlate_density` as functions. `Run(ctx, i)` is the loop state after `i` iterations; `Step` is one iteration; `Correlate` is the whole call |
| `correlate_density.dfy` | `CorrelateDensity` | the class `DensityCorrelations`, with imperative methods that follow the source's loops. Each is proved equal to its specification function |
| `correlation_properties.dfy` | `CorrelationProperties` | what the driver guarantees, proved about the specification functions |

Several collaborators are parameters whose code is not part of the model:

- `calculate_cg_coefficients` (the builder of the CG coefficient table);
- `parse_selected_keys` and `parse_bool_iteration_filters`;
- `standardize_keys`;
- `precompute_keys` (the key planner);
- `cg_tensor_product_blocks_same_samples` (the combiner);
- metatensor's `keys_to_properties`.

Two shape facts are assumed of every set of collaborators: a table the builder returns is the one for the
arguments it was given, and each parser returns one entry per iteration. Any of them may raise, and the model
propagates the exception unchanged. One lemma, `ComputeMatchesComputeMetadata`, assumes more: it holds for a
combiner and a `keys_to_properties` whose metadata depends on metadata alone (see "## Left out").

The process environment becomes an `Environment` parameter: whether TorchScript is compiling the module,
whether `Labels` is the TorchScript class, and whether `import torch` succeeded when the module was loaded. When
it did not, the name `torch` is unbound and `torch.empty(0)` raises a `NameError` for the torch backend (lines
24-29 and 168-169); the model reports that as `TorchNotImported`.

## Model

| member | source | states |
|---|---|---|
| Configuration.ResolveArraysBackend | python/rascaline/rascaline/utils/clebsch_gordan/_correlate_density.py:116-136 | No requested backend gives torch exactly when scripting or when `Labels` is the TorchScript class, otherwise numpy. "numpy" fails exactly when scripting and otherwise gives numpy. "torch" gives torch. Any other name fails with that name. |
| Configuration.SelectCgBackend | python/rascaline/rascaline/utils/clebsch_gordan/_correlate_density.py:138-145 | A given CG backend is kept verbatim. Otherwise the backend is "python-dense" exactly for torch arrays and "python-sparse" exactly for numpy. |
| Configuration.Configure | python/rascaline/rascaline/utils/clebsch_gordan/_correlate_density.py:104-187 | Errors come in the constructor's order: the arrays backend, then `max_angular < 0`, then an exception from the table builder, then `correlation_order <= 1`, then the missing torch import, then `parse_selected_keys`, then `parse_bool_iteration_filters`; a collaborator's exception keeps its message. On success the settings hold one selection and two flags per iteration, exactly as the parsers returned them, and the table is the builder's answer for `lambda_max = max_angular`, sparse exactly when the stored backend is "python-sparse" and torch exactly for torch arrays. The constructor succeeds whenever no check fails and no collaborator raises. |
| CorrelateDensity.DensityCorrelations.ResolveArrays | python/rascaline/rascaline/utils/clebsch_gordan/_correlate_density.py:116-136 | The if-chain on `arrays_backend` yields exactly `ResolveArraysBackend`: the backend, or the error. |
| CorrelateDensity.DensityCorrelations.New | python/rascaline/rascaline/utils/clebsch_gordan/_correlate_density.py:104-187 | The imperative constructor fails exactly when `Configure` does, with the same error. Otherwise it returns a fresh object whose fields are the configured settings. |
| CorrelateDensity.DensityCorrelations.Forward | python/rascaline/rascaline/utils/clebsch_gordan/_correlate_density.py:189-196 | Returns what `compute` returns: `Correlate` with the stored CG backend. |
| CorrelateDensity.DensityCorrelations.Compute | python/rascaline/rascaline/utils/clebsch_gordan/_correlate_density.py:198-212 | Equals `Correlate` run with the stored CG backend. |
| CorrelateDensity.DensityCorrelations.ComputeMetadata | python/rascaline/rascaline/utils/clebsch_gordan/_correlate_density.py:214-233 | Equals `Correlate` run with the "metadata" backend. |
| CorrelateDensity.DensityCorrelations.CorrelateDensity | python/rascaline/rascaline/utils/clebsch_gordan/_correlate_density.py:238-358 | The driver's imperative body equals `Correlate` with the backend `compute_metadata` selects. |
| CorrelateDensity.DensityCorrelations.RunIterations | python/rascaline/rascaline/utils/clebsch_gordan/_correlate_density.py:289-340 | The `for iteration in range(n_iterations)` loop ends in `Run(ctx, correlation_order - 1)`: the state after every iteration, or the first error raised. |
| CorrelateDensity.DensityCorrelations.Iteration | python/rascaline/rascaline/utils/clebsch_gordan/_correlate_density.py:290-340 | Given the state the first `iteration` iterations reached, one pass of the loop body yields the state after `iteration + 1` iterations. |
| CorrelateDensity.DensityCorrelations.CombineBlocks | python/rascaline/rascaline/utils/clebsch_gordan/_correlate_density.py:318-328 | `blocks_iter` is the concatenation, in plan order, of the combiner's answers. Each answer pairs a block of the running tensor with a block of the original density. The loop stops at the first error. |
| CorrelateDensity.DropDegenerateKeys | python/rascaline/rascaline/utils/clebsch_gordan/_correlate_density.py:345-351 | Overwriting `density_correlations[i]` in place yields the list that `DropUpTo` describes, or its first error. |
| CorrelationSpec.Correlate | python/rascaline/rascaline/utils/clebsch_gordan/_correlate_density.py:243-278 | Key names other than the two accepted lists fail with `InvalidKeyNames`. Component names other than `["o3_mu"]` fail next. An exception from `standardize_keys` comes next, with its message. A standardised density whose blocks all carry gradients raises `NotImplementedError`. Then a standardised density without an `o3_lambda` key name fails with the missing-name error, and one whose largest `o3_lambda` exceeds `max_angular` fails with `DensityAngularTooLarge` carrying both values. A success implies that every check passed and that every `o3_lambda` of the standardised density is at most `max_angular`. |
| CorrelationSpec.CorrelateRaisesLoopError | python/rascaline/rascaline/utils/clebsch_gordan/_correlate_density.py:280-340 | Once the density passes every check, an error inside the iteration loop (an empty plan, a planned `o3_lambda` above the ceiling, a collaborator's exception) is exactly what the call raises. |
| CorrelationSpec.DropDegenerate | python/rascaline/rascaline/utils/clebsch_gordan/_correlate_density.py:345-351 | Fails exactly when the keys have no `order_nu` column. The blocks are kept. `order_nu` disappears exactly when it holds a single value; then only that name is removed and every key entry keeps its other values, in order. Otherwise the tensor is unchanged. |
| CorrelationSpec.DropUpTo | python/rascaline/rascaline/utils/clebsch_gordan/_correlate_density.py:345-351 | The post-pass over the outputs succeeds exactly when every output has an `order_nu` key name, keeps their number, and otherwise fails with the missing-name error. |
| CorrelationSpec.CombineOne | python/rascaline/rascaline/utils/clebsch_gordan/_correlate_density.py:319-327 | A planned product whose first index is outside the running tensor, or whose second is outside the density, fails with that index. A success is the combiner's answer for the running tensor's block first and the original density's block second, with the configured table and backend. |
| CorrelationSpec.CombineSucceedsExactly | python/rascaline/rascaline/utils/clebsch_gordan/_correlate_density.py:318-328 | The inner loop over the planned products succeeds exactly when every product succeeds. |
| CorrelationSpec.CombineFailsAtFirstFailure | python/rascaline/rascaline/utils/clebsch_gordan/_correlate_density.py:318-328 | The products are made in plan order: when the first `k` succeed and product `k` fails, the whole inner loop fails with product `k`'s error. |
| CorrelationSpec.RunStopsAtFailure | python/rascaline/rascaline/utils/clebsch_gordan/_correlate_density.py:289-340 | An exception ends the iteration loop: once the state after `k` iterations is an error, the state after any later count is that same error. |
| CorrelationSpec.Assemble | python/rascaline/rascaline/utils/clebsch_gordan/_correlate_density.py:353-358 | The result is a bare tensor exactly when there is one output, and then it is that output. Otherwise it is the whole list. |
| CorrelationSpec.MovedNames | python/rascaline/rascaline/utils/clebsch_gordan/_correlate_density.py:336-339 | At iteration `it` the names are `l_1 .. l_{it+2}` followed by `k_2 .. k_{it+1}`, `2*it + 2` names in all. |
| Metadata.Column | python/rascaline/rascaline/utils/clebsch_gordan/_correlate_density.py:272 | Reading a column succeeds exactly when the name is a key name. It then gives that column's value for every key. |
| Metadata.MaxOf | python/rascaline/rascaline/utils/clebsch_gordan/_correlate_density.py:310 | The maximum is one of the values, and no value exceeds it. |
| Metadata.RemoveConstantColumn | python/rascaline/rascaline/utils/clebsch_gordan/_correlate_density.py:348 | Removing a column that holds a single value drops exactly that name and that position of every entry. The result is still valid labels. |
| Metadata.ComponentNames | python/rascaline/rascaline/utils/clebsch_gordan/_correlate_density.py:253 | The component names are those of the first block's component axes, in order, and there are none for a tensor without blocks. |
| Metadata.AllCarryGradients | python/rascaline/rascaline/utils/clebsch_gordan/_correlate_density.py:263-265 | A tensor without blocks passes the `all(...)` test, as with Python's `all` over an empty list. |
| Metadata.NatToString | python/rascaline/rascaline/utils/clebsch_gordan/_correlate_density.py:337-338 | The decimal rendering an f-string gives a natural number: digits only, at least one, and a leading '0' only for zero. |
| Metadata.NatToStringValue | python/rascaline/rascaline/utils/clebsch_gordan/_correlate_density.py:337-338 | The rendering spells the number: reading its digits back in base ten, by a separate definition, gives `n`. |
| Metadata.MakeTensor | python/rascaline/rascaline/utils/clebsch_gordan/_correlate_density.py:330 | A tensor is built exactly when the number of keys equals the number of blocks. |
| CorrelationProperties.StepChecks | python/rascaline/rascaline/utils/clebsch_gordan/_correlate_density.py:295-316 | A planner error, an empty plan, planned keys without an `o3_lambda` column, or a planned `o3_lambda` above `max_angular` ends the iteration with that error before anything is combined; the empty-plan error reports iteration `it` as `it + 1`, and the angular error carries the largest planned `o3_lambda`. After a successful iteration the keys are the planned ones and equal the running tensor's keys. They are non-empty, and none has `o3_lambda` above `max_angular`. |
| CorrelationProperties.StepOutputs | python/rascaline/rascaline/utils/clebsch_gordan/_correlate_density.py:334-340 | An iteration appends exactly one output when it is selected: `keys_to_properties` of the new running tensor with that iteration's names. Otherwise it appends nothing. |
| CorrelationProperties.OutputsInOrder | python/rascaline/rascaline/utils/clebsch_gordan/_correlate_density.py:289-340 | After `i` iterations there is one output per selected iteration among the first `i`. The outputs are in iteration order, and each is the one that iteration recorded. |
| CorrelationProperties.SelectedIterations | python/rascaline/rascaline/utils/clebsch_gordan/_correlate_density.py:334 | The selected iterations are exactly the indices whose `output_selection` flag is set, in strictly increasing order. |
| CorrelationProperties.DropUpToElementwise | python/rascaline/rascaline/utils/clebsch_gordan/_correlate_density.py:345-351 | The post-pass keeps the number and order of the outputs and applies `DropDegenerate` to each one. |
| CorrelationProperties.CorrelateResult | python/rascaline/rascaline/utils/clebsch_gordan/_correlate_density.py:280-358 | A successful call ran every iteration on the standardised density. It returns one tensor per selected iteration, in order. Each tensor is the recorded output after the `order_nu` post-pass, with its blocks unchanged. The result is a bare tensor exactly when one iteration is selected. |
| CorrelationProperties.OnlyOriginalDensityReused | python/rascaline/rascaline/utils/clebsch_gordan/_correlate_density.py:295-328 | Each iteration pairs the running tensor with the original density. Two sets of collaborators that agree on the planner with the original keys, on the combiner with an original block second, and on `keys_to_properties` produce the same loop. |
| CorrelationProperties.KeysFollowPlanner | python/rascaline/rascaline/utils/clebsch_gordan/_correlate_density.py:289-300 | The loop's keys after `i` iterations are those obtained by feeding the planner its own answers, starting from the density's keys. The combiner never influences them. |
| CorrelationProperties.KeysIndependentOfBackend | python/rascaline/rascaline/utils/clebsch_gordan/_correlate_density.py:282-300 | Two loops that differ only in the backend string hold the same keys at every iteration both reach. This covers `compute` and `compute_metadata`. |
| CorrelationProperties.ComputeMatchesComputeMetadata | python/rascaline/rascaline/utils/clebsch_gordan/_correlate_density.py:209-233 | Suppose the combiner and `keys_to_properties` depend on metadata only. Then `compute` and `compute_metadata` succeed together, and their results have equal metadata: the same shape, keys, samples, components, properties and gradients. |
| CorrelationProperties.MovedNamesDistinct | python/rascaline/rascaline/utils/clebsch_gordan/_correlate_density.py:336-339 | The names moved to properties at one iteration are pairwise distinct. |
| CorrelationProperties.MovedNamesFirstIterations | python/rascaline/rascaline/utils/clebsch_gordan/_correlate_density.py:336-339 | The first iteration moves `l_1, l_2`. The second moves `l_1, l_2, l_3, k_2`. |
| CorrelationProperties.GradientCheckAllVersusAny | python/rascaline/rascaline/utils/clebsch_gordan/_correlate_density.py:263-270 | For uniform gradients and at least one block, `all(...)` agrees with `any(...)`. A tensor without blocks counts as carrying gradients. |
| Outcomes.Lift | python/rascaline/rascaline/utils/clebsch_gordan/_correlate_density.py:258 | An exception raised by a collaborator propagates with its message, and a returned value passes through. |

The code and its docstring disagree on one point. The docstring for `correlation_order` says "Must be >= 1".
The code rejects every value `<= 1` (lines 160-161), so 1 is refused too. The model follows the code.

Three consequences of the code as written, which the lemmas above make explicit:

- The gradient check uses `all`. So a standardised density without blocks is refused with the gradients error
  (`GradientCheckAllVersusAny`). That refusal is also why the `max` over the density's `o3_lambda` column never
  sees an empty column.
- The `order_nu` post-pass reads `order_nu` from each output's keys. An output without that key name is an
  error (`DropDegenerate`). An output with no keys keeps the column, because no value gives zero distinct
  values.
- The empty-plan error numbers iterations from 1 (`NoValidCombinations(it + 1)`).

## Left out

- The CG coefficients: `calculate_cg_coefficients` is an opaque parameter that may raise; a table it returns
  is represented only by the arguments it was built from (`lambda_max`, `sparse`, `use_torch`). The numbers and
  the `.to(dtype=...)` conversion (line 287) are not modelled.
- `CorrelationSpec.Run`, `CorrelationSpec.Step` and `CorrelationSpec.PlanFor` are the definitions of the loop
  state, of one iteration and of the planner call; their properties are the contracts of `StepChecks`,
  `StepOutputs`, `OutputsInOrder`, `KeysFollowPlanner` and `RunStopsAtFailure` above.
- Numeric block values are carried but never computed. `b.copy()` in the post-pass is the identity on values.
- The numpy/torch `array_like` placeholder is the `ArraysBackend` value handed to `parse_selected_keys`. The
  TorchScript decorators and `torch.nn.Module` plumbing are not modelled.
- The internals of `parse_selected_keys`, `parse_bool_iteration_filters`, `standardize_keys`, `precompute_keys`,
  `cg_tensor_product_blocks_same_samples` and `keys_to_properties` are not part of this model. They are opaque
  parameters, and only the parsers' one-entry-per-iteration shape is assumed.
- metatensor's own checks are modelled only where the driver depends on them:
  - a missing key column;
  - a block index out of range;
  - a mismatch between the number of keys and blocks;
  - the validity of `Labels`.

  Its exception messages become `Error` constructors carrying the reported values.
- Metadata.ComponentNames: the component names of a tensor without blocks are taken to be the empty list.
- Gradients are not combined; the source raises on them as well.
- CorrelationProperties.ComputeMatchesComputeMetadata: proved under two conditions on the collaborators. The
  combiner's success and metadata must depend only on the metadata of its first block, not on the backend
  string. `keys_to_properties` must move metadata only. The combiner's code is not part of this model.
- CorrelationProperties.KeysIndependentOfBackend: states equality of keys only for iterations both loops reach.
  With arbitrary collaborators one backend may raise where the other does not.
