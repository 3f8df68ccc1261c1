# libFM driver configuration, modelled in Dafny

libFM trains Factorization Machines with SGD, SGDA (SGD with adaptive
regularization on a validation set) or MCMC (Gibbs sampling; ALS is MCMC with
sampling and multilevel priors switched off). Its driver, `main` in
`libfm.cpp`, assembles the configuration for the learner step by step before
it hands over. This project models that configuration assembly and proves
what it guarantees the learner:

- **Options** (`options.dfy`): the option defaults (`method = mcmc`,
  `init_stdev = 0.1`, `dim = 1,1,8`) and the `als` alias. `als` becomes
  `mcmc` and sets `do_sampling`/`do_multilevel` to `0` only when the user did
  not set them. The row-wise/column-wise data layout follows from the method.
  The learner is chosen by name: SGDA needs validation data, and an unknown
  name is refused. The `dim` option is parsed into `k0`, `k1` and the factor
  count. The option store is a `CmdLine` class whose `ApplyDefaults` method
  performs the driver's `setValue` calls.
- **Joined meta table** (`joined_meta.dfy`): relation blocks get attribute
  offsets that are prefix sums of the block feature counts, starting after
  the main table. The joined group count is the main group count plus every
  block's. The joined `attr_group` array and the `num_attr_per_group`
  histogram are filled in place by the driver's loops, with the running
  attribute and group counters.
- **Targets** (`targets.dfy`): the task is `r` or `c`. For classification,
  the train, test and (when loaded) validation targets are overwritten in
  place with -1 (target <= 0) or +1.
- **Regularization** (`regularization.dfy`): the MCMC branch accepts 0, 1, 3
  or `1 + 2G` values (G = joined group count). It writes `w_lambda(g)` and
  `v_lambda(g, f)` in place, reading the vector with a moving index. The SGD
  branch accepts only 0, 1 or 3 values. Learning rates take one value (broadcast)
  or three (one per layer).
- **Configure** (`configure.dfy`): the whole sequence as one function. Errors
  are checked in the driver's order: dim, method, task, regularization,
  learning rate. Lemmas state what every accepted configuration guarantees.

The imperative parts of the driver are methods over arrays, each proved
against a specification function. The properties are proved as lemmas about
those functions.

The model keeps three behaviours of the code as written:

- The main attribute count includes the validation table only when that table
  is loaded, i.e. for SGDA. For every other method the validation file is
  ignored.
- `als` switches sampling and multilevel priors off only when the user has not
  set those flags.
- Count checks on `dim`, `regular`, `learn_rate`, and the SGDA validation
  check, are `assert`s in the code, not thrown errors. They are modelled as
  refusals (`Err`).

## Model

| member | source | states |
|---|---|---|
| Options.WithDefaults | libfm-1.40.src/src/libfm/libfm.cpp:86-98 | after defaulting, method, init_stdev and dim are present; the method is never `als`; a missing method or `als` becomes `mcmc`; under `als` the two flags default to `0` unless given; user values are kept except that `als` is rewritten; only the five defaulted keys can be added |
| Options.WithDefaultsIdempotent | libfm-1.40.src/src/libfm/libfm.cpp:86-98 | applying the defaults twice gives the same options as once |
| Options.CmdLine.constructor | libfm-1.40.src/src/libfm/libfm.cpp:42 | the option store starts with exactly the options the user gave |
| Options.CmdLine.ApplyDefaults | libfm-1.40.src/src/libfm/libfm.cpp:86-98 | the sequence of `setValue` calls leaves exactly the defaulted options in the store |
| Options.CmdLine.SetValue | libfm-1.40.src/src/libfm/libfm.cpp:86-97 | one `setValue` binds the option to the value and leaves every other option as it was |
| Options.LayoutFor | libfm-1.40.src/src/libfm/libfm.cpp:107-111 | the row-wise data is dropped iff the method is mcmc; the transposed data is dropped iff the method is sgd or sgda; at least one layout is always built |
| Options.LayoutAfterDefaults | libfm-1.40.src/src/libfm/libfm.cpp:86-111 | in terms of the user's options: no row-wise data iff the method is missing, mcmc or als; no transposed data iff it is sgd or sgda |
| Options.SelectLearner | libfm-1.40.src/src/libfm/libfm.cpp:229-252 | a learner is built iff the method is sgd, mcmc, or sgda with validation data; its name is the method; sgda without validation is refused, any other name is `unknown method`; MCMC takes both flags, on unless set to `0` |
| Options.FlagOption | libfm-1.40.src/src/libfm/libfm.cpp:248-249 | a flag option that was not given is on; a given one is off exactly when its value is `0` |
| Options.AlsIsDeterministicMcmc | libfm-1.40.src/src/libfm/libfm.cpp:90-98 | `als` without explicit flags yields MCMC with no sampling and no multilevel prior |
| Options.DefaultIsSamplingMcmc | libfm-1.40.src/src/libfm/libfm.cpp:240-249 | without a method or flags the learner is MCMC with sampling and multilevel priors |
| Options.ParseDim | libfm-1.40.src/src/libfm/libfm.cpp:216-220 | accepted iff there are exactly three values; k0 iff value 0 is nonzero, k1 iff value 1 is nonzero, the factor count is value 2 |
| JoinedMeta.MainAttributeCount | libfm-1.40.src/src/libfm/libfm.cpp:168-171 | the main count is the largest of the train, test and (if loaded) validation feature counts |
| JoinedMeta.AssignOffsets | libfm-1.40.src/src/libfm/libfm.cpp:178-181 | block r's offset is the main count plus the features of blocks before r; the total is the main count plus all block features |
| JoinedMeta.OffsetRanges | libfm-1.40.src/src/libfm/libfm.cpp:178-181 | block 0's attribute range starts at the main count, block r's starts where block r - 1's ends, each lies below every later block's range and inside the total |
| JoinedMeta.CountJoinedGroups | libfm-1.40.src/src/libfm/libfm.cpp:184-187 | the joined group count is the main group count plus every block's group count |
| JoinedMeta.GroupRangesDisjoint | libfm-1.40.src/src/libfm/libfm.cpp:195-204 | block 0's group range starts at the main group count, block r's starts where block r - 1's ends, each lies below every later block's, and all lie below the joined count |
| JoinedMeta.MainGroupKept | libfm-1.40.src/src/libfm/libfm.cpp:190-193 | a main-table attribute keeps its group in the joined table |
| JoinedMeta.RelationGroupAt | libfm-1.40.src/src/libfm/libfm.cpp:195-204 | attribute i of block r is written at slot main + earlier block slots + i, with group offset of r plus its local group |
| JoinedMeta.RelationAttributeGroup | libfm-1.40.src/src/libfm/libfm.cpp:178-204 | on well-formed blocks that slot is exactly `attr_offset(r) + i`, its group lies in `[offset_r, offset_r + groups_r)`, and the table spans the whole attribute space |
| JoinedMeta.JoinedGroupsBelow | libfm-1.40.src/src/libfm/libfm.cpp:188-204 | every joined group id is below the joined group count, so every histogram increment is in range |
| JoinedMeta.HistogramTotal | libfm-1.40.src/src/libfm/libfm.cpp:188-204 | the per-group counts add up to the number of slots |
| JoinedMeta.MainGroupCount | libfm-1.40.src/src/libfm/libfm.cpp:190-204 | a main group has the same number of attributes in the joined table as in the main table |
| JoinedMeta.RelationGroupCount | libfm-1.40.src/src/libfm/libfm.cpp:195-204 | joined group offset_r + l has as many attributes as local group l of block r |
| JoinedMeta.PutSlot | libfm-1.40.src/src/libfm/libfm.cpp:199-200 | writing one slot appends its group to the written prefix, leaves every later slot as it was, and keeps the histogram equal to the counts of that prefix |
| JoinedMeta.PutBlock | libfm-1.40.src/src/libfm/libfm.cpp:198-201 | the inner loop appends the block's groups shifted by the running group counter, leaves the slots past the block as they were, histogram kept |
| JoinedMeta.PutMain | libfm-1.40.src/src/libfm/libfm.cpp:190-193 | the main loop copies the main groups and counts them, and leaves the slots past the main table as they were |
| JoinedMeta.PutRelation | libfm-1.40.src/src/libfm/libfm.cpp:198-203 | one turn of the block loop extends the written table from the first r blocks to the first r + 1, leaves the slots past block r as they were, and advances both counters by the block's slots and groups, histogram kept |
| JoinedMeta.PutRelations | libfm-1.40.src/src/libfm/libfm.cpp:195-204 | the block loop completes the joined table, histogram equal to the counts of the whole table |
| JoinedMeta.DataMetaInfo.constructor | libfm-1.40.src/src/libfm/libfm.cpp:182-208 | the meta object holds the given group table, group count, histogram and relation count |
| JoinedMeta.BuildJoinedMeta | libfm-1.40.src/src/libfm/libfm.cpp:182-208 | the new meta object holds the joined group count, the joined table, its histogram and the number of relations |
| Targets.ParseTask | libfm-1.40.src/src/libfm/libfm.cpp:257-287 | `r` is regression, `c` classification, any other task is `unknown task` |
| Targets.ClassLabel | libfm-1.40.src/src/libfm/libfm.cpp:263-267 | a label is -1 or +1, and -1 exactly for targets at or below zero |
| Targets.Remapped | libfm-1.40.src/src/libfm/libfm.cpp:262-268 | every remapped target is -1 or +1, and -1 exactly where the target was at or below zero |
| Targets.RemapIdempotent | libfm-1.40.src/src/libfm/libfm.cpp:262-284 | remapping twice equals remapping once |
| Targets.RemapFixpoints | libfm-1.40.src/src/libfm/libfm.cpp:262-284 | the remap leaves a target vector unchanged iff all its values are already -1 or +1 |
| Targets.TargetsFor | libfm-1.40.src/src/libfm/libfm.cpp:257-287 | regression targets are unchanged; classification targets are replaced by their labels |
| Targets.RemapTargets | libfm-1.40.src/src/libfm/libfm.cpp:262-268 | the in-place loop leaves the array equal to the remap of its old contents |
| Targets.ApplyTask | libfm-1.40.src/src/libfm/libfm.cpp:257-287 | the result is the parsed task; on success train, test and (if present) validation arrays hold their targets for that task; an unknown task changes nothing |
| Regularization.McmcRegularization | libfm-1.40.src/src/libfm/libfm.cpp:307-347 | accepted iff the count is 0, 1, 3 or 1 + 2G; otherwise the count is reported; G linear lambdas and G x K factor lambdas; the bias regularization is the first value |
| Regularization.McmcPerGroup | libfm-1.40.src/src/libfm/libfm.cpp:331-346 | with 1 + 2G values and G >= 2: reg0 = value 0, regw = regv = 0, w_lambda(g) = value 1 + g, v_lambda(g, f) = value 1 + G + g |
| Regularization.McmcScalarsBroadcast | libfm-1.40.src/src/libfm/libfm.cpp:313-330 | with 0, 1 or 3 values every w_lambda is regw and every v_lambda is regv |
| Regularization.McmcBranchOrder | libfm-1.40.src/src/libfm/libfm.cpp:311-331 | with one group three values are the three scalars; with no group one value is broadcast |
| Regularization.FlatRegularization | libfm-1.40.src/src/libfm/libfm.cpp:348-370 | SGD accepts only 0, 1 or 3 values: all zero, one value broadcast, or three separate scalars |
| Regularization.FlatAgreesWithMcmc | libfm-1.40.src/src/libfm/libfm.cpp:309-368 | on 0, 1 or 3 values both branches set the same scalars; a per-group vector of two or more groups is accepted by MCMC and refused by SGD |
| Regularization.RegularizationFor | libfm-1.40.src/src/libfm/libfm.cpp:305-370 | MCMC gets per-group regularization under its count rule with the values of `McmcRegularization`; the other learners get scalars under theirs with the values of `FlatRegularization`; a refusal names the count |
| Regularization.Uniform | libfm-1.40.src/src/libfm/libfm.cpp:313-330 | the broadcast setting: G linear lambdas all equal to regw, G x K factor lambdas all equal to regv |
| Regularization.LearnRateSetting | libfm-1.40.src/src/libfm/libfm.cpp:377-388 | accepted iff 1 or 3 values; one value sets the rate and all three layer rates, three values set the layers and a zero global rate |
| Regularization.LearnRateFor | libfm-1.40.src/src/libfm/libfm.cpp:374-389 | MCMC ignores the learning-rate option; the SGD learners apply the count rule and get the values of `LearnRateSetting`; a refusal names the count |
| Regularization.SetMcmcRegularization | libfm-1.40.src/src/libfm/libfm.cpp:307-347 | the in-place step agrees with the MCMC specification on acceptance, scalars, w_lambda and v_lambda, and writes nothing on refusal |
| Regularization.SetPerGroupLambdas | libfm-1.40.src/src/libfm/libfm.cpp:331-346 | the moving-index loops leave w_lambda = values 1..G and v_lambda(g, f) = value 1 + G + g |
| Regularization.SetLearnRates | libfm-1.40.src/src/libfm/libfm.cpp:377-388 | the in-place step agrees with the learning-rate specification and writes nothing on refusal |
| Regularization.Fill | libfm-1.40.src/src/libfm/libfm.cpp:381-382 | the vector broadcast `init` leaves every entry equal to the value |
| Regularization.FillMatrix | libfm-1.40.src/src/libfm/libfm.cpp:317-330 | the matrix broadcast `init` leaves every entry of `v_lambda` equal to the value |
| Configure.LoadedValidation | libfm-1.40.src/src/libfm/libfm.cpp:125-139 | validation data is present iff a file is given and the method is sgda, and then it is the given file's data |
| Configure.Configure | libfm-1.40.src/src/libfm/libfm.cpp:86-388 | an accepted setup records the defaulted method, a learner of that name, the layout of that method and one offset per relation; the `dim` list is that of the defaulted `dim` option |
| Configure.ConfigureRefusal | libfm-1.40.src/src/libfm/libfm.cpp:216-388 | a configuration is refused iff one of dim, method, task, regularization count or (for SGD) learning-rate count fails |
| Configure.ConfigureErrorOrder | libfm-1.40.src/src/libfm/libfm.cpp:216-388 | errors come in the driver's order: dim, then method, then a missing or unknown task, then the regularization count, then (for SGD learners) the learning-rate count |
| Configure.DefaultDims | libfm-1.40.src/src/libfm/libfm.cpp:88 | without a `dim` option the dimension check never refuses, and an accepted setup has a bias, one-way interactions and 8 factors |
| Configure.ConfigureTable | libfm-1.40.src/src/libfm/libfm.cpp:168-208 | accepted: the joined group table has one entry per attribute, every group id is below the joined group count, the histogram has one entry per group and sums to the attribute count, and every block's range lies between the main table and the end |
| Configure.MainAttributeBase | libfm-1.40.src/src/libfm/libfm.cpp:168-171 | the base of the flat attribute space of an accepted run is at least the train and test feature counts and, for SGDA only, the validation count, and it equals one of the counts it covers |
| Configure.ConfigureDispatch | libfm-1.40.src/src/libfm/libfm.cpp:107-388 | accepted: row-wise data iff the learner is not MCMC, transposed data iff it is; validation targets iff SGDA; per-group regularization iff MCMC; learning rates iff not MCMC |
| Configure.ClassificationTargets | libfm-1.40.src/src/libfm/libfm.cpp:257-287 | for classification the train, test and (when loaded) validation targets the learner sees are the loaded ones with -1 where a target was at or below zero and +1 elsewhere |
| Configure.RegressionTargets | libfm-1.40.src/src/libfm/libfm.cpp:257-287 | for regression the train, test and (when loaded) validation targets the learner sees are the loaded ones unchanged |
| Configure.McmcRunRegularization | libfm-1.40.src/src/libfm/libfm.cpp:309-347 | an accepted MCMC run with 1 + 2G values (G ≥ 2 joined groups) gets `reg0` = value 0, zero scalars, `w_lambda(g)` = value 1 + g, `v_lambda(g,f)` = value 1 + G + g, and no learning rate |
| Configure.SgdRunSettings | libfm-1.40.src/src/libfm/libfm.cpp:354-388 | an accepted SGD run with three regularization values and one learning rate gets exactly those three scalars and that rate for the global rate and all three layers |
| Configure.NoRegularOption | libfm-1.40.src/src/libfm/libfm.cpp:309-358 | an accepted run without a `regular` option has zero scalars and, for MCMC, zero per-group lambdas |
| Configure.NoLearnRateOption | libfm-1.40.src/src/libfm/libfm.cpp:377-388 | without a `learn_rate` option only MCMC is accepted; an SGD or SGDA run that passes the earlier checks is refused with zero learning rates |
| Configure.AlsConfiguration | libfm-1.40.src/src/libfm/libfm.cpp:86-249 | `als` without flags configures deterministic MCMC on transposed data only |

## Left out

- Command-line parsing and parameter registration (the `CMDLine` library) is not part of this model. Options are a name-to-value map. The numeric lists of `dim`, `regular` and `learn_rate` are inputs, as the library would parse them.
- Options.CmdLine.HasParameter and Options.CmdLine.GetValue: these are the map interface of the command-line library (`hasParameter`, `getValue`). They are plain lookups in the option store and carry no contract of their own.
- Options.FlagOption: the boolean reading of `do_sampling`/`do_multilevel` lives in the command-line library, which this model does not cover. The model treats a missing flag as true, `0` as false and any other value as true.
- Configure.Configure: a missing `task` option is reported as a missing parameter. How the command-line library fails on an absent mandatory option is not part of this model.
- Configure.Configure: the numeric list a given `dim`, `regular` or `learn_rate` value yields is an input (`RunInput.dim`, `RunInput.regular`, `RunInput.learnRate`), because splitting the option string is the command-line library's job. Only absent options are tied to their lists: without `dim` the list is its default `[1, 1, 8]`; without `regular` or `learn_rate` the list is empty, since the driver sets no default for either.
- Configure.WellFormedInput: the driver never checks what the loaders are assumed to guarantee. Each block has one group per feature (JoinedMeta.WellFormedBlocks). Every group id is below its table's group count (JoinedMeta.WellFormedBlocks, JoinedMeta.WellFormedMain). The main group table has one entry per main attribute. If one of these fails, the driver writes outside `attr_group` or `num_attr_per_group`, or counts an attribute in another block's group. The model assumes them and does not model such runs.
- Loading of data, relation, relation-index and meta files is not modelled: it is file I/O. Feature counts, target vectors, group tables and block group counts are inputs. The defaults the meta-data constructor sets when no meta file is given are not part of this model.
- JoinedMeta.AssignOffsets: `attr_offset` is a field of each relation object in the driver, written in the loop. The model returns the offsets as a sequence indexed by relation, so aliasing between relation objects is not modelled.
- The counters `num_all_attribute`, `attr_cntr` and `attr_group_cntr` are 32-bit unsigned in the driver. Wrap-around is not modelled; the counts are unbounded naturals.
- Regularization.SetMcmcRegularization: the sizes of `w_lambda` (G) and `v_lambda` (G x num_factor) are set by the MCMC learner's initialisation, which is not part of this model; they are preconditions. A negative factor count gives zero factor columns (Configure.FactorLoopCount), as the factor loop then runs zero times.
- Regularization.SetLearnRates: the three-entry learning-rate vector is allocated by the SGD learner's initialisation, which is not part of this model; its length is a precondition.
- The scalars `reg0`, `regw`, `regv`, `learn_rate`, `k0`, `k1`, `num_factor` and `num_attribute` are fields of the model and learner objects in the driver. Here they are returned as values; those objects are not modelled.
- A failed `assert` aborts the process, while a thrown error is caught and printed. Both are one refusal here. A build with assertions compiled out (NDEBUG) is not modelled.
- `num_iter`, `num_eval_cases`, `init_stdev`, `cache_size` and `verbosity` are numeric lookups with defaults in the command-line library. They only configure, and are not modelled.
- Random seeding, the Gaussian initialisation of the model (`fm.init`, `w.init_normal`), the learners (`learn`, `evaluate`, `predict`), the rlog file, the prediction output, the debug dumps and all console printing are not modelled. They are I/O, randomness or floating-point numerics in headers that are not part of this model.
- Doubles are modelled as `real`. The driver only compares them with zero or copies them.
