# A verified model of the SHE_Pipeline run drivers

SHE_Pipeline runs the Euclid shear-measurement pipelines. Its parallel
drivers split a bias-measurement run into batches of workers. For each
worker they:

- make its directories;
- write it an ISF (input specification file) and a pipeline configuration
  assembled from command-line pairs and templates;
- symlink its input products and their data files into its workdir.

At the end of each batch they append the measurement files the workers
wrote to a listfile.

Around the drivers sit smaller utilities:

- the single-run ISF writer;
- the registry of pipeline file names;
- the stderr handling of the external-process runner;
- a recursive remover;
- a script that fetches data products from the Euclid archive.

This project models that core in Dafny and proves what the code promises
about it.

- **Python exceptions** become values of a `Result`/`Option` datatype
  (`Wrappers`). Each operation's result says which exception it raises
  and where. What an operation changed on disk before it raised is not
  kept (see Left out).
- **The file system** is a set of paths that exist, plus the list of
  `symlink`/`remove` calls made. Where `mkdir` can fail, it also has the
  set of paths that cannot be created.
- **Library calls** become parameters: finite maps for `find_file`,
  `find_aux_file`, `read_xml_product` and `read_listfile`, and functions
  for the files a measurement product names (`None` when the product
  cannot be read) and for astropy's `Table.read` of a plan file (a table,
  or the exception of its ASCII read).
- **Python's insertion-ordered `dict`** is a sequence of pairs with
  unique keys (`OrderedDict`). Reassigning a key keeps its position, and
  the written ISF order depends on that.
- **Loops become `method`s** with loop invariants, where the source loops
  or mutates. Each is proved equal to a specification function, and the
  properties are proved as lemmas about that function. `Folds.Fold` is
  the shared shape of a loop whose body may raise.
- **`PipelineInfo` is a class.** Its lazily cached `qualified_*`
  properties are methods that update its fields.

The modules follow the source files:

- `batch_planner.dfy`: batches and the thread clamp.
- `check_args.dfy`: the argument checks of both bias drivers.
- `isf_args.dfy`: the key/value map and its serialisation.
- `input_ports.dfy`: port filtering, rewriting and linking.
- `run_pipeline_parallel.dfy`: the detector-parallel runner's helpers.
- `simulation_plan.dfy`: that runner's `create_plan` as a whole, with its
  plan table.
- `thread_dirs.dfy`: `create_thread_dir_struct`.
- `merge_outputs.dfy`: the two listfile merges.
- `external_process.dfy`, `pipeline_info.dfy`, `run_pipeline.dfy`,
  `rm_r.dfy` and `data_product_retrieval.dfy`: one source file each.
- `strings.dfy`, `paths.dfy`, `seqs.dfy`, `folds.dfy`, `ordered_dict.dfy`
  and `wrappers.dfy`: shared models of the Python built-ins used.

Where the code has a bug, the model holds both the code as written and
a corrected definition (see Findings). Each row below says which of the
two a member follows whenever they differ.

Three behaviours of the code are easy to misread:

- `number_threads` defaults to the integer `0` but is otherwise a
  string. An integer other than `0` therefore raises AttributeError on
  `.isdigit()`, not ValueError (`BatchPlanner.ClampThreads`).
- The calibration merge raises NameError when a data file is missing
  (see Findings).
- The bias runner's `create_simulate_measure_inputs` collects its
  returned inputs before the port loop. It therefore returns the names
  as they were before any rewrite.

## Model

| member | source | states |
|---|---|---|
| BatchPlanner.CeilDiv | SHE_Pipeline/python/SHE_Pipeline/run_bias_calibration_pipeline_parallel.py:572 | `math.ceil(n / w)` is the least `k` with `w * k >= n` |
| BatchPlanner.CreateBatches | SHE_Pipeline/python/SHE_Pipeline/run_bias_calibration_pipeline_parallel.py:553-585 | the batch-list loop returns exactly the specified batches, or ZeroDivisionError exactly when the width is 0 |
| BatchPlanner.BatchCount | SHE_Pipeline/python/SHE_Pipeline/run_bias_calibration_pipeline_parallel.py:572-583 | there are `ceil(n / w)` batches, at least one when `n > 0`, none when `n == 0` |
| BatchPlanner.BatchShape | SHE_Pipeline/python/SHE_Pipeline/run_bias_calibration_pipeline_parallel.py:573-583 | batch `b` is numbered `b` and spans `[w*b, min(w*(b+1), n))`; `nThreads = max - min` lies in `[1, w]`; every batch but the last is full; the last ends at `n` |
| BatchPlanner.BatchesContiguous | SHE_Pipeline/python/SHE_Pipeline/run_bias_calibration_pipeline_parallel.py:573-583 | the first batch starts at 0, the last ends at `n`, consecutive batches meet exactly |
| BatchPlanner.BatchesPartition | SHE_Pipeline/python/SHE_Pipeline/run_bias_pipeline_parallel.py:366-380 | every simulation below `n` lies in exactly one batch, the one numbered `s / w`, and no batch reaches past `n` |
| BatchPlanner.OwnBatch | SHE_Pipeline/python/SHE_Pipeline/run_bias_calibration_pipeline_parallel.py:573-583 | simulation `s < n` lies in batch `s / w`, which exists |
| BatchPlanner.OnlyBatch | SHE_Pipeline/python/SHE_Pipeline/run_bias_calibration_pipeline_parallel.py:573-583 | a simulation in batch `b` is below `n` and `b == s / w`, so no other batch holds it |
| BatchPlanner.SimNoInBatch | SHE_Pipeline/python/SHE_Pipeline/run_bias_calibration_pipeline_parallel.py:588-594 | `get_sim_no(t, batch)` of a worker `t < nThreads` lies in its batch's range and below `n` |
| BatchPlanner.SimNoInjective | SHE_Pipeline/python/SHE_Pipeline/run_bias_pipeline_parallel.py:386-393 | distinct (batch, worker) pairs run distinct simulations |
| BatchPlanner.SimNoCovers | SHE_Pipeline/python/SHE_Pipeline/run_bias_calibration_pipeline_parallel.py:588-594 | every simulation `s < n` is run by worker `s % w` of batch `s / w` |
| BatchPlanner.WorkerIndexIsSimNo | SHE_Pipeline/python/SHE_Pipeline/run_bias_calibration_pipeline_parallel.py:972-975 | the workdir index `thread_no + number_threads * batch_no` equals the worker's simulation number, so it is below `n` |
| BatchPlanner.ClampThreads | SHE_Pipeline/python/SHE_Pipeline/run_bias_calibration_pipeline_parallel.py:465-471 | the settled count lies in `[1, cpu]`; integer 0 gives `max(1, cpu-1)`; another integer raises AttributeError; a string fails exactly when it is not all digits, otherwise gives `max(1, min(int, cpu))` |
| BatchPlanner.ClampThreadsIdempotent | SHE_Pipeline/python/SHE_Pipeline/run_bias_pipeline_parallel.py:326-335 | feeding the settled count back in as a string settles on the same count |
| CheckArgs.AuxDefault | SHE_Pipeline/python/SHE_Pipeline/run_bias_calibration_pipeline_parallel.py:405-421 | a given path is kept; a missing one is the default found by `find_aux_file`, which fails exactly when it has none |
| CheckArgs.PairedArgs | SHE_Pipeline/python/SHE_Pipeline/run_bias_pipeline_parallel.py:293-303 | a missing list is `[]`; a list passes unchanged exactly when its length is even; otherwise ValueError naming the option |
| CheckArgs.FirstUnknownKeyNone | SHE_Pipeline/python/SHE_Pipeline/run_bias_calibration_pipeline_parallel.py:435-442 | no unknown configuration key is found exactly when every pair's key is allowed; a reported key is not allowed |
| CheckArgs.CheckConfigKeys | SHE_Pipeline/python/SHE_Pipeline/run_bias_calibration_pipeline_parallel.py:435-442 | the loop over the configuration pairs returns the specified check's result |
| CheckArgs.RecognisedConfigArgs | SHE_Pipeline/python/SHE_Pipeline/run_bias_calibration_pipeline_parallel.py:435-442 | on success the pairs are returned unchanged |
| CheckArgs.EstShearOnly | SHE_Pipeline/python/SHE_Pipeline/run_bias_calibration_pipeline_parallel.py:473-476 | corrected check: a given value must be 0 or 1 and means "only shear estimation" exactly when it is 1; no value means false |
| CheckArgs.EstShearOnlyAsWrittenOkIff | SHE_Pipeline/python/SHE_Pipeline/run_bias_calibration_pipeline_parallel.py:473-476 | as written, a non-empty value passes exactly when it is all digits or reads as 0 or 1, and sets the flag exactly when it reads as 1 |
| CheckArgs.EstShearOnlyAcceptsTwo | SHE_Pipeline/python/SHE_Pipeline/run_bias_calibration_pipeline_parallel.py:473-476 | as written `2` passes and means false; the corrected check rejects it |
| CheckArgs.CalibCheckedArgs | SHE_Pipeline/python/SHE_Pipeline/run_bias_calibration_pipeline_parallel.py:381-540 | after the calibration `check_args`: lists paired and defaulted, defaults for workdir/logdir, every configuration key allowed, worker count in `[1, cpu]`, the shear-only flag as the as-written check gives it, workdir, `cache`, `data` and log directories exist |
| CheckArgs.UnknownConfigKeyRejected | SHE_Pipeline/python/SHE_Pipeline/run_bias_calibration_pipeline_parallel.py:436-442 | a configuration pair with a key not allowed stops the check with a ValueError naming a key not allowed |
| CheckArgs.BiasCheckedArgs | SHE_Pipeline/python/SHE_Pipeline/run_bias_pipeline_parallel.py:251-345 | after the bias `check_args`: arguments settled, between 1 and `cpu` directory entries, entry `i` is `<workdir>/thread<i>` with no application directories |
| CheckArgs.OverrideKnownOkIff | SHE_Pipeline/python/SHE_Pipeline/run_bias_calibration_pipeline_parallel.py:937-942 | the isf_args overrides succeed exactly when every pair's key is a key of the base ISF |
| CheckArgs.OverrideKnownKeys | SHE_Pipeline/python/SHE_Pipeline/run_bias_calibration_pipeline_parallel.py:937-942 | the overrides add no key, and a failure names a key the base ISF does not set |
| CheckArgs.CheckIsfArgs | SHE_Pipeline/python/SHE_Pipeline/run_bias_calibration_pipeline_parallel.py:925-948 | a base ISF that `find_file` does not find raises RuntimeError first; otherwise the base-ISF read, the override loop and the template check return the specified settings |
| CheckArgs.IsfArgsMustBeKnown | SHE_Pipeline/python/SHE_Pipeline/run_bias_calibration_pipeline_parallel.py:937-946 | with the base ISF found, a pair whose key no base-ISF line sets is rejected with ValueError; an accepted map has exactly the base ISF's keys |
| IsfArgs.Seed | SHE_Pipeline/python/SHE_Pipeline/run_bias_calibration_pipeline_parallel.py:628-634 | the seeded map has exactly the five control keys in order, with workdir, logdir, the package directory, its `SHE_Pipeline_pkgdef` subdirectory and the config name |
| IsfArgs.ApplyIsfArgs | SHE_Pipeline/python/SHE_Pipeline/run_bias_calibration_pipeline_parallel.py:636-640 | the while loop over the pairs, mutating the map, returns the specified map |
| IsfArgs.ApplyPairsOkIff | SHE_Pipeline/python/SHE_Pipeline/run_bias_pipeline_parallel.py:432-436 | applying the pairs succeeds exactly when the list has even length |
| IsfArgs.ApplyPairsError | SHE_Pipeline/python/SHE_Pipeline/run_bias_pipeline_parallel.py:432-436 | the only failure is IndexError, a key without a value |
| IsfArgs.ApplyPairsLookup | SHE_Pipeline/python/SHE_Pipeline/run_bias_calibration_pipeline_parallel.py:636-640 | the last pair naming a key wins; a key no pair names keeps its value |
| IsfArgs.ApplyPairsKeys | SHE_Pipeline/python/SHE_Pipeline/run_bias_calibration_pipeline_parallel.py:636-640 | keys already present keep their place and keys stay unique |
| IsfArgs.PairOverridesControlKey | SHE_Pipeline/python/SHE_Pipeline/run_bias_pipeline_parallel.py:424-436 | a `workdir` pair overrides the seeded control key, which keeps its first position |
| IsfArgs.ReadTemplate | SHE_Pipeline/python/SHE_Pipeline/run_bias_calibration_pipeline_parallel.py:642-649 | the `for line in fi` loop returns the specified filled map |
| IsfArgs.FillLookup | SHE_Pipeline/python/SHE_Pipeline/run_bias_calibration_pipeline_parallel.py:645-649 | template lines never override a set key; an unset key takes the value of the first line naming it with a `=` |
| IsfArgs.FillKeys | SHE_Pipeline/python/SHE_Pipeline/run_bias_pipeline_parallel.py:439-446 | template filling keeps key order and uniqueness |
| IsfArgs.ThreePartSplit | SHE_Pipeline/python/SHE_Pipeline/run_bias_calibration_pipeline_parallel.py:646 | `k=a=rest` split on `=` begins with `k` and `a` |
| IsfArgs.SecondPartIsValue | SHE_Pipeline/python/SHE_Pipeline/run_bias_calibration_pipeline_parallel.py:646-649 | a line `k=a=b` names key `k` with value `a` |
| IsfArgs.IsfLines | SHE_Pipeline/python/SHE_Pipeline/run_bias_calibration_pipeline_parallel.py:769-772 | one written line per map entry |
| IsfArgs.WriteIsf | SHE_Pipeline/python/SHE_Pipeline/run_bias_pipeline_parallel.py:560-563 | line `i` written is `key_i=value_i\n`, in first-insertion order |
| IsfArgs.LineRoundTrip | SHE_Pipeline/python/SHE_Pipeline/run_bias_calibration_pipeline_parallel.py:642-649 | a written line with clean key and value reads back as that key and value |
| IsfArgs.IsfRoundTrip | SHE_Pipeline/python/SHE_Pipeline/run_bias_calibration_pipeline_parallel.py:642-649 | reading a written map (clean keys and values) back through the template loop into an empty map gives the map again |
| IsfArgs.SetSnoc | SHE_Pipeline/python/SHE_Pipeline/run_bias_calibration_pipeline_parallel.py:649 | setting an absent key appends its entry at the end |
| IsfArgs.CreateConfigAsWritten | SHE_Pipeline/python/SHE_Pipeline/run_pipeline_parallel.py:326-364 | `create_config` as written, in source order: RuntimeError when `find_file` finds no base config, OSError when the missing config directory cannot be made, IndexError on odd pairs; it succeeds exactly when none of these happens, makes that directory, writes the batch-tagged path, and returns the untagged name |
| IsfArgs.BatchConfigNameOfStem | SHE_Pipeline/python/SHE_Pipeline/run_pipeline_parallel.py:335-336 | for a name `<stem>.txt` with no other dot, replacing `.txt` by `_batch<b>.txt` gives `<stem>_batch<b>.txt` |
| IsfArgs.ConfigNameMismatch | SHE_Pipeline/python/SHE_Pipeline/run_pipeline_parallel.py:334-364 | as written, a successful call writes `<stem>_batch<b>.txt` but returns `<stem>.txt`, a different name |
| IsfArgs.CreateConfig | SHE_Pipeline/python/SHE_Pipeline/run_pipeline_parallel.py:326-364 | corrected: the same three failures in the same order, the same directory made; on success the written path is the workdir joined with the returned batch-tagged name |
| IsfArgs.ConfigPrecedence | SHE_Pipeline/python/SHE_Pipeline/run_pipeline_parallel.py:341-356 | in a written configuration, pairs win over the template; a template key (stripped) is taken only from its first line with a `=`, its value stripped |
| InputPorts.ReplayAppend | SHE_Pipeline/python/SHE_Pipeline/run_bias_pipeline_parallel.py:494-508 | replaying a longer list of `symlink`/`remove` calls replays its prefix first |
| InputPorts.Relink | SHE_Pipeline/python/SHE_Pipeline/run_bias_calibration_pipeline_parallel.py:681-696 | the port symlink does nothing when the file found is the link itself; otherwise afterwards the link exists and points to the file found, nothing else changed |
| InputPorts.CalibLink | SHE_Pipeline/python/SHE_Pipeline/run_bias_calibration_pipeline_parallel.py:754-762 | the calibration data-file link does nothing when source and link agree up to `abspath`; otherwise the link points to the file found |
| InputPorts.SelfTargetRemoved | SHE_Pipeline/python/SHE_Pipeline/run_bias_pipeline_parallel.py:543-552 | a data file found at its own link path is removed by the bias runner and not relinked; the calibration runner leaves it |
| InputPorts.BiasLinkPoints | SHE_Pipeline/python/SHE_Pipeline/run_bias_pipeline_parallel.py:543-552 | otherwise the bias runner's link exists and points to the file found |
| InputPorts.PortNameInData | SHE_Pipeline/python/SHE_Pipeline/run_bias_calibration_pipeline_parallel.py:682 | a port is rewritten to `data/<basename>`, keeping the file name |
| InputPorts.OtherSimulationSkipped | SHE_Pipeline/python/SHE_Pipeline/run_bias_calibration_pipeline_parallel.py:669-673 | a value with `TEST-` but not `TEST-<simulation_no>` is not a port for the calibration and bias runners |
| InputPorts.CollectSubProductFiles | SHE_Pipeline/python/SHE_Pipeline/run_bias_calibration_pipeline_parallel.py:715-725 | the loop over a listfile's sub-products gathers the specified data files |
| InputPorts.LocateData | SHE_Pipeline/python/SHE_Pipeline/run_bias_calibration_pipeline_parallel.py:744-752 | a data file found is used; otherwise the lookup is retried without the first `data/`, and RuntimeError when both miss |
| InputPorts.LinkDataFiles | SHE_Pipeline/python/SHE_Pipeline/run_bias_calibration_pipeline_parallel.py:739-764 | the data-file loop returns the specified links |
| InputPorts.NoneDataFileSkipped | SHE_Pipeline/python/SHE_Pipeline/run_bias_calibration_pipeline_parallel.py:741-742 | data files `None` and `data/None` are skipped without a lookup |
| InputPorts.MissingDataFileFails | SHE_Pipeline/python/SHE_Pipeline/run_bias_pipeline_parallel.py:534-540 | a data file the lookup misses fails the whole loop |
| InputPorts.PortFiles | SHE_Pipeline/python/SHE_Pipeline/run_bias_calibration_pipeline_parallel.py:675-762 | a port not found raises RuntimeError naming it |
| InputPorts.PortStep | SHE_Pipeline/python/SHE_Pipeline/run_bias_calibration_pipeline_parallel.py:658-699 | one loop turn: a non-port leaves the map and files alone; a port is rewritten to its ported value, keys unchanged, every other key unchanged; a port not found raises RuntimeError |
| InputPorts.RewritePort | SHE_Pipeline/python/SHE_Pipeline/run_bias_pipeline_parallel.py:468-552 | the loop body returns the specified step |
| InputPorts.LinkPortFiles | SHE_Pipeline/python/SHE_Pipeline/run_bias_pipeline_parallel.py:488-552 | the file work of one port returns the specified result |
| InputPorts.ReadDataFiles | SHE_Pipeline/python/SHE_Pipeline/run_bias_calibration_pipeline_parallel.py:707-728 | the data files of the product: XML product, listfile of products, or none |
| InputPorts.Ports | SHE_Pipeline/python/SHE_Pipeline/run_bias_calibration_pipeline_parallel.py:658-766 | the port loop keeps the map's keys |
| InputPorts.RewritePorts | SHE_Pipeline/python/SHE_Pipeline/run_pipeline_parallel.py:445-526 | the port loop over the keys taken at its start returns the specified result |
| InputPorts.PortsLeaveOthers | SHE_Pipeline/python/SHE_Pipeline/run_bias_pipeline_parallel.py:468-552 | a key the loop has not reached keeps its value |
| InputPorts.PortsValues | SHE_Pipeline/python/SHE_Pipeline/run_bias_pipeline_parallel.py:468-552 | every visited key ends holding the ported form of its value before the loop |
| InputPorts.PortedEntries | SHE_Pipeline/python/SHE_Pipeline/run_bias_calibration_pipeline_parallel.py:658-699 | after the whole loop the keys are unchanged and each entry holds its ported value (`data/<basename>` for ports, unchanged otherwise) |
| InputPorts.MdbHasNoDataLinks | SHE_Pipeline/python/SHE_Pipeline/run_bias_calibration_pipeline_parallel.py:703-705 | the calibration runner links the `mdb` port itself but none of its data files |
| InputPorts.NonXmlHasNoDataLinks | SHE_Pipeline/python/SHE_Pipeline/run_bias_pipeline_parallel.py:516-518 | a port whose file found does not end in `.xml` gets no data links in the bias and detector-parallel runners |
| InputPorts.UninitialisedProductFails | SHE_Pipeline/python/SHE_Pipeline/run_bias_pipeline_parallel.py:520-523 | an XML product without `get_all_filenames` raises NotImplementedError (bias, detector-parallel) or AttributeError (calibration) |
| InputPorts.LookupAll | SHE_Pipeline/python/SHE_Pipeline/run_bias_calibration_pipeline_parallel.py:784-792 | the input tuple holds `args_to_set[k]` for each key in order; KeyError names a missing key |
| InputPorts.MapBeforePorts | SHE_Pipeline/python/SHE_Pipeline/run_bias_calibration_pipeline_parallel.py:616-653 | the map before the port loop is well formed; its `simulation_config` is entry `simulation_no` of the listfile; a base ISF not found raises RuntimeError; odd pairs raise IndexError |
| InputPorts.SimulateMeasureInputs | SHE_Pipeline/python/SHE_Pipeline/run_bias_calibration_pipeline_parallel.py:597-794 | the ISF goes to the thread's workdir; the inputs tuple has 7 (bias) or 8 (calibration) entries |
| InputPorts.PortAndCollect | SHE_Pipeline/python/SHE_Pipeline/run_bias_pipeline_parallel.py:458-572 | the second half writes the ISF at the given path and returns 7 or 8 inputs |
| InputPorts.BiasInputsUnported | SHE_Pipeline/python/SHE_Pipeline/run_bias_pipeline_parallel.py:458-465 | the bias runner returns each input as it stood before the port loop |
| InputPorts.BiasLooksUpFirst | SHE_Pipeline/python/SHE_Pipeline/run_bias_pipeline_parallel.py:458-465 | bias input `i` is the value of its key in the map handed to the port loop |
| InputPorts.CalibInputsPorted | SHE_Pipeline/python/SHE_Pipeline/run_bias_calibration_pipeline_parallel.py:784-792 | the calibration runner returns each input as the port loop left it |
| InputPorts.CalibLooksUpAfter | SHE_Pipeline/python/SHE_Pipeline/run_bias_calibration_pipeline_parallel.py:784-792 | calibration input `i` is the value of its key in the map after the port loop |
| InputPorts.BuildMapBeforePorts | SHE_Pipeline/python/SHE_Pipeline/run_bias_pipeline_parallel.py:416-452 | the map-building statements return the specified map |
| InputPorts.CreateSimulateMeasureInputs | SHE_Pipeline/python/SHE_Pipeline/run_bias_pipeline_parallel.py:395-572 | the whole operation returns the specified result |
| InputPorts.RunPortsAndCollect | SHE_Pipeline/python/SHE_Pipeline/run_bias_calibration_pipeline_parallel.py:658-792 | the port loop, ISF write and lookups return the specified result |
| InputPorts.BatchIsf | SHE_Pipeline/python/SHE_Pipeline/run_pipeline_parallel.py:382-534 | the detector-parallel ISF goes to the workdir under the batch-tagged name |
| InputPorts.BatchMap | SHE_Pipeline/python/SHE_Pipeline/run_pipeline_parallel.py:392-429 | the map is well formed; a base ISF not found raises RuntimeError; odd pairs raise IndexError |
| InputPorts.BuildBatchMap | SHE_Pipeline/python/SHE_Pipeline/run_pipeline_parallel.py:398-429 | the map-building loop, batch-renaming path values, returns the specified map |
| InputPorts.BatchSearchPathFollowsPairs | SHE_Pipeline/python/SHE_Pipeline/run_pipeline_parallel.py:441-442 | the port search path starts with the map's `workdir`, which a pair can redirect |
| InputPorts.CreateIsf | SHE_Pipeline/python/SHE_Pipeline/run_pipeline_parallel.py:382-534 | `create_isf` returns the specified result |
| RunPipelineParallel.IsFilename | SHE_Pipeline/python/SHE_Pipeline/run_pipeline_parallel.py:366-370 | truthy exactly when the value contains `/` |
| RunPipelineParallel.ConvertToBatchFilename | SHE_Pipeline/python/SHE_Pipeline/run_pipeline_parallel.py:375-376 | a name already holding `_batch<b>` is returned unchanged |
| RunPipelineParallel.ConvertIdempotent | SHE_Pipeline/python/SHE_Pipeline/run_pipeline_parallel.py:372-380 | the result always holds the tag, so converting twice equals converting once |
| RunPipelineParallel.ConvertSplitsAtLastDot | SHE_Pipeline/python/SHE_Pipeline/run_pipeline_parallel.py:377-380 | `root.ext` with `ext` free of dots becomes `root_batch<b>.ext` |
| RunPipelineParallel.ConvertWithoutDot | SHE_Pipeline/python/SHE_Pipeline/run_pipeline_parallel.py:377-380 | a name without a dot becomes `_batch<b>.` followed by the name |
| RunPipelineParallel.ConvertTagIsTextual | SHE_Pipeline/python/SHE_Pipeline/run_pipeline_parallel.py:375 | a name tagged for batch 12 already counts as tagged for batch 1 |
| RunPipelineParallel.ScanAsWritten | SHE_Pipeline/python/SHE_Pipeline/run_pipeline_parallel.py:219-228 | as written: without any element `simulation_plan` nothing changes; IndexError exactly when the first such element is last |
| RunPipelineParallel.ScanIsfArgsForPlan | SHE_Pipeline/python/SHE_Pipeline/run_pipeline_parallel.py:220-228 | the in-place index loop returns the as-written scan |
| RunPipelineParallel.ScanMistakesValueForKey | SHE_Pipeline/python/SHE_Pipeline/run_pipeline_parallel.py:222-227 | a value `simulation_plan` is taken for the key and the next key is overwritten |
| RunPipelineParallel.ScanTrailingValueFails | SHE_Pipeline/python/SHE_Pipeline/run_pipeline_parallel.py:224 | a trailing value `simulation_plan` raises IndexError |
| RunPipelineParallel.ScanPairs | SHE_Pipeline/python/SHE_Pipeline/run_pipeline_parallel.py:219-228 | corrected scan: length and every key kept; no plan exactly when no key is `simulation_plan`; otherwise only that pair's value is replaced |
| RunPipelineParallel.ScanPairsExamples | SHE_Pipeline/python/SHE_Pipeline/run_pipeline_parallel.py:219-228 | on the same inputs the corrected scan finds the real plan and keys stay |
| RunPipelineParallel.TemplateScan | SHE_Pipeline/python/SHE_Pipeline/run_pipeline_parallel.py:236-245 | the base-ISF fallback fails only with IndexError (a plan line without `=`) |
| RunPipelineParallel.TemplateScanLastWins | SHE_Pipeline/python/SHE_Pipeline/run_pipeline_parallel.py:238-245 | the last plan line sets the plan name; with none, nothing changes |
| RunPipelineParallel.TemplateScanAppends | SHE_Pipeline/python/SHE_Pipeline/run_pipeline_parallel.py:244-245 | when a plan line is found, `isf_args` ends with a `simulation_plan` pair naming the new plan file |
| RunPipelineParallel.PlanNameRegistersNewPlan | SHE_Pipeline/python/SHE_Pipeline/run_pipeline_parallel.py:219-249 | with the corrected pair scan: once a plan name is settled, `isf_args` holds a `simulation_plan` pair with the new plan file |
| RunPipelineParallel.PlanNameFailsIff | SHE_Pipeline/python/SHE_Pipeline/run_pipeline_parallel.py:232-249 | with the corrected pair scan: IOError exactly when no pair key names a plan, the base ISF is found and none of its lines names one |
| RunPipelineParallel.PlanNameAsWritten | SHE_Pipeline/python/SHE_Pipeline/run_pipeline_parallel.py:219-249 | `create_plan` as written fails only with IndexError (element scan or a plan line without `=`), the RuntimeError of a base ISF `find_file` does not find, which is looked up only when the scan found no plan, or the IOError |
| RunPipelineParallel.PlanNameAsWrittenFailsIff | SHE_Pipeline/python/SHE_Pipeline/run_pipeline_parallel.py:219-249 | as written: IOError exactly when no element of `isf_args`, key or value, is `simulation_plan`, the base ISF is found and no line of it names a plan |
| RunPipelineParallel.PlanNameAsWrittenTrailing | SHE_Pipeline/python/SHE_Pipeline/run_pipeline_parallel.py:221-224 | as written: a lone `simulation_plan` as the last element raises IndexError |
| RunPipelineParallel.PlanNameAsWrittenRegisters | SHE_Pipeline/python/SHE_Pipeline/run_pipeline_parallel.py:219-245 | as written too: a settled plan name leaves `simulation_plan` followed by the new plan file in `isf_args` |
| RunPipelineParallel.PlanFiles | SHE_Pipeline/python/SHE_Pipeline/run_pipeline_parallel.py:296-310 | one plan file per detector |
| RunPipelineParallel.DetectorBatchesAsWritten | SHE_Pipeline/python/SHE_Pipeline/run_pipeline_parallel.py:291-313 | as written there are `ceil(n / W)` batches, numbered in order |
| RunPipelineParallel.DetectorBatches | SHE_Pipeline/python/SHE_Pipeline/run_pipeline_parallel.py:291-313 | corrected: one batch per planner batch, recording the number of detectors it holds |
| RunPipelineParallel.PlanFileOfSlot | SHE_Pipeline/python/SHE_Pipeline/run_pipeline_parallel.py:297-301 | detector `W*b + t` writes its plan file into workdir `t` with tag `_batch<b>` |
| RunPipelineParallel.BatchLoop | SHE_Pipeline/python/SHE_Pipeline/run_pipeline_parallel.py:293-316 | the loop over `ceil(n / W)` batches returns the as-written batch list and the plan files of all `n` detectors in order |
| RunPipelineParallel.PlanBatch | SHE_Pipeline/python/SHE_Pipeline/run_pipeline_parallel.py:295-313 | the inner loop writes the batch's plan files after those already written and records `W-1`, or `t` when slot `t` reaches `n` |
| RunPipelineParallel.CreatePlanBatches | SHE_Pipeline/python/SHE_Pipeline/run_pipeline_parallel.py:289-316 | for the table's detector count: every detector below it gets its plan file and the batch list is the as-written one (a count that is not positive gives no batches); with no workdirs `math.ceil` of the column's NaN or infinity raises ValueError or OverflowError |
| SimulationPlan.ReadPlanTable | SHE_Pipeline/python/SHE_Pipeline/run_pipeline_parallel.py:262-274 | a table read as FITS or else as ASCII is used; an ASCII failure caught as IOError raises TypeError, any other escapes |
| SimulationPlan.SetColumn | SHE_Pipeline/python/SHE_Pipeline/run_pipeline_parallel.py:281 | `table[key] = value`: a new key adds a text column, an integer column takes `int()` of the value or raises ValueError, other columns take the text; nothing else changes |
| SimulationPlan.OverrideColumns | SHE_Pipeline/python/SHE_Pipeline/run_pipeline_parallel.py:279-281 | the loop over `args_to_set` returns the specified overridden table |
| SimulationPlan.OverrideFailsIff | SHE_Pipeline/python/SHE_Pipeline/run_pipeline_parallel.py:279-281 | the overrides fail exactly when one gives an integer column a value `int()` rejects, and then with ValueError |
| SimulationPlan.OverrideColumnAfter | SHE_Pipeline/python/SHE_Pipeline/run_pipeline_parallel.py:279-281 | after the overrides a named column holds its override (cast if it held integers), an unnamed one is unchanged, and the row count stays |
| SimulationPlan.DetectorCount | SHE_Pipeline/python/SHE_Pipeline/run_pipeline_parallel.py:289-291 | `NUM_DETECTORS`: KeyError without the column, TypeError unless it is an integer column of one row, otherwise its value |
| SimulationPlan.CreatePlan | SHE_Pipeline/python/SHE_Pipeline/run_pipeline_parallel.py:199-316 | `create_plan` as written: the failure of any step before the batch loop, else the batch loop's result for the detector count, with the updated `isf_args` |
| SimulationPlan.PlanCountFailures | SHE_Pipeline/python/SHE_Pipeline/run_pipeline_parallel.py:251-274 | after the plan name, RuntimeError for a plan `find_file` does not find, IndexError for an odd `plan_args`, and TypeError or the ASCII read's own exception for a table neither read accepts |
| SimulationPlan.DetectorCountSource | SHE_Pipeline/python/SHE_Pipeline/run_pipeline_parallel.py:255-289 | the detector count is `int()` of the last `plan_args` pair naming `NUM_DETECTORS`, else the table's own; the table read had an integer `NUM_DETECTORS` column of one row |
| RunPipelineParallel.AsWrittenThreadCount | SHE_Pipeline/python/SHE_Pipeline/run_pipeline_parallel.py:295-313 | as written a full batch records `W-1` threads, a partial last batch its size |
| RunPipelineParallel.AsWrittenSkipsLastWorker | SHE_Pipeline/python/SHE_Pipeline/run_pipeline_parallel.py:590 | with 2 workdirs and 4 detectors, detector 1 gets a plan file but is never started; the corrected list starts it |
| RunPipelineParallel.IntendedRunsEveryDetector | SHE_Pipeline/python/SHE_Pipeline/run_pipeline_parallel.py:585-597 | with the corrected counts every detector `d` is started by worker `d % W` of batch `d / W` |
| RunPipelineParallel.IntendedRunsOnce | SHE_Pipeline/python/SHE_Pipeline/run_pipeline_parallel.py:585-597 | and by no other worker |
| ThreadDirStruct.MakeDir | SHE_Pipeline/python/SHE_Pipeline/pipeline_utilities.py:67-74 | create-if-absent succeeds exactly when the directory exists or can be made, then it exists; otherwise OSError |
| ThreadDirStruct.MakeDirsSpec | SHE_Pipeline/python/SHE_Pipeline/pipeline_utilities.py:65-99 | a list of create-if-absent steps succeeds exactly when none is absent and impossible, and adds exactly those directories |
| ThreadDirStruct.MakeDirsAppend | SHE_Pipeline/python/SHE_Pipeline/pipeline_utilities.py:65-151 | making two lists in turn is making their concatenation, and a failure in the first ends it |
| ThreadDirStruct.MakeDirsExisting | SHE_Pipeline/python/SHE_Pipeline/pipeline_utilities.py:65-151 | directories that all exist are left alone |
| ThreadDirStruct.MakeStruct | SHE_Pipeline/python/SHE_Pipeline/pipeline_utilities.py:152-155 | the four-field tuple is built exactly when there are one or two roots, otherwise TypeError |
| ThreadDirStruct.MakePerRoot | SHE_Pipeline/python/SHE_Pipeline/pipeline_utilities.py:65-99 | the loop over the roots makes the specified directories |
| ThreadDirStruct.PerRootErrorStays | SHE_Pipeline/python/SHE_Pipeline/pipeline_utilities.py:65-99 | once the roots so far fail, the whole loop fails the same way |
| ThreadDirStruct.MakeEach | SHE_Pipeline/python/SHE_Pipeline/pipeline_utilities.py:107-151 | consecutive create-if-absent steps equal the specified list |
| ThreadDirStruct.CreateThreadDirs | SHE_Pipeline/python/SHE_Pipeline/pipeline_utilities.py:50-156 | `create_thread_dir_struct` returns the specified list and directories |
| ThreadDirStruct.WorkersShape | SHE_Pipeline/python/SHE_Pipeline/pipeline_utilities.py:103-155 | exactly one tuple per worker, in worker order |
| ThreadDirStruct.WorkersErrorStays | SHE_Pipeline/python/SHE_Pipeline/pipeline_utilities.py:104-155 | a failure at some worker is the result of the whole worker loop |
| ThreadDirStruct.ThreadEntries | SHE_Pipeline/python/SHE_Pipeline/pipeline_utilities.py:103-155 | entry `i`'s workdir is `<root>/thread<i>`, its logdir `<thread dir>/<logdir>`; a single root gives `None` application fields, a second root gives its thread directory |
| ThreadDirStruct.WorkersDisk | SHE_Pipeline/python/SHE_Pipeline/pipeline_utilities.py:104-155 | the worker loop succeeds exactly when every tuple can be built and every needed directory exists or can be made, and adds exactly those |
| ThreadDirStruct.WorkersListFixed | SHE_Pipeline/python/SHE_Pipeline/pipeline_utilities.py:104-155 | the returned list does not depend on which directories already existed |
| ThreadDirStruct.StructsOkIff | SHE_Pipeline/python/SHE_Pipeline/pipeline_utilities.py:152-155 | every tuple can be built exactly when there are one or two roots, or no worker |
| ThreadDirStruct.CreatesOnlyWhatIsMissing | SHE_Pipeline/python/SHE_Pipeline/pipeline_utilities.py:50-156 | the whole call succeeds exactly when every needed directory exists or can be made (and the roots fit), then adds exactly those |
| ThreadDirStruct.SecondCallChangesNothing | SHE_Pipeline/python/SHE_Pipeline/pipeline_utilities.py:65-151 | a second call creates nothing and returns the same list |
| Paths.PathJoin | SHE_Pipeline/python/SHE_Pipeline/pipeline_utilities.py:107 | `os.path.join`: an absolute second part replaces the first; otherwise the result ends with it |
| Paths.Basename | SHE_Pipeline/python/SHE_Pipeline/run_bias_calibration_pipeline_parallel.py:682 | the base name has no `/` and ends the path |
| Paths.Dirname | SHE_Pipeline/python/SHE_Pipeline/run_pipeline_parallel.py:369 | the directory part is a prefix of the path |
| Paths.DirnameNonEmptyIff | SHE_Pipeline/python/SHE_Pipeline/run_pipeline_parallel.py:369 | the directory part is non-empty exactly when the path has a `/` |
| Paths.BasenameOfJoin | SHE_Pipeline/python/SHE_Pipeline/run_bias_calibration_pipeline_parallel.py:682 | a bare name joined under a directory is its basename again |
| Paths.JoinDataBasename | SHE_Pipeline/python/SHE_Pipeline/run_bias_calibration_pipeline_parallel.py:682 | the rewritten port value is `data/` followed by the basename |
| Paths.JoinNested | SHE_Pipeline/python/SHE_Pipeline/run_bias_calibration_pipeline_parallel.py:1042-1043 | joining `w` with `a/n` equals joining `w/a` with `n` |
| Paths.Relpath | SHE_Pipeline/python/SHE_Pipeline/pipeline_utilities.py:47 | `os.path.relpath` fails exactly on an empty path; an empty start is the working directory |
| Paths.GetRelpath | SHE_Pipeline/python/SHE_Pipeline/pipeline_utilities.py:30-47 | fails exactly when the workdir does not exist, or the path handed to relpath is empty; a path not textually starting with the workdir is returned unchanged, else relpath; the file is never checked |
| Paths.GetRelpathBelowWorkdir | SHE_Pipeline/python/SHE_Pipeline/run_bias_pipeline_parallel.py:231-248 | a file below an existing workdir comes back relative to it, and joining the two gives the path again |
| Paths.GetRelpathTextualPrefix | SHE_Pipeline/python/SHE_Pipeline/pipeline_utilities.py:44-47 | `/x/yz` against workdir `/x/y` gives `../yz`: the prefix test is textual |
| ExternalProcess.StripAll | SHE_Pipeline/python/SHE_Pipeline/pipeline_utilities.py:297-300 | each line is stripped, one for one |
| ExternalProcess.StreamsPartition | SHE_Pipeline/python/SHE_Pipeline/pipeline_utilities.py:297-305 | output lines come first; each stderr line goes to exactly one list, to the errors exactly when its upper-case text holds `ERROR` or `EXCEPTION`; nothing lost or duplicated |
| ExternalProcess.DropIgnored | SHE_Pipeline/python/SHE_Pipeline/pipeline_utilities.py:328-331 | removing in place while iterating over a copy equals filtering out the ignored lines |
| ExternalProcess.NothingIgnored | SHE_Pipeline/python/SHE_Pipeline/pipeline_utilities.py:328 | with no error lines or no messages nothing is removed |
| ExternalProcess.DropIgnoredExactly | SHE_Pipeline/python/SHE_Pipeline/pipeline_utilities.py:328-331 | exactly the lines containing some message are removed, the others keep their order |
| ExternalProcess.CommandName | SHE_Pipeline/python/SHE_Pipeline/pipeline_utilities.py:343-348 | corrected name: IndexError exactly when the last command has no word |
| ExternalProcess.NameOfSingleCommand | SHE_Pipeline/python/SHE_Pipeline/pipeline_utilities.py:343-348 | for a single command both versions agree: its first word, or `python <script>` |
| ExternalProcess.NameOfLastCommand | SHE_Pipeline/python/SHE_Pipeline/pipeline_utilities.py:344 | after earlier `;`-commands the last command's first word is the name |
| ExternalProcess.PythonAfterSemicolon | SHE_Pipeline/python/SHE_Pipeline/pipeline_utilities.py:345-346 | as written `cd d; python s` is named `cd d;`; the corrected name is `python s` |
| ExternalProcess.ExternalProcessRun | SHE_Pipeline/python/SHE_Pipeline/pipeline_utilities.py:291-350 | after the process ends, the run returns the specified outcome; a failed checked run is named as the code names it (`CommandNameAsWritten`) |
| ExternalProcess.UnignoredErrorsIff | SHE_Pipeline/python/SHE_Pipeline/pipeline_utilities.py:300-333 | an error line survives the filter exactly when a stderr line reports an error and holds no ignore message |
| ExternalProcess.RaisesOnUnignoredError | SHE_Pipeline/python/SHE_Pipeline/pipeline_utilities.py:327-350 | a checked run raises exactly then; otherwise it returns every output line and no error line |
| ExternalProcess.UncheckedNeverRaises | SHE_Pipeline/python/SHE_Pipeline/pipeline_utilities.py:306-307 | an unchecked run never raises; unparsed as well, it returns the exit code |
| PipelineInfos.PipelineInfo.constructor | SHE_Pipeline/python/SHE_Pipeline/pipeline_info.py:42-72 | the names follow the naming rules, nothing is cached and nothing looked up |
| PipelineInfos.DefaultNaming | SHE_Pipeline/python/SHE_Pipeline/pipeline_info.py:48-67 | without overrides: auxdir `SHE_<upper>`, package `PkgDef_SHE_<upper>.py`, no optional ports, script, definition, config and ISF from the two names |
| PipelineInfos.OverridesAreLocal | SHE_Pipeline/python/SHE_Pipeline/pipeline_info.py:48-56 | an auxdir or package override changes that name and nothing else |
| PipelineInfos.NamesIdentifyPipeline | SHE_Pipeline/python/SHE_Pipeline/pipeline_info.py:63-67 | equal scripts or definitions imply equal upper-case names; equal configs or ISFs equal lower-case names |
| PipelineInfos.ConfigIsNeverIsf | SHE_Pipeline/python/SHE_Pipeline/pipeline_info.py:66-67 | no config file name is any ISF name |
| PipelineInfos.LookedUpAtMostOnce | SHE_Pipeline/python/SHE_Pipeline/pipeline_info.py:74-104 | the first access looks up once and returns what it finds or raises; later accesses return the cached value without a lookup |
| PipelineInfos.FailureIsNotCached | SHE_Pipeline/python/SHE_Pipeline/pipeline_info.py:77-78 | a failed lookup caches nothing, so the next access looks up again |
| PipelineInfos.LookupPaths | SHE_Pipeline/python/SHE_Pipeline/pipeline_info.py:78-102 | script and package definition are looked up under the auxdir, config and ISF under `SHE_Pipeline` |
| PipelineInfos.PipelineInfo.QualifiedPipelineScript | SHE_Pipeline/python/SHE_Pipeline/pipeline_info.py:74-80 | the property updates only its own cache and the lookup log, as the lazy lookup specifies; a value it returns, cached or not, came from a lookup of the pipeline script path |
| PipelineInfos.PipelineInfo.QualifiedPackageDef | SHE_Pipeline/python/SHE_Pipeline/pipeline_info.py:82-88 | the property updates only its own cache and the lookup log, as the lazy lookup specifies; a value it returns, cached or not, came from a lookup of the package definition path |
| PipelineInfos.PipelineInfo.QualifiedConfig | SHE_Pipeline/python/SHE_Pipeline/pipeline_info.py:90-96 | the property updates only its own cache and the lookup log, as the lazy lookup specifies; a value it returns, cached or not, came from a lookup of the configuration path |
| PipelineInfos.PipelineInfo.QualifiedIsf | SHE_Pipeline/python/SHE_Pipeline/pipeline_info.py:98-104 | the property updates only its own cache and the lookup log, as the lazy lookup specifies; a value it returns, cached or not, came from a lookup of the ISF path |
| PipelineInfos.DictKeys | SHE_Pipeline/python/SHE_Pipeline/pipeline_info.py:108-165 | each pipeline is filed once under its own lower-case name |
| PipelineInfos.BiasMeasurementNaming | SHE_Pipeline/python/SHE_Pipeline/pipeline_info.py:145-153 | `bias_measurement` has auxdir `SHE_Shear_Calibration` and package `PkgDef_SHE_Shear_Calibration.py` like `calibration`, but its own script `PipScript_SHE_Bias_Measurement.py` |
| PipelineInfos.AnalysisVariantsShareAuxdir | SHE_Pipeline/python/SHE_Pipeline/pipeline_info.py:117-141 | the three analysis variants share the analysis auxdir, package and optional ports, with their own scripts |
| RunPipeline.ModuleFileOfDotted | SHE_Pipeline/python/SHE_Pipeline/run_pipeline.py:40 | module `a.b.c` lives in file `a/b/c.py` |
| RunPipeline.PipelineDirOfInstall | SHE_Pipeline/python/SHE_Pipeline/run_pipeline.py:34-43 | a module installed as `<dir>/a/b/c.py` (the tail occurring only at the end) reports `<dir>` |
| RunPipeline.PipelineFileUnder | SHE_Pipeline/python/SHE_Pipeline/run_pipeline.py:118 | the pipelineDir value is `<dir>/SHE_Pipeline_pkgdef/<pipeline>.py` |
| RunPipeline.Head | SHE_Pipeline/python/SHE_Pipeline/run_pipeline.py:109-112 | `s[0:n]` stops at the end of a shorter string |
| RunPipeline.OverriddenIff | SHE_Pipeline/python/SHE_Pipeline/run_pipeline.py:109-112 | the 7/6/13/11-character comparison is exactly a prefix test for the four keys |
| RunPipeline.PrefixOnly | SHE_Pipeline/python/SHE_Pipeline/run_pipeline.py:109-112 | `workdirX=...` and its kind are dropped too |
| RunPipeline.CreateIsf | SHE_Pipeline/python/SHE_Pipeline/run_pipeline.py:94-120 | corrected `create_isf`: a base ISF that `find_file` does not find raises RuntimeError; otherwise the ISF path is in the workdir and its text is the specified one, each assignment on its own line |
| RunPipeline.FilterTerminated | SHE_Pipeline/python/SHE_Pipeline/run_pipeline.py:108-113 | the line filter sees the same lines with or without their line breaks |
| RunPipeline.IsfTextJoined | SHE_Pipeline/python/SHE_Pipeline/run_pipeline.py:104-118 | the corrected ISF text is the kept base lines and the four assignments joined by line breaks, with a final break |
| RunPipeline.IsfLines | SHE_Pipeline/python/SHE_Pipeline/run_pipeline.py:104-118 | corrected: the ISF's lines are the kept base lines, unchanged and in order, then the four assignments |
| RunPipeline.IsfLinesAsWritten | SHE_Pipeline/python/SHE_Pipeline/run_pipeline.py:115-118 | as written the four assignments run together on one last line |
| RmR.RecursiveRemove | SHE_Pipeline/scripts/rm_r.py:27-54 | `recursive_remove` returns the specified removal: ValueError for a file that cannot be removed or a directory not emptied, OSError from `os.listdir` on an entry that cannot be listed and from `os.rmdir` |
| RmR.RemoveChildren | SHE_Pipeline/scripts/rm_r.py:39-46 | the loop over the entries returns the specified sweep |
| RmR.EscapedStays | SHE_Pipeline/scripts/rm_r.py:43-46 | once an exception other than ValueError escapes, the remaining children are untouched |
| RmR.Escape | SHE_Pipeline/scripts/rm_r.py:43-46 | such an exception from child `i` ends the loop |
| RmR.SweepClean | SHE_Pipeline/scripts/rm_r.py:39-46 | the flag stays set with nothing escaping exactly when every child so far was removed |
| RmR.AllGoneIff | SHE_Pipeline/scripts/rm_r.py:39-46 | all children so far are gone exactly when each one was removed |
| RmR.GoneIff | SHE_Pipeline/scripts/rm_r.py:27-54 | a node disappears exactly when everything in it can be removed |
| RmR.AncestorFails | SHE_Pipeline/scripts/rm_r.py:46-52 | a directory with a child that cannot be fully removed is not removed and fails |
| RmR.UnlistableEscapes | SHE_Pipeline/scripts/rm_r.py:41-46 | an entry `os.listdir` cannot list escapes its directory's loop with OSError; the later siblings are not attempted and the directory keeps them all |
| RmR.AllChildrenAttempted | SHE_Pipeline/scripts/rm_r.py:41-46 | while only ValueErrors occur every child is attempted and the failed ones remain in order |
| RmR.OnlyValueErrors | SHE_Pipeline/scripts/rm_r.py:29-52 | when every entry that is not a file can be listed and every directory can be removed once empty, the only exception is ValueError |
| RmR.RmRoot | SHE_Pipeline/scripts/rm_r.py:72-75 | a root that does not exist raises ValueError `<root> does not exist.` before anything is removed; otherwise an exception escapes exactly when something is left |
| RmR.RmRootSucceedsIff | SHE_Pipeline/scripts/rm_r.py:72-75 | the script succeeds exactly when the root exists and the whole tree can be removed, and then nothing is left |
| DataProductRetrieval.CheckContentLength | SHE_Pipeline/scripts/dataProductRetrieval_SC8.py:28-35 | true exactly when `Content-Length` or `content-length` is present |
| DataProductRetrieval.GetContentLength | SHE_Pipeline/scripts/dataProductRetrieval_SC8.py:38-45 | `int()` of `Content-Length`, else of `content-length`, else -1 |
| DataProductRetrieval.ContentLengthAgrees | SHE_Pipeline/scripts/dataProductRetrieval_SC8.py:28-45 | on digit-valued headers a non-negative length is reported exactly when the check holds |
| DataProductRetrieval.LowerCasedHeaders | SHE_Pipeline/scripts/dataProductRetrieval_SC8.py:157-166 | with the lower-cased header names only the lower-case spelling is found |
| DataProductRetrieval.HasContentIff | SHE_Pipeline/scripts/dataProductRetrieval_SC8.py:134 | a chunk has content exactly when one of its characters is not whitespace |
| DataProductRetrieval.Declared | SHE_Pipeline/scripts/dataProductRetrieval_SC8.py:135-137 | every kept chunk but the first gets the XML declaration prefixed |
| DataProductRetrieval.GetMetadataXml | SHE_Pipeline/scripts/dataProductRetrieval_SC8.py:123-142 | nothing when the job did not finish; otherwise the products of the response, and `cip` is their count |
| DataProductRetrieval.ProductsOfResponse | SHE_Pipeline/scripts/dataProductRetrieval_SC8.py:130-141 | without their declarations the products are the non-blank chunks of the `\n\n` split in order; with no blank chunk they rejoin to the response |
| DataProductRetrieval.ProductsAreTheNonBlankChunks | SHE_Pipeline/scripts/dataProductRetrieval_SC8.py:130-141 | every product has content and every chunk with content becomes a product |
| DataProductRetrieval.MetadataFilename | SHE_Pipeline/scripts/dataProductRetrieval_SC8.py:214-216 | `ptype` with first character upper-cased, `__`, `pid`, `.xml`; errors in evaluation order: AttributeError when either element is missing, then TypeError for a type without text, IndexError for an empty type, TypeError for an identifier without text |
| DataProductRetrieval.MetadataFilenameIff | SHE_Pipeline/scripts/dataProductRetrieval_SC8.py:216 | two same-length types give one name exactly when they agree up to the case of their first letter and share the identifier |
| DataProductRetrieval.SaveAllAsWritten | SHE_Pipeline/scripts/dataProductRetrieval_SC8.py:208-228 | as written, with no products nothing is saved |
| DataProductRetrieval.AsWrittenRefetches | SHE_Pipeline/scripts/dataProductRetrieval_SC8.py:222-227 | as written a file downloaded into `datadir` is downloaded again by the next run |
| DataProductRetrieval.DownloadMissing | SHE_Pipeline/scripts/dataProductRetrieval_SC8.py:222-228 | the corrected inner loop returns the specified files and downloads |
| DataProductRetrieval.SaveMetaAndData | SHE_Pipeline/scripts/dataProductRetrieval_SC8.py:208-228 | the corrected loop over products returns the specified outcome: a product that is not well formed XML stops it with XmlParseError, a name that cannot be formed with its exception |
| DataProductRetrieval.SaveStopped | SHE_Pipeline/scripts/dataProductRetrieval_SC8.py:209-216 | once an exception stops the loop, later products change nothing |
| DataProductRetrieval.MalformedProductStops | SHE_Pipeline/scripts/dataProductRetrieval_SC8.py:209-213 | a product `etree.XML` rejects stops the loop with XmlParseError before anything of it is written; what earlier products saved stays |
| DataProductRetrieval.FetchFilesCovers | SHE_Pipeline/scripts/dataProductRetrieval_SC8.py:222-228 | fetching only adds files, and afterwards every file asked for is present |
| DataProductRetrieval.FetchFilesPresent | SHE_Pipeline/scripts/dataProductRetrieval_SC8.py:222-224 | with every file present the fetch loop downloads nothing and leaves the disk alone |
| DataProductRetrieval.SaveCovers | SHE_Pipeline/scripts/dataProductRetrieval_SC8.py:208-228 | saving only adds files; a complete run leaves every data file present |
| DataProductRetrieval.SavePresent | SHE_Pipeline/scripts/dataProductRetrieval_SC8.py:222-224 | with every data file present nothing is downloaded |
| DataProductRetrieval.SecondRunFetchesNothing | SHE_Pipeline/scripts/dataProductRetrieval_SC8.py:208-228 | corrected: a second run after a complete first run downloads nothing |
| MergeOutputs.Extended | SHE_Pipeline/python/SHE_Pipeline/run_bias_calibration_pipeline_parallel.py:1068-1072 | the listfile afterwards is its old contents (none if absent) followed by the new entries, nothing removed or merged |
| MergeOutputs.CalibrationThreadNo | SHE_Pipeline/python/SHE_Pipeline/run_bias_calibration_pipeline_parallel.py:1038 | parsing the text after the last `thread`, up to `_`, fails only with ValueError |
| MergeOutputs.BiasThreadNo | SHE_Pipeline/python/SHE_Pipeline/run_bias_pipeline_parallel.py:902 | parsing the text after the first `thread`, up to `/`: IndexError exactly when there is no `thread`, otherwise only ValueError |
| MergeOutputs.CalibrationThreadNoOfThreadDir | SHE_Pipeline/python/SHE_Pipeline/run_bias_calibration_pipeline_parallel.py:1038 | the number of every thread directory `create_thread_dir_struct` makes is read back, below any root |
| MergeOutputs.BiasThreadNoOfThreadDir | SHE_Pipeline/python/SHE_Pipeline/run_bias_pipeline_parallel.py:902 | the number of a thread directory is read back when the root does not contain `thread` |
| MergeOutputs.BiasSlot | SHE_Pipeline/python/SHE_Pipeline/run_bias_pipeline_parallel.py:903-910 | a directory contributes at most one entry: its existing measurement file, only when its number is below `nThreads` |
| MergeOutputs.MergeBiasOutputs | SHE_Pipeline/python/SHE_Pipeline/run_bias_pipeline_parallel.py:892-916 | `mergeOutputs` returns the extended listfile from the specified new entries, or their exception |
| MergeOutputs.BiasNewListIsSlots | SHE_Pipeline/python/SHE_Pipeline/run_bias_pipeline_parallel.py:900-916 | the merge succeeds exactly when every directory name parses; the new entries are then the slots in directory order, without de-duplication |
| MergeOutputs.BiasNewListSound | SHE_Pipeline/python/SHE_Pipeline/run_bias_pipeline_parallel.py:900-910 | every new entry is the existing measurement file of a listed directory below the thread count |
| MergeOutputs.SameMeasurementFile | SHE_Pipeline/python/SHE_Pipeline/run_bias_calibration_pipeline_parallel.py:1042-1043 | both pipelines look for the same measurement file |
| MergeOutputs.LinkOne | SHE_Pipeline/python/SHE_Pipeline/run_bias_calibration_pipeline_parallel.py:1052-1066 | linking one data file only adds paths; it fails only with NameError (as written), OSError or FileExistsError |
| MergeOutputs.LinkGrows | SHE_Pipeline/python/SHE_Pipeline/run_bias_calibration_pipeline_parallel.py:1052-1066 | the data-file loop only adds paths |
| MergeOutputs.LinkErrors | SHE_Pipeline/python/SHE_Pipeline/run_bias_calibration_pipeline_parallel.py:1052-1066 | the data-file loop raises NameError only as written |
| MergeOutputs.CalibrationEntry | SHE_Pipeline/python/SHE_Pipeline/run_bias_calibration_pipeline_parallel.py:1038-1045 | a directory contributes at most one entry: its existing measurement file, only below `nThreads` |
| MergeOutputs.CalibrationStep | SHE_Pipeline/python/SHE_Pipeline/run_bias_calibration_pipeline_parallel.py:1037-1066 | one directory appends its entry and only adds paths; it fails only with ValueError, ParseError, NameError (as written), OSError or FileExistsError |
| MergeOutputs.UnreadableMeasurementFails | SHE_Pipeline/python/SHE_Pipeline/run_bias_calibration_pipeline_parallel.py:1044-1048 | an existing measurement file whose product `read_xml_product` cannot read stops the merge with ParseError |
| MergeOutputs.MergeOutputsAsWritten | SHE_Pipeline/python/SHE_Pipeline/run_bias_calibration_pipeline_parallel.py:1028-1072 | as written, with no directories the listfile is rewritten unchanged |
| MergeOutputs.MissingDataFile | SHE_Pipeline/python/SHE_Pipeline/run_bias_calibration_pipeline_parallel.py:1060-1066 | a product naming a data file its thread did not write: NameError as written; corrected, the link is made |
| MergeOutputs.LinkDataFile | SHE_Pipeline/python/SHE_Pipeline/run_bias_calibration_pipeline_parallel.py:1052-1066 | the corrected inner-loop body returns the specified link step |
| MergeOutputs.LinkDataFiles | SHE_Pipeline/python/SHE_Pipeline/run_bias_calibration_pipeline_parallel.py:1052-1066 | the corrected data-file loop returns the specified result |
| MergeOutputs.MergeThread | SHE_Pipeline/python/SHE_Pipeline/run_bias_calibration_pipeline_parallel.py:1038-1066 | one corrected outer-loop turn returns the specified step |
| MergeOutputs.MergeCalibrationOutputs | SHE_Pipeline/python/SHE_Pipeline/run_bias_calibration_pipeline_parallel.py:1028-1072 | corrected `merge_outputs`: the extended listfile and file system from the specified merge, or its exception |
| MergeOutputs.CalibrationErrors | SHE_Pipeline/python/SHE_Pipeline/run_bias_calibration_pipeline_parallel.py:1037-1066 | corrected, the merge raises only ValueError, ParseError, OSError or FileExistsError, never NameError |
| MergeOutputs.CalibrationGrows | SHE_Pipeline/python/SHE_Pipeline/run_bias_calibration_pipeline_parallel.py:1063-1066 | the merge only adds paths |
| MergeOutputs.CalibrationNewListSound | SHE_Pipeline/python/SHE_Pipeline/run_bias_calibration_pipeline_parallel.py:1037-1045 | every new entry exists and is the measurement file of a listed directory below the thread count |
| MergeOutputs.EntryKept | SHE_Pipeline/python/SHE_Pipeline/run_bias_calibration_pipeline_parallel.py:1044-1045 | an entry a directory contributes stays its entry as paths are added |
| MergeOutputs.CalibrationNewListComplete | SHE_Pipeline/python/SHE_Pipeline/run_bias_calibration_pipeline_parallel.py:1036-1045 | every listed directory below the thread count whose measurement file existed before contributes it |
| OrderedDict.Set | SHE_Pipeline/python/SHE_Pipeline/run_bias_calibration_pipeline_parallel.py:639 | `d[k] = v`: `k` now maps to `v`, others unchanged; an existing key keeps its position, a new one goes last |
| OrderedDict.SetValid | SHE_Pipeline/python/SHE_Pipeline/run_bias_calibration_pipeline_parallel.py:649 | assignment keeps keys unique |
| OrderedDict.Get | SHE_Pipeline/python/SHE_Pipeline/run_bias_calibration_pipeline_parallel.py:648 | a lookup finds a value exactly when the key is present |
| OrderedDict.SameEntries | SHE_Pipeline/python/SHE_Pipeline/run_bias_calibration_pipeline_parallel.py:771-772 | two maps with the same key order and lookups are the same map, so they write the same ISF |

## Left out

- Concurrency is not modelled: `runThreads`, `multiprocessing.Pool.map`,
  `multiprocessing.Process` and execution order.
- The `Popen`/`sleep(60)` memory-retry loop, `stdIn` and `_isIterable`
  in `external_process_run` are left out. The process's output lines and
  exit code are parameters.
- `createLogs`, `cleanup`, `execute_pipeline` and the `she_*` stage
  wrappers are left out. They are foreign calls to executables.
- `chmod 0o777` for cluster runs is left out; it is a permission side
  effect.
- Linking `*.bin` configuration files is left out; it is a side effect on
  names the model does not otherwise see.
- `find_file`, `find_aux_file`, `read_xml_product`, `get_all_filenames`,
  `read_listfile`, `write_listfile` and astropy's `Table.read` are
  library calls whose code is not available. They are parameters of the
  operations that call them.
- `get_allowed_filename` (pid, version and timestamp) is a parameter,
  because it depends on process state.
- `create_plan`'s table edits are left out: `update_sim_plan_table` and
  the writing of FITS tables. The model records which plan files are
  written, not their contents.
- SimulationPlan.PlanTable: a column is an integer column or "other";
  float columns, string widths that truncate an override and astropy
  versions that replace a column instead of casting into it are not
  modelled. `math.ceil` works on the float quotient, so a detector count
  above 2^53 may round; the model divides exactly.
- Python strings are modelled as character sequences. `upper`, `strip`,
  `isdigit` and `int()` are ASCII only, and `int()` accepts no
  underscores. Bytes versus `str` decoding is not modelled.
- `os.path.abspath` and `normpath` take the working directory as a
  parameter. Symbolic links are recorded as calls, and a dangling link is
  not distinguished from an existing file.
- In the calibration merge, `os.makedirs` records only the leaf
  directory it creates.
- The check in `check_args` that the pipeline package exists only logs,
  so it is not modelled.
- `check_args`, `execute_pipeline` and `run_pipeline_from_args` of
  `run_pipeline.py` are left out. They are argument defaulting and a
  shell call.
- `run_pipeline_from_args` of `run_pipeline_parallel.py` refers to an
  undefined `workdirInfo` and returns inside its loop. Its helpers are
  modelled, but not the driver itself.
- `run_pipeline_parallel.check_args` and `create_thread_dir_struct` are
  not part of this model. They duplicate the checks and directory naming
  of the modules above.
- `downloadDssFile` is left out: the network, SSL, HTTP status handling,
  chunked writing and its progress bar. A download always succeeds and
  creates the file.
- `geturl` and `checkasyjob` are left out: polling the archive and
  `ast.literal_eval`. The response and the job's final status are
  parameters.
- In `saveMetaAndData`, a `FileName` element without text is not
  modelled; it would be `None` in Python. File names are strings.
- The worker index in the calibration driver assumes a four-argument
  `create_thread_dir_struct`, which is not part of this model. The index
  formula is modelled (`BatchPlanner.WorkerIndexIsSimNo`), not that call.
- BiasThreadNoOfThreadDir: proved only for a root directory whose path
  does not contain `thread`. `mergeOutputs` splits at the first `thread`,
  so with such a root the number is not read back.
- InputPorts.Ports: when a port raises, the files and directories the
  earlier ports created are not kept in the result; only the exception
  is. The same holds for InputPorts.PortStep within one port.
- ThreadDirStruct.MakeDirs: a directory that fails to be made discards
  the directories made before it in the same call; so does
  ThreadDirStruct.CreateThreadDirStruct for the earlier workers.
- CheckArgs.CalibCheckArgs: directories made before a later check raises
  are not kept in the result.
- MergeOutputs.LinkOne: a link that fails discards the earlier links of
  the same merge; so does MergeOutputs.CalibrationStep for earlier
  batches.
- RmR.RecursiveRemove: symbolic links to directories are not modelled.
  `os.path.isfile` follows a link, so the code empties the target through
  it and then `os.rmdir` on the link raises NotADirectoryError; the tree
  has no aliasing, so this is not captured. A dangling link is an
  `Unlistable` entry.
- RmR.RmRoot: the usage error argparse prints when ROOT is missing is
  not modelled. The argument is always a string, so the script's own
  `root_dir is None` check cannot fire.
- The workflow declarations (pkgdef files), the CLI entry points, the
  version constants and `create_listfiles.py` are left out. They have no
  behaviour of their own to state.

## Findings

| source | as written | input that shows it | evidently intended | confidence | as-written member | corrected member |
|---|---|---|---|---|---|---|
| SHE_Pipeline/python/SHE_Pipeline/run_pipeline_parallel.py:221-228 | the scan for `simulation_plan` steps one element at a time, so values are compared too | `isf_args = ["x", "simulation_plan", "simulation_plan", "p.fits"]` takes `simulation_plan` as the plan and overwrites a key; `["x", "simulation_plan"]` raises IndexError | compare keys only, stepping by pairs | not executed | RunPipelineParallel.ScanAsWritten (ScanMistakesValueForKey, ScanTrailingValueFails, PlanNameAsWrittenTrailing) | RunPipelineParallel.ScanPairs (ScanPairsExamples, PlanNameRegistersNewPlan, PlanNameFailsIff) |
| SHE_Pipeline/python/SHE_Pipeline/run_pipeline_parallel.py:295-313 | a full batch records `len(workdirList) - 1` threads | 2 workdirs, 4 detectors: each batch records 1 thread, so detectors 1 and 3 get plan files but are never started | each batch records the number of detectors it holds | not executed | RunPipelineParallel.DetectorBatchesAsWritten (AsWrittenSkipsLastWorker, AsWrittenThreadCount) | RunPipelineParallel.DetectorBatches (IntendedRunsEveryDetector, IntendedRunsOnce) |
| SHE_Pipeline/python/SHE_Pipeline/run_pipeline_parallel.py:334-364 | the configuration is written under the batch-tagged name, but the untagged name is returned to the ISF | name `cfg.txt`, batch 0: writes `cfg_batch0.txt`, returns `cfg.txt` | return the name of the file written | not executed | IsfArgs.CreateConfigAsWritten (ConfigNameMismatch) | IsfArgs.CreateConfig |
| SHE_Pipeline/python/SHE_Pipeline/run_bias_calibration_pipeline_parallel.py:473-476 | `not isdigit() and int(...) not in (0, 1)` lets every digit string through | `--est_shear_only 2` passes and means false | reject every value other than 0 and 1 | not executed | CheckArgs.EstShearOnlyAsWritten (EstShearOnlyAcceptsTwo) | CheckArgs.EstShearOnly |
| SHE_Pipeline/python/SHE_Pipeline/pipeline_utilities.py:343-346 | for `python` the name is the first two words of the whole command line | `cd d; python s` is reported as `cd d;` | the first two words of the last command | not executed | ExternalProcess.CommandNameAsWritten (PythonAfterSemicolon) | ExternalProcess.CommandName (NameOfLastCommand) |
| SHE_Pipeline/python/SHE_Pipeline/run_pipeline.py:115-118 | the four assignments are written without line breaks | any base ISF: the last line reads `workdir=...logdir=...pkgRepository=...pipelineDir=...` | one `key=value` line per assignment | not executed | RunPipeline.IsfTextAsWritten (IsfLinesAsWritten) | RunPipeline.CreateIsf (IsfLines) |
| SHE_Pipeline/scripts/dataProductRetrieval_SC8.py:222-227 | a data file is looked for in the working directory but downloaded into `datadir` | a product with data file `f`, `datadir = "data"`: a second run downloads `f` again | look for the file where it is downloaded | not executed | DataProductRetrieval.SaveAllAsWritten (AsWrittenRefetches) | DataProductRetrieval.SaveMetaAndData (SecondRunFetchesNothing) |
| SHE_Pipeline/python/SHE_Pipeline/run_bias_calibration_pipeline_parallel.py:1060-1061 | `logger` is not defined in `merge_outputs` | a measurement product naming a data file its thread did not write: NameError, and the listfile is not updated | log the warning and make the link | not executed | MergeOutputs.MergeOutputsAsWritten (MissingDataFile) | MergeOutputs.MergeCalibrationOutputs (CalibrationErrors) |
