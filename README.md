# Structure acquisition for bandgap-predictor, in Dafny

This project models how the bandgap-predictor pipeline obtains a crystal
structure for each chemical formula, and proves properties of that model.

`MaterialsProcessor` resolves one formula in these steps:
- it parses the formula into a composition;
- it rejects a binary composition whose ratio is not a common one;
- it answers from its cache;
- otherwise it tries three stages in order, each under `retry` with exponential backoff: the Materials Project database, the substitution predictor behind its ratio gate, and the prototype builders (ternary 112 and binary 13);
- it validates the first structure found (it doubles a cell under 1 cubic angstrom and sorts the sites), then caches it;
- when no stage finds a structure, it returns a one-atom emergency cell.

`process_formulas` runs this over fixed-size batches. For each formula it writes a CIF file, or the error CIF when something raises. After each batch it merges the batch's results, rewrites the checkpoint with the keys resolved so far, and sleeps; a negative delay makes that first sleep raise `ValueError`, so the run ends after the first checkpoint.

The model also covers three other parts of the repository:
- the structure-generation script, which fills in missing CIF paths of the dataset. Each row tries the substitution placeholder, then an ABX2 or AB3 prototype chosen from the formula's last character, then a two-site fallback cell;
- its helpers in `structure_utils`;
- the SMILES element scanner and the valence-electron counter of the compound analyser.

Modules, one per file:
- `Basics`: `Option`, `Min`, `Max`, `Replicate` and sequence lemmas.
- `Crystal`: lattices and volumes, sites, structures, and the stable sort by species rank behind `get_sorted_structure`.
- `Chemistry`: compositions, `int()` truncation, `math.gcd`.
- `Paths`: `os.path.join` and `replace(' ', '')`.
- `Stoichiometry`: `is_valid_stoichiometry` and the substitution ratio gate.
- `Prototypes`: the ternary 112 and binary 13 seeds, `_generate_fallback` and the emergency cell.
- `Effects`: the trace of events a run causes (database queries, substitutor calls, sleeps, file writes, checkpoints) and its views.
- `Retrying`: `retry` as a function of what each attempt does.
- `Acquisition`: `get_or_create_structure` as a function of the services and the cache.
- `Batches`: `process_formulas` with its results dictionary in insertion order.
- `Processor`: the class `MaterialsProcessor`. Its fields are the cache, the error log and the event trace, and its methods are proved equal to the functions above.
- `StructureUtils` and `GenerateStructures`: the script. `Workspace` is a class whose fields are the dataset and the file system.
- `CompoundAnalyzer`: `parse_smiles` and `get_valence_electrons`.

Points of the code's behaviour that the model keeps as written:
- A formula whose processing raises inside `process_formulas` is absent from the returned results (src/utils.py:211-213).
- A formula that does not parse raises out of `get_or_create_structure`, because the handler refers to a `comp` that was never bound (src/utils.py:50-73, `Acquisition.AcquireCrashesOnlyUnparsed`).
- The stoichiometry check precedes the cache lookup (src/utils.py:53-57).
- The emergency cell is a plain one-atom structure, with nothing marking it as a placeholder (src/utils.py:183-194).
- `_generate_fallback` accepts a prototype only when its site count equals the number of distinct elements. The prototype seeds have four or five sites for three or two elements. So whenever `from_spacegroup` keeps at least one site per seed coordinate, the prototype stage never answers, and a formula such as MgInP2 that the database and the substitutor miss gets the emergency cell (`Prototypes.FallbackRejectsExpandedSeeds`, `Acquisition.NothingFoundGivesEmergency`). The intended count is not evident from the code (atoms per formula unit, or per cell), so no corrected version is modelled.

## Model

| member | source | states |
|---|---|---|
| Processor.MaterialsProcessor.constructor | src/utils.py:16-21 | A new processor has an empty cache, an empty error log and no events, and its cache invariant holds |
| Processor.MaterialsProcessor.Retry | src/utils.py:23-37 | For a non-negative backoff factor, the loop returns what `RetryFrom` says; the error log grows by exactly the logged messages and the trace by exactly the run's events; the cache is untouched |
| Processor.MaterialsProcessor.GetOrCreateStructure | src/utils.py:50-73 | The outcome, new cache, log and events are those of `Acquire` on the old cache; the cache invariant (sorted structures with sites) is kept |
| Processor.MaterialsProcessor.RunStages | src/utils.py:59-69 | The `or`-chain of three retried stages followed by validate-and-cache or the emergency cell yields exactly `Cascade`, and the cache invariant is kept |
| Processor.MaterialsProcessor.FindStructure | src/utils.py:59-61 | The first retried stage that returns a structure answers; the later stages are not run, so the trace and the log grow by the runs made up to it; the cache is untouched |
| Processor.MaterialsProcessor.SaveErrorStructure | src/utils.py:224-231 | Writes `structures/<formula>_ERROR.cif` (not under `structure_dir`) when the write succeeds, nothing otherwise; cache and log unchanged |
| Processor.MaterialsProcessor.WriteCheckpoint | src/utils.py:233-236 | Appends one checkpoint holding the result keys in insertion order and changes nothing else |
| Processor.MaterialsProcessor.ProcessFormula | src/utils.py:205-213 | One iteration of the inner loop: a stored structure exactly as `Step` gives it, else the error CIF; the cache invariant is kept |
| Processor.MaterialsProcessor.ProcessBatch | src/utils.py:204-213 | The inner loop's `batch_results` and final state equal `RunBatch` from an empty dictionary; the cache invariant is kept |
| Processor.MaterialsProcessor.CheckpointBatch | src/utils.py:201-217 | The batch, the `update` and the checkpoint agree with `CheckpointedBatch`; the cache invariant is kept |
| Processor.MaterialsProcessor.Pause | src/utils.py:219 | `time.sleep(delay)` sleeps iff the delay is non-negative, and a negative delay raises with nothing slept; only the trace changes |
| Processor.MaterialsProcessor.ProcessNextBatch | src/utils.py:200-219 | One outer pass (batch, `update`, checkpoint, sleep) agrees with `BatchStep` when the delay is non-negative, and stops after the checkpoint (`CheckpointedBatch`) when it is negative; the cache invariant is kept |
| Processor.MaterialsProcessor.ProcessAllBatches | src/utils.py:200-219 | The outer loop raises iff the delay is negative and there is a batch, after the first batch's checkpoint; otherwise it agrees with `RunBatches` from start 0; the cache invariant is kept |
| Processor.MaterialsProcessor.ProcessFormulas | src/utils.py:196-222 | Result and new state are those of `Batches.ProcessFormulas`: a batch size of 0 is the `range` error, a negative one an empty result, a negative delay the `time.sleep` error after the first checkpoint; the cache invariant is kept, so `Batches.ProcessFormulasResults` applies to the object's state |
| Retrying.RetrySucceedsIff | src/utils.py:23-37 | `retry` returns a structure if and only if some attempt below `max_retries` returns a truthy one |
| Retrying.RetryReturnsTruthy | src/utils.py:27-28 | Whatever `retry` returns has at least one site |
| Retrying.RetryReturnsFirst | src/utils.py:24-28 | A returned structure is that of the first succeeding attempt, after exactly that many calls |
| Retrying.RetryNoneMakesEveryAttempt | src/utils.py:24-37 | A run that returns nothing has called `func` `max_retries` times |
| Retrying.RetryReturnsFirstSuccess | src/utils.py:23-37 | The three facts together: success iff some attempt succeeds, first success returned, all attempts made otherwise |
| Retrying.RetryLogsFinalRaise | src/utils.py:29-33 | At most one message is logged, and one is logged exactly when every attempt fails and the last one raises; it is that exception's text |
| Retrying.RetryQuietWithoutRaises | src/utils.py:23-37 | When no attempt raises, nothing is logged and the run neither sleeps nor writes |
| Retrying.RetryContinues | src/utils.py:24-36 | Proof helper, one step of `RetryFrom`: an attempt that neither succeeds nor is the final raise hands over to the next attempt with the same result and log |
| Retrying.RetryAfterRaise | src/utils.py:29-36 | Proof helper, one step of `RetryFrom`: a raise before the last attempt is followed by a sleep of `backoff_factor ** attempt`, then the next attempt |
| Retrying.RetryAfterFalsy | src/utils.py:26-28 | Proof helper, one step of `RetryFrom`: a falsy result goes on to the next attempt without sleeping |
| Retrying.RaisingSleeps | src/utils.py:29-36 | When every attempt raises, the sleeps are b^k, ..., b^(max-2) in order |
| Retrying.RetryAlwaysRaising | src/utils.py:23-37 | When every attempt raises: no result, all attempts made, the last message logged, the backoff sleeps in order |
| Retrying.RetryStopSleeps | src/utils.py:27-33 | A run that stops at its first attempt made one call and did not sleep |
| Retrying.RetryRaiseSleeps | src/utils.py:34-36 | A non-final raise adds exactly one sleep of b^k before the rest of the run's sleeps |
| Retrying.RetryFalsySleeps | src/utils.py:26-28 | A falsy attempt adds no sleep |
| Retrying.RetryMakesAnAttempt | src/utils.py:24 | Proof helper, one step of `RetryFrom`: a run makes a call if and only if attempts remain |
| Retrying.RetrySleepsAreBackoffs | src/utils.py:29-36 | Every sleep lasts b^j for some attempt j that raised and was not the last |
| Retrying.RetrySleepsFewerThanAttempts | src/utils.py:24-36 | A run sleeps fewer times than it calls |
| Retrying.RetrySleepsFollowRaises | src/utils.py:23-37 | The last two facts together |
| Stoichiometry.NonBinaryIsValid | src/utils.py:43-46 | A composition with other than two elements is always accepted |
| Stoichiometry.BinaryValidity | src/utils.py:41-48 | A binary is accepted iff a/b is within 0.01 of 1, 0.5, 2, 0.33 or 3; b = 0 (the `ZeroDivisionError`) is rejected |
| Stoichiometry.ValidBinaryRatioRange | src/utils.py:43-45 | Every accepted binary ratio lies strictly between 0.32 and 3.01 |
| Stoichiometry.OneToOneIsValid | src/utils.py:45 | 1:1 is accepted |
| Stoichiometry.OneToOnePointSevenIsInvalid | src/utils.py:45 | 1:1.7 is rejected |
| Stoichiometry.OneToThreeIsValid | src/utils.py:45 | 1:3 is accepted, through the tolerance around the literal 0.33 |
| Stoichiometry.OrderOfEntriesMatters | src/utils.py:44-45 | Only a/b is tested, so the order of the two elements can change the verdict |
| Stoichiometry.GateConsults | src/utils.py:99-109 | The substitutor is consulted iff there are two or more elements, some truncated amount is non-zero, and none exceeds four times the gcd; a zero gcd (the `ZeroDivisionError`) happens iff every amount truncates to 0 |
| Stoichiometry.OneOneTwoConsults | src/utils.py:103-109 | Amounts 1, 1, 2 pass the gate |
| Stoichiometry.TwoTenDeclines | src/utils.py:103-109 | Amounts 2, 10 reduce to 1:5 and are declined |
| Stoichiometry.FractionalAmountsDecline | src/utils.py:103-117 | Amounts 0.5, 0.5 truncate to zero and are declined through the zero gcd |
| Chemistry.Symbols | src/utils.py:186 | Definition, element by element: the element symbols, one per entry, in composition order |
| Chemistry.Trunc | src/utils.py:103 | `int()` of a float: the integer toward zero within one unit |
| Chemistry.GcdOfZero | src/utils.py:104 | `gcd` of the list is 0 iff every entry is 0 |
| Chemistry.TruncatedAmounts | src/utils.py:103 | Definition, element by element: the truncated amount of each element, in order |
| Crystal.NewStructure | src/utils.py:188-192 | A structure exists iff species and coordinates have equal length; site i is species i at coordinate i |
| Crystal.SortByRank | src/utils.py:79 | The sorted sites are ordered by rank and are a permutation of the input |
| Crystal.SortIsStable | src/utils.py:79 | Sites of equal rank keep their input order |
| Crystal.SortKeepsSorted | src/utils.py:79 | Sorting already sorted sites changes nothing |
| Crystal.InsertByRank | src/utils.py:79 | Inserting into sorted sites keeps them sorted and adds exactly that site |
| Acquisition.ValidateStructure | src/utils.py:75-79 | The result is sorted by rank and is a permutation of the sites; a cell under 1 cubic angstrom has its volume doubled, and a cell of at least 1 cubic angstrom keeps its lattice |
| Acquisition.ValidatedVolume | src/utils.py:77-78 | The validated cell reaches 1 cubic angstrom iff the original had at least 0.5 |
| Acquisition.ValidateIdempotent | src/utils.py:75-79 | Validating twice equals validating once, when the single doubling is enough |
| Acquisition.DatabaseCallSucceeds | src/utils.py:81-92 | A query attempt is truthy iff the service found a structure with sites, and then returns it |
| Acquisition.DatabaseRunFinds | src/utils.py:60 | The retried database stage returns a structure iff some attempt finds one, and returns that of the first such attempt |
| Acquisition.DatabaseRunQuiet | src/utils.py:81-92 | The database stage never logs, sleeps or writes (its exceptions are caught), and returns only structures with sites |
| Acquisition.SubstitutionCallSucceeds | src/utils.py:94-120 | A substitution attempt is truthy iff the gate consults and the substitutor found a structure with sites |
| Acquisition.SubstitutionRunQuiet | src/utils.py:94-120 | The substitution stage never logs, sleeps or writes |
| Acquisition.SubstitutionRunFinds | src/utils.py:61 | The retried substitution stage returns a structure iff the gate consults and some attempt finds one |
| Acquisition.PrototypeRunFinds | src/utils.py:62 | The retried prototype stage returns exactly what `_generate_fallback` returns, quietly |
| Acquisition.AcquireStages | src/utils.py:50-73 | Which source answers, as iff-conditions on parse, stoichiometry, cache and the services: cached, database, substitution, prototype, emergency (a bad stoichiometry, or every stage failing) or a raise |
| Acquisition.AcquireFromCache | src/utils.py:56-57 | A cached answer is the cached structure itself, with no stage run, nothing logged and the cache unchanged |
| Acquisition.CascadeStages | src/utils.py:59-69 | The first of the three stages that finds a structure answers; otherwise the emergency cell |
| Acquisition.AcquireDatabaseAnswer | src/utils.py:60-67 | A database answer is the validated structure of the first successful attempt |
| Acquisition.AcquirePrototypeAnswer | src/utils.py:62-67 | A prototype answer is the validated `_generate_fallback` structure |
| Acquisition.AcquireCrashesOnlyUnparsed | src/utils.py:50-73 | The call raises iff the formula does not parse, and then changes nothing |
| Acquisition.KeepCaches | src/utils.py:64-67 | A kept structure is validated, cached under its formula, and keeps the cache invariant |
| Acquisition.CascadeCaches | src/utils.py:59-69 | Stages that find a structure cache it, sorted; the emergency cell is not cached; the cache invariant is kept |
| Acquisition.CascadeKeepsCacheValid | src/utils.py:59-69 | Running the stages on a cache whose entries all have sorted sites leaves a cache with the same property |
| Acquisition.AcquireCaches | src/utils.py:56-69 | Only a structure a stage found is cached, under its own formula, which was not cached before; otherwise the cache is unchanged |
| Acquisition.AcquireKeepsCacheValid | src/utils.py:50-73 | Every cached structure has sorted sites, and every structure returned has sites |
| Acquisition.AcquireIdempotent | src/utils.py:56-67 | Asking again for a just-resolved formula returns the same structure from the cache, with no service call |
| Acquisition.CascadeIsQuiet | src/utils.py:59-62 | The three stages only query services: no log entry, sleep or write |
| Acquisition.AcquireIsQuiet | src/utils.py:50-73 | `get_or_create_structure` never logs into the error log, sleeps or writes |
| Acquisition.AcquireEmergency | src/utils.py:69-73 | An emergency answer is the emergency cell of the parsed composition, uncached |
| Acquisition.NothingFoundGivesEmergency | src/utils.py:50-73 | With services that find nothing and seed-preserving expansion, an uncached formula gets the one-atom emergency cell and nothing is cached |
| Prototypes.Ternary112Seed | src/utils.py:122-142 | A seed exists iff there are three elements: P-3m1, hexagonal a=3 c=5, species A, B, C, C at the four coordinates |
| Prototypes.Binary13Seed | src/utils.py:144-165 | A seed exists iff a valid binary: Pm-3m, cubic a=6, one A and four B at the five coordinates |
| Prototypes.FallbackAccepts | src/utils.py:167-181 | `_generate_fallback` returns only the expansion of the seed for 2 or 3 elements, with as many sites as elements; other counts give nothing |
| Prototypes.FallbackRejectsExpandedSeeds | src/utils.py:167-181 | When the expansion keeps every seed site, `_generate_fallback` never returns a structure |
| Prototypes.EmergencyIsSingleAtom | src/utils.py:183-194 | The emergency cell is one atom at the origin of a cubic a=4 cell: the element of a one-element composition, else hydrogen |
| Paths.Join | src/utils.py:208 | An absolute name replaces the directory; otherwise the directory, at most one '/', then the name |
| Paths.RemoveSpaces | src/utils.py:208 | No space remains, no character is added, and a name without spaces is unchanged |
| Batches.Keys | src/utils.py:236 | Definition, element by element: the keys of the results in insertion order |
| Batches.PutKeeps | src/utils.py:210 | `d[k] = v` keeps keys distinct and in order, adds only k, and holds (k, v) |
| Batches.UpdateKeeps | src/utils.py:216 | `update` keeps the old keys first, adds exactly the other's keys, keeps keys distinct and values truthy |
| Batches.AcquireIsWellBehaved | src/utils.py:50-73 | `get_or_create_structure` has what the batch loop relies on: it is quiet, it raises only for unparsed formulas, and it keeps the cache valid |
| Batches.StepViews | src/utils.py:205-213 | One formula writes its CIF if it parses and the path is writable, else the error CIF; no sleep or checkpoint |
| Batches.StepStores | src/utils.py:205-213 | A formula is stored iff it parses and its CIF can be written; stored structures have sites |
| Batches.RunBatchViews | src/utils.py:205-213 | A batch writes at most one file per formula, in order (its CIF, or the error CIF when that is saved), and does not sleep, checkpoint or log |
| Batches.RunBatchKeepsKeys | src/utils.py:204-213 | Batch results keep distinct keys, truthy values and the keys already gathered, first |
| Batches.RunBatchGathers | src/utils.py:204-213 | A key is in the batch results iff it was already there or is a stored formula of the batch |
| Batches.RunBatchResults | src/utils.py:204-213 | The last two facts together |
| Batches.BatchStepMarks | src/utils.py:215-219 | Each whole outer pass, which the loop makes only for a non-negative delay, writes the batch's files, then one checkpoint of the merged keys, then one sleep of `delay` |
| Batches.BatchStepMerges | src/utils.py:215-216 | Each outer pass adds exactly the batch's stored formulas to the results |
| Batches.NumBatchesIsCeiling | src/utils.py:200 | The number of batches is the ceiling of len / batch_size |
| Batches.RunBatchesKeepLog | src/utils.py:200-219 | The batch loop adds nothing to the error log |
| Batches.RunBatchesFiles | src/utils.py:200-219 | The files written are at most one per formula, in input order: its CIF, or the error CIF when that is saved |
| Batches.RunBatchesPauses | src/utils.py:200-219 | Over batches that each make a whole pass (a non-negative delay), one sleep of `delay` and one checkpoint per batch |
| Batches.RunBatchesResults | src/utils.py:200-219 | The results hold exactly the stored formulas, with distinct keys and truthy values |
| Batches.LastCheckpointHoldsResults | src/utils.py:216-217 | The last checkpoint holds exactly the final result keys |
| Batches.ProcessFormulasResults | src/utils.py:196-222 | Batch size 0 is the error and changes nothing; a negative size returns `{}`; a negative delay raises iff there is a batch; a completed run returns exactly the input formulas that parse and whose CIF can be written; the cache invariant is kept in every case |
| Batches.ProcessFormulasNegativeDelay | src/utils.py:200-219 | With a negative delay the first batch writes its files and is checkpointed with exactly its stored formulas, then `time.sleep` raises; nothing is slept or logged |
| Batches.ProcessFormulasEffects | src/utils.py:196-222 | The run logs nothing; a completed run writes at most one file per formula in order (its CIF, or the error CIF when that is saved), sleeps `delay` once per batch and checkpoints once per batch |
| Batches.ProcessFormulasLastCheckpoint | src/utils.py:216-222 | A run with a batch checkpoints, and after a completed one the last checkpoint is the keys of the returned dictionary |
| CompoundAnalyzer.CloseFrom | archivo/compound_analyzer.py:21-22 | The inner scan stops at the first `]` at or after i, or at the end |
| CompoundAnalyzer.AdvanceAt | archivo/compound_analyzer.py:19-39 | Each iteration moves forward and appends at most one known symbol, spelled at that position |
| CompoundAnalyzer.ParseSmiles | archivo/compound_analyzer.py:13-40 | The loop returns the symbols that `Scan` specifies |
| CompoundAnalyzer.ScanFindsSymbols | archivo/compound_analyzer.py:13-40 | Every symbol returned is a known element symbol |
| CompoundAnalyzer.ScanLength | archivo/compound_analyzer.py:13-40 | No more symbols than characters |
| CompoundAnalyzer.ScanInInputOrder | archivo/compound_analyzer.py:13-40 | Each symbol is spelled at its own, strictly increasing, position of the input |
| CompoundAnalyzer.ScanSuffix | archivo/compound_analyzer.py:19-39 | Scanning from i depends only on the text from i on |
| CompoundAnalyzer.BracketedText | archivo/compound_analyzer.py:20-26 | `[w]` contributes w exactly when it is a symbol, then scanning resumes after the `]` |
| CompoundAnalyzer.UnclosedBracket | archivo/compound_analyzer.py:27 | An unclosed `[` is skipped |
| CompoundAnalyzer.TwoCharactersFirst | archivo/compound_analyzer.py:30-35 | "CO" reads as cobalt: the two-character candidate is tried first, lowercasing the second character |
| CompoundAnalyzer.LowercaseAlone | archivo/compound_analyzer.py:36-39 | An aromatic "c" reads as carbon, uppercased |
| CompoundAnalyzer.Words | archivo/compound_analyzer.py:49 | `split()` tokens are non-empty and hold no whitespace |
| CompoundAnalyzer.WordsSplit | archivo/compound_analyzer.py:49 | A non-empty run without whitespace, followed by any character `str.isspace` accepts, is one token, and splitting goes on after it |
| CompoundAnalyzer.SeparatorSplitsWords | archivo/compound_analyzer.py:49 | "4s2\x1c3d1" splits into "4s2" and "3d1" |
| CompoundAnalyzer.Digits | archivo/compound_analyzer.py:52 | Only digits, no more than the token's characters |
| CompoundAnalyzer.Read | archivo/compound_analyzer.py:50-56 | A read token's shell is one decimal digit |
| CompoundAnalyzer.ValenceElectrons | archivo/compound_analyzer.py:42-63 | The method returns what `ValenceOf` specifies: `None` for a falsy configuration, the count, or the raise |
| CompoundAnalyzer.TallyTokens | archivo/compound_analyzer.py:47-63 | The `for` loop over the tokens keeps the running maximal shell and its electron sum as `Fold` of the tokens read so far, and stops with the raise at the first unreadable token |
| CompoundAnalyzer.FoldStaysNone | archivo/compound_analyzer.py:56 | Once a token raises, the whole call raises |
| CompoundAnalyzer.FoldIsOuterShellSum | archivo/compound_analyzer.py:49-62 | The loop succeeds iff no token is unreadable, and then its tally is the highest shell and the electrons summed over that shell |
| CompoundAnalyzer.ValenceIsOuterShellSum | archivo/compound_analyzer.py:42-63 | The result is the electron count of the outermost shell, or the raise exactly when some token is unreadable |
| CompoundAnalyzer.OuterTokenReading | archivo/compound_analyzer.py:52-56 | "4s2" reads as shell 4 with 2 electrons |
| CompoundAnalyzer.TenElectronTokenReading | archivo/compound_analyzer.py:52-56 | "3d10" reads as shell 3 with 0 electrons: the slice starts after as many characters as there are digits |
| CompoundAnalyzer.SkippedAndUnreadableTokens | archivo/compound_analyzer.py:50-56 | "[Ar]" is skipped; "4s" raises in `int('')` |
| StructureUtils.FindElements | scripts/utils/structure_utils.py:41 | Each match is an uppercase letter, optionally followed by one lowercase letter |
| StructureUtils.ElementsStartAtUppercase | scripts/utils/structure_utils.py:41 | The matches start at the uppercase letters of the formula, one each, in order |
| StructureUtils.NoElementsWithoutUppercase | scripts/utils/structure_utils.py:41-44 | No element is found iff the formula has no uppercase letter |
| StructureUtils.PrototypeShapes | scripts/utils/structure_utils.py:37-86 | A prototype is built iff an element is found and the name is known: ABX2 is A, B, X, X on hexagonal a=3 c=5, AB3 is A, B, B, B on cubic a=4, with defaults "B" and "X" |
| StructureUtils.FallbackIgnoresFormula | scripts/utils/structure_utils.py:88-101 | The fallback cell is the same for every formula: two X sites in a cubic a=4.2 cell |
| GenerateStructures.OutPath | scripts/3_generate_structures.py:34 | The output path is never empty |
| GenerateStructures.PrototypeChoice | scripts/3_generate_structures.py:42-47 | ABX2 iff the formula ends in '2', AB3 otherwise |
| GenerateStructures.PlanStages | scripts/3_generate_structures.py:31-62 | A truthy substitution wins; otherwise an empty formula aborts, the prototype is used iff the formula has an uppercase letter, else the fallback |
| GenerateStructures.ScriptPlans | scripts/3_generate_structures.py:31-62 | With the placeholder predictor no row is substituted, and only an empty formula aborts |
| GenerateStructures.GenerateKeepsRows | scripts/3_generate_structures.py:24-62 | Rows, formulas and rows with an existing CIF are unchanged, and no file disappears |
| GenerateStructures.GenerateCompletes | scripts/3_generate_structures.py:24-64 | With non-empty formulas the loop completes, and every row then names an existing CIF |
| GenerateStructures.GenerateWritesPlans | scripts/3_generate_structures.py:32-61 | Every file written exists afterwards, holds the planned structure of some row and has that stage's path |
| GenerateStructures.ScriptRegeneratesMissing | scripts/3_generate_structures.py:19-65 | The script completes and leaves every row pointing at an existing CIF, touching only rows that needed one |
| GenerateStructures.Workspace.constructor | scripts/3_generate_structures.py:20-22 | The dataset, the existing files and the predictor, with nothing written yet |
| GenerateStructures.Workspace.WriteCif | scripts/3_generate_structures.py:35 | `structure.to` adds the file and records the write |
| GenerateStructures.Workspace.PlanRow | scripts/3_generate_structures.py:31-62 | The branch chain computes `PlanFor` |
| GenerateStructures.Workspace.GenerateStructures | scripts/3_generate_structures.py:24-64 | The loop yields `GenerateFrom`; the dataset is saved only when the loop completes |

## Left out

- Floating point: amounts, coordinates and volumes are exact reals. sqrt(3)/2 in the hexagonal volume is its double-precision decimal. `abs(a/b - r) < 0.01` is evaluated exactly, not in binary floating point.
- External services are parameters of `Env`: the Materials Project search, the substitutor, `Composition` parsing, `from_spacegroup` expansion, the species ordering key of `get_sorted_structure`, whether a CIF path can be written, and whether the error CIF gets saved. Each service answers as a function of its argument and the attempt number. How the substitutor ranks its predictions is not modelled.
- Processor.MaterialsProcessor.WriteCheckpoint: the checkpoint file is assumed to open and be written. A failure to open `processing_checkpoint.json` would raise out of `process_formulas` after the batch's CIFs are written, and that is not modelled.
- Processor.MaterialsProcessor.Retry requires a non-negative backoff factor. With a negative one, `time.sleep` would raise `ValueError` at an odd attempt. Every call passes 2.
- Batches.ProcessFormulas: the delay is a whole number of seconds. A fractional delay such as 0.5 is not modelled.
- StructureUtils.PrototypeShapes assumes every regex match is a species pymatgen can read. For a match such as "Cz", which is neither an element nor a legal dummy species, `Structure(...)` raises `ValueError` out of the script before `to_csv`. The same assumption underlies `GenerateStructures.PlanStages` and `GenerateStructures.ScriptPlans`.
- `MPRester` construction, `os.makedirs`, logging other than the error log, `time.sleep` (recorded as an event, or the `ValueError` it raises for a negative delay) and the checkpoint file's JSON encoding (recorded as its key list).
- The log message's batch count `len(formulas)//batch_size + 1` appears only in a log line and is not modelled.
- Strings are sequences of characters: `lower`, `upper` and `isdigit` are modelled for ASCII only. `split` uses the full set of characters for which `str.isspace` holds.
- `get_valence_electrons`: a falsy `ec` is the `None` argument, and `str(ec)` is the text given.
- `parse_smiles` takes the set of element symbols as a parameter. The mendeleev table it comes from is not modelled.
- The script: `read_csv`/`to_csv` are the `Workspace` dataset field. A NaN or non-string formula and an exception from `structure.to` are not modelled.
- GenerateStructures.OutPath: the contract states only that the path is non-empty. The path itself is `Paths.Join` of `data/processed/structures` and `<formula><suffix>.cif`, whose contract describes it.
- Paths.RemoveSpaces: the contract does not state that the remaining characters keep their order.
- CompoundAnalyzer.Words: the contract does not state that the tokens are all of the text's non-space runs, in order.
- CompoundAnalyzer.Digits: the contract does not state that every digit is kept in order.
- CompoundAnalyzer.Read: the contract bounds the shell only. How the electron count is formed is stated through the example lemmas (`OuterTokenReading`, `TenElectronTokenReading`, `SkippedAndUnreadableTokens`).
- CompoundAnalyzer.AdvanceAt: the contract does not say which candidate wins. `BracketedText`, `UnclosedBracket`, `TwoCharactersFirst` and `LowercaseAlone` state that.
- StructureUtils.FindElements: the contract states only the shape of each match. `ElementsStartAtUppercase` states where the matches start.
- `get_mp_structure` in `scripts/utils/structure_utils.py` is not called by the script and is not part of this model.
- The other scripts of the repository (fetching, feature extraction, training, prediction, molecule generation) and the rest of the compound analyser are not part of this model.
- `Prototypes.FallbackRejectsExpandedSeeds` assumes an expansion that keeps at least one site per seed coordinate. pymatgen's actual symmetry expansion is not modelled.
