# Oral classification service — a Dafny model

This project models the classification service of the oral-insight web application
(`src/services/classificationService.ts`). The service has three parts:

- **The knowledge base `oralDiseases`.** It is a fixed table of seven oral conditions.
  Each entry holds a display name, a description, a severity tier and five recommendations.
- **The lifecycle of `OralClassificationService`.** The service has two mutable fields,
  `classifier` (null or installed) and `isLoading`. `initializeModel` is guarded: it
  does nothing while a classifier is present or a load is running. Otherwise it marks
  a load as running, installs the classifier, and clears `isLoading` in a `finally`.
  A failed load rejects with "Model initialization failed". `classifyImage` initializes
  lazily, encodes the file and calls the installed classifier.
- **The simulated classifier `simulateClassification`.** It ignores the image. It picks
  a key from the table's own key list, looks up the entry, draws a confidence, and
  builds a `DiagnosisData` record from the entry's fields.

Modules:

- `Wrappers` (wrappers.dfy): `Option`, `Result` and `Outcome`. These stand for `null`
  and for a settled promise.
- `Records` (records.dfy): `Severity` and the `DiagnosisData` record, whose shape
  follows `src/components/DiagnosisResult.tsx`.
- `KnowledgeBase` (knowledge_base.dfy): the table as a constant `map`. The key
  list is given in `Object.keys` order.
- `Simulator` (simulator.dfy): the key pick `Math.floor(r1 * n)`, the confidence
  `0.7 + r2 * 0.25` and the assembled record.
- `Lifecycle` (lifecycle.dfy): the service state as a value. The operations are functions from the
  old state to the new state, with the lemmas about them.
- `ClassificationService` (service.dfy): the class `OralClassificationService`. Its
  fields are updated in place. Each method states its new state as the matching
  `Lifecycle` function of the old state.

`initializeModel` contains an `await`, so it is split into two steps:

- `BeginLoad` / `BeginInitialize` is the guard and `isLoading = true`.
- `FinishLoad` / `FinishInitialize(success)` installs the classifier or rejects, then
  runs the `finally`.

`InitializeModel` runs the two steps one after the other. The model also counts how often the
classifier has been assigned (`installs`). With that count, "a second call does not
re-install the classifier" becomes a provable statement.

Environment inputs become parameters:

- The two `Math.random()` draws are `r1` and `r2`, each in [0, 1).
- `new Date()` is a `Timestamp` supplied by the caller.
- `fileToBase64` is a function parameter `encode` that maps the file to its encoded string, or to
  `None` when the file reader fails.
- Whether the model load succeeds is the parameter `success`.

The service does not do the following, and neither does the model:

- A call to `initializeModel` while a load is running returns at once. It does not wait
  for the running load. A `classifyImage` that arrives at that point goes on to call through the
  still-null classifier and fails (`ClassifierIsNull`), unless the running load finishes while the file
  is being read.
- After a failed load the state is the same as cold. No separate "failed"
  state exists, and the next call loads again.
- The code has no `NotReady`, `InvalidInput` or unknown-condition errors. It has no
  empty-input check either. Lookup misses cannot happen, as `SelectedKey` proves.
- In exact arithmetic the confidence lies in the half-open interval [0.70, 0.95). With IEEE doubles
  the largest draws round up to exactly 0.95 (see "## Left out").
- The table has the seven conditions of the code: caries, calculus, gingivitis,
  tooth_discoloration, ulcers, hypodontia and healthy.

## Model

| member | source | states |
|---|---|---|
| KnowledgeBase.KeysEnumerateTable | src/services/classificationService.ts:5-90 | the constant `OralDiseases` holds the table and `DiseaseKeys` its key list; the key list has seven entries without repeats, each is a key of the table, and every table key is listed |
| KnowledgeBase.TableHasSevenKeys | src/services/classificationService.ts:5-90 | the table's keys are exactly caries, calculus, gingivitis, tooth_discoloration, ulcers, hypodontia and healthy, seven in all |
| KnowledgeBase.FiveRecommendationsEach | src/services/classificationService.ts:5-90 | every entry has exactly five recommendations |
| KnowledgeBase.SeverityTiers | src/services/classificationService.ts:5-90 | severity is low exactly for gingivitis, tooth_discoloration and healthy, medium exactly for the others, and never high |
| Simulator.PickIndex | src/services/classificationService.ts:123 | `Math.floor(r * n)` for a draw in [0, 1) is a valid position of a non-empty list of n keys |
| Simulator.PickIndexInterval | src/services/classificationService.ts:122-123 | position i is picked exactly when the draw lies in [i/n, (i+1)/n), so every key gets a slice of width 1/n |
| Simulator.PickIndexAtFraction | src/services/classificationService.ts:122-123 | the draw i/n is a valid draw and picks position i |
| Simulator.Confidence | src/services/classificationService.ts:127 | the confidence lies in [0.70, 0.95) and so in [0, 1] |
| Simulator.ConfidenceCoversRange | src/services/classificationService.ts:127 | each value in [0.70, 0.95) is the confidence of exactly one draw |
| Simulator.SelectedKey | src/services/classificationService.ts:122-124 | the key picked from `Object.keys(oralDiseases)` is always a key of the table, so the lookup never misses |
| Simulator.EveryKeySelectable | src/services/classificationService.ts:122-124 | every key of the table is picked by some draw |
| Simulator.SimulateClassification | src/services/classificationService.ts:117-141 | the result's disease, description, severity and recommendations are the matched entry's name, description, severity and recommendations; the confidence is in [0.70, 0.95); the timestamp is the completion time |
| Simulator.SimulatedDiagnosisIsTabled | src/services/classificationService.ts:122-135 | every simulated diagnosis copies some table entry, is never high severity and has five recommendations |
| Simulator.SimulationIgnoresImage | src/services/classificationService.ts:117-141 | the diagnosis does not depend on the image data |
| Simulator.HealthyScenario | src/services/classificationService.ts:78-89 | a draw in the last seventh with confidence draw 0.52 yields the complete "Healthy Oral Tissue" record, severity low, confidence 0.83 |
| Lifecycle.InitialIsColdAndValid | src/services/classificationService.ts:92-94 | a new service has no classifier, is not loading, and satisfies the invariant |
| Lifecycle.BeginLoad | src/services/classificationService.ts:96-99 | a load starts exactly when no classifier is present and none is running; otherwise the state is unchanged; a started load sets `isLoading` only |
| Lifecycle.FinishLoad | src/services/classificationService.ts:100-114 | `isLoading` is false afterwards on both paths; success resolves and installs the classifier once; failure rejects with InitializationFailed and leaves the classifier null |
| Lifecycle.InitializeModel | src/services/classificationService.ts:96-115 | with a classifier present or a load running the call resolves and changes nothing; from cold it ends not loading, ready exactly when the load succeeded, and rejects with InitializationFailed exactly when it failed |
| Lifecycle.IsModelReady | src/services/classificationService.ts:164-166 | for a valid state, true exactly when the classifier was installed once, and then no load is running |
| Lifecycle.IsInitializing | src/services/classificationService.ts:168-170 | for a valid state, true only while no classifier is installed |
| Lifecycle.BeginLoadPreservesValid | src/services/classificationService.ts:96-99 | the guard step keeps the invariant (classifier present exactly when installed once; loading only when absent) |
| Lifecycle.FinishLoadPreservesValid | src/services/classificationService.ts:100-114 | the finishing step keeps the invariant |
| Lifecycle.InitializeIsNoOpWhenReadyOrLoading | src/services/classificationService.ts:97 | with a classifier present or a load running, `initializeModel` resolves and changes nothing |
| Lifecycle.InitializeFromCold | src/services/classificationService.ts:96-115 | from cold, success ends ready with one install and not loading; failure rejects with InitializationFailed and ends cold again |
| Lifecycle.FailedLoadAllowsRetry | src/services/classificationService.ts:97-114 | after a failed load the next call passes the guard, and a successful retry ends ready |
| Lifecycle.RepeatedInitializeInstallsAtMostOnce | src/services/classificationService.ts:96-115 | over any sequence of calls the classifier is installed at most once, no load is left running, and the service ends ready exactly when it was ready or some load succeeded |
| Lifecycle.InitializeAfterReadyChangesNothing | src/services/classificationService.ts:97 | once ready, any number of further calls leaves the state unchanged |
| Lifecycle.Classify | src/services/classificationService.ts:106-108 | the installed classifier's `classify` (called at line 152) resolves to a diagnosis copying some table entry, with a confidence in [0.70, 0.95) and the completion time; `ClassifyWhenReady` states that it is the simulator's diagnosis of the encoded data |
| Lifecycle.ClassifyImage | src/services/classificationService.ts:143-153 | a ready service's state is unchanged; a diagnosis is only returned by a ready service; InitializationFailed is returned only when the lazy load failed, leaving no classifier |
| Lifecycle.ClassifyWhenReady | src/services/classificationService.ts:143-153 | a ready service does not change state and resolves to the simulator's diagnosis of the encoded image, or rejects when the reader fails |
| Lifecycle.ClassifyFromCold | src/services/classificationService.ts:143-153 | from cold the call initializes first; a failed load rejects with InitializationFailed and yields no diagnosis; a successful one leaves the service ready and resolves to the simulator's diagnosis, or rejects with FileReadFailed when the reader fails |
| Lifecycle.ClassifyWhileLoading | src/services/classificationService.ts:143-153 | a call arriving while a load runs leaves the state unchanged and fails on the null classifier, or on the reader if that fails first |
| Lifecycle.ClassifySuccessIsTabledAndReady | src/services/classificationService.ts:143-153 | a diagnosis is only returned by a ready service; it copies a table entry, has a confidence in [0.70, 0.95) and the completion time |
| ClassificationService.OralClassificationService.constructor | src/services/classificationService.ts:92-94 | a new instance has a null classifier and is not loading |
| ClassificationService.OralClassificationService.BeginInitialize | src/services/classificationService.ts:96-99 | the guard passes exactly from cold; otherwise nothing changes; a started load sets `isLoading` |
| ClassificationService.OralClassificationService.FinishInitialize | src/services/classificationService.ts:100-114 | `isLoading` is cleared; success installs the classifier; failure rejects with InitializationFailed and leaves it null |
| ClassificationService.OralClassificationService.InitializeModel | src/services/classificationService.ts:96-115 | a no-op when ready or loading; from cold it ends not loading, ready exactly on success, with at most one install |
| ClassificationService.OralClassificationService.ClassifyImage | src/services/classificationService.ts:143-153 | new state and result as `Lifecycle.ClassifyImage`; a ready service is left unchanged; a diagnosis implies ready and a bounded confidence |
| ClassificationService.OralClassificationService.IsModelReady | src/services/classificationService.ts:164-166 | true exactly when a classifier is installed (installed once), and then no load is running |
| ClassificationService.OralClassificationService.IsInitializing | src/services/classificationService.ts:168-170 | true exactly while a load runs, and then no classifier is installed |

## Left out

- Interleavings of concurrent calls are not modelled. Each call runs without interruption except that
  `initializeModel` is cut into two steps at its `await`. A call arriving between the two steps is
  represented by a state with `isLoading` set. `classifyImage` is not interrupted at its `fileToBase64`
  `await`, so a load that finishes while the file is being read is not modelled.
- The delays (`setTimeout`) are left out. They are timers and change no state.
- `new Date()` becomes a timestamp parameter, and `Math.random()` becomes two draw parameters in [0, 1).
- `fileToBase64` uses the browser's `FileReader`. It becomes an opaque function parameter `encode`.
  The data-URL format is not modelled.
- The model load is an environment outcome, the `success` parameter. In the code the load
  is only a timer, so the failure path cannot be triggered there. The model covers it regardless.
- The `console.error` logging on a failed load is not modelled.
- Numbers are exact reals, not IEEE doubles. The bounds on the confidence and on the picked index are
  proved for exact arithmetic.
- Simulator.Confidence: the upper bound 0.95 is exclusive only in exact arithmetic. In doubles,
  `0.7 + r * 0.25` rounds to exactly 0.95 for the largest draws `Math.random()` can return, so the
  code's range is [0.70, 0.95].
- Simulator.SimulateClassification: the code puts the table's own `recommendations` array into the result,
  so the result and the table share one mutable array. Sequences are values here, so this aliasing is not
  modelled. No caller in the code mutates that array.
- Simulator.PickIndex: for an empty key list the index is not a valid position. The table
  is a non-empty constant, so this case never arises.
- The unused `pipeline` import from `@huggingface/transformers` is not modelled.
- The exported singleton `classificationService` is not modelled; any instance behaves alike.
- The user interface files (`src/pages/Index.tsx`, `src/components/*.tsx`) are not part
  of this model. Only the `DiagnosisData` record shape is taken from `src/components/DiagnosisResult.tsx`.
