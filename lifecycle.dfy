/**
 * The state of `OralClassificationService` as a value, and its operations as
 * functions from the old state to the new one. `initializeModel` is cut at its
 * `await` into BeginLoad (the guard and `isLoading = true`) and FinishLoad (the
 * install or the rethrow, then the `finally`). `installs` counts how often the
 * classifier field has been assigned; it is not a field of the source.
 */
module Lifecycle {
  import opened Wrappers
  import opened Records
  import opened Simulator

  /** The object `{ classify: this.simulateClassification.bind(this) }` the service installs. */
  datatype Classifier = SimulatedClassifier

  /** The errors a service call can reject with. */
  datatype ServiceError =
    | InitializationFailed  // `new Error('Model initialization failed')`
    | FileReadFailed        // the `FileReader` reported an error while encoding the image
    | ClassifierIsNull      // `this.classifier.classify` was reached while `classifier` was still null

  /** The image handed to `classifyImage`. */
  datatype ImageFile = ImageFile(name: string, content: seq<bv8>)

  datatype Service = Service(classifier: Option<Classifier>, isLoading: bool, installs: nat)

  /** The freshly constructed service: no classifier, not loading. */
  const Initial: Service := Service(None, false, 0)

  /** The service invariant: a classifier is present exactly when it was installed once, and a load runs only while none is. */
  predicate Valid(s: Service) {
    s.installs == (if s.classifier.Some? then 1 else 0) &&
    (s.isLoading ==> s.classifier.None?)
  }

  /** `isModelReady()`. */
  predicate IsModelReady(s: Service)
    ensures Valid(s) ==> (IsModelReady(s) <==> s.installs == 1)
    ensures Valid(s) && IsModelReady(s) ==> !s.isLoading
  {
    s.classifier.Some?
  }

  /** `isInitializing()`. */
  predicate IsInitializing(s: Service)
    ensures Valid(s) && IsInitializing(s) ==> s.classifier.None? && s.installs == 0
  {
    s.isLoading
  }

  lemma InitialIsColdAndValid()
    ensures Valid(Initial) && !IsModelReady(Initial) && !IsInitializing(Initial)
  {
  }

  /**
   * The synchronous part of `initializeModel`: it returns at once when a classifier
   * is present or a load is running, and otherwise marks a load as running.
   * The boolean says whether a load was started.
   */
  function BeginLoad(s: Service): (r: (bool, Service))
    ensures r.0 <==> !IsModelReady(s) && !IsInitializing(s)
    ensures !r.0 ==> r.1 == s
    ensures r.0 ==> IsInitializing(r.1) && r.1.classifier == s.classifier && r.1.installs == s.installs
  {
    if s.classifier.Some? || s.isLoading then (false, s)
    else (true, s.(isLoading := true))
  }

  /**
   * The part of `initializeModel` after the `await`: a successful load installs the
   * classifier, a failed one rejects with InitializationFailed; `isLoading` is
   * cleared either way.
   */
  function FinishLoad(s: Service, success: bool): (r: (Outcome<ServiceError>, Service))
    requires IsInitializing(s)
    ensures !IsInitializing(r.1)
    ensures success ==> r.0 == Pass && r.1.classifier == Some(SimulatedClassifier) && r.1.installs == s.installs + 1
    ensures !success ==> r.0 == Fail(InitializationFailed) && r.1.classifier == s.classifier && r.1.installs == s.installs
  {
    var s1 := if success then s.(classifier := Some(SimulatedClassifier), installs := s.installs + 1) else s;
    (if success then Pass else Fail(InitializationFailed), s1.(isLoading := false))
  }

  /** One uninterrupted call of `initializeModel`, whose load would succeed when `success` holds. */
  function InitializeModel(s: Service, success: bool): (r: (Outcome<ServiceError>, Service))
    ensures IsModelReady(s) || IsInitializing(s) ==> r == (Pass, s)
    ensures !IsModelReady(s) && !IsInitializing(s) ==>
      !IsInitializing(r.1) && (IsModelReady(r.1) <==> success) &&
      r.0 == (if success then Pass else Fail(InitializationFailed))
  {
    var (started, s1) := BeginLoad(s);
    if started then FinishLoad(s1, success) else (Pass, s1)
  }

  lemma BeginLoadPreservesValid(s: Service)
    requires Valid(s)
    ensures Valid(BeginLoad(s).1)
  {
  }

  lemma FinishLoadPreservesValid(s: Service, success: bool)
    requires Valid(s) && IsInitializing(s)
    ensures Valid(FinishLoad(s, success).1)
  {
  }

  /** The guard: with a classifier present or a load running, a call changes nothing and resolves. */
  lemma InitializeIsNoOpWhenReadyOrLoading(s: Service, success: bool)
    requires IsModelReady(s) || IsInitializing(s)
    ensures InitializeModel(s, success) == (Pass, s)
  {
  }

  /** From a cold state a call runs one load: success leaves the classifier installed once, failure leaves it absent and rejects; either way no load is running afterwards. */
  lemma InitializeFromCold(s: Service, success: bool)
    requires Valid(s) && !IsModelReady(s) && !IsInitializing(s)
    ensures var (outcome, s') := InitializeModel(s, success);
      Valid(s') && !IsInitializing(s') &&
      (success ==> outcome == Pass && IsModelReady(s') && s'.installs == 1) &&
      (!success ==> outcome == Fail(InitializationFailed) && !IsModelReady(s') && s' == s)
  {
  }

  /** After a failed load the guard lets the next call start another load, which may then succeed. */
  lemma FailedLoadAllowsRetry(s: Service)
    requires Valid(s) && !IsModelReady(s) && !IsInitializing(s)
    ensures var s1 := InitializeModel(s, false).1;
      BeginLoad(s1).0 && IsModelReady(InitializeModel(s1, true).1)
  {
    InitializeFromCold(s, false);
  }

  /** A sequence of uninterrupted `initializeModel` calls, the `i`-th of whose loads would succeed when `loads[i]` holds. */
  function InitializeRepeatedly(s: Service, loads: seq<bool>): (r: Service)
    decreases |loads|
  {
    if loads == [] then s else InitializeRepeatedly(InitializeModel(s, loads[0]).1, loads[1..])
  }

  /**
   * However many times `initializeModel` is called in sequence, the classifier is
   * installed at most once, no load is left running, and the service ends ready
   * exactly when it started ready or some load succeeded.
   */
  lemma {:induction false} RepeatedInitializeInstallsAtMostOnce(s: Service, loads: seq<bool>)
    requires Valid(s) && !IsInitializing(s)
    ensures var s' := InitializeRepeatedly(s, loads);
      Valid(s') && s'.installs <= 1 && !IsInitializing(s') &&
      (IsModelReady(s') <==> IsModelReady(s) || true in loads)
    decreases |loads|
  {
    if loads != [] {
      var s1 := InitializeModel(s, loads[0]).1;
      if IsModelReady(s) {
        InitializeIsNoOpWhenReadyOrLoading(s, loads[0]);
      } else {
        InitializeFromCold(s, loads[0]);
      }
      RepeatedInitializeInstallsAtMostOnce(s1, loads[1..]);
      assert loads == [loads[0]] + loads[1..];
    }
  }

  /** Once the classifier is installed, further calls of `initializeModel` change nothing. */
  lemma {:induction false} InitializeAfterReadyChangesNothing(s: Service, loads: seq<bool>)
    requires IsModelReady(s)
    ensures InitializeRepeatedly(s, loads) == s
    decreases |loads|
  {
    if loads != [] {
      InitializeIsNoOpWhenReadyOrLoading(s, loads[0]);
      InitializeAfterReadyChangesNothing(s, loads[1..]);
    }
  }

  /** What the installed classifier's `classify` resolves to. */
  function Classify(c: Classifier, imageData: string, r1: real, r2: real, now: Timestamp): (d: DiagnosisData)
    requires IsDraw(r1) && IsDraw(r2)
    ensures 0.7 <= d.confidence < 0.95 && d.timestamp == now
    ensures exists k ::
      k in KnowledgeBase.OralDiseases &&
      d.disease == KnowledgeBase.OralDiseases[k].name &&
      d.description == KnowledgeBase.OralDiseases[k].description &&
      d.severity == KnowledgeBase.OralDiseases[k].severity &&
      d.recommendations == KnowledgeBase.OralDiseases[k].recommendations
  {
    SimulatedDiagnosisIsTabled(imageData, r1, r2, now);
    match c
    case SimulatedClassifier => SimulateClassification(imageData, r1, r2, now)
  }

  /**
   * One uninterrupted call of `classifyImage(file)`: initialize first when no
   * classifier is present, encode the file with `encode` (None when the reader
   * fails), then call the classifier.
   */
  function ClassifyImage(s: Service, file: ImageFile, encode: ImageFile -> Option<string>,
                         success: bool, r1: real, r2: real, now: Timestamp)
    : (r: (Result<DiagnosisData, ServiceError>, Service))
    requires IsDraw(r1) && IsDraw(r2)
    ensures IsModelReady(s) ==> r.1 == s
    ensures r.0.Success? ==> IsModelReady(r.1)
    ensures r.0 == Failure(InitializationFailed) ==> !success && !IsModelReady(r.1)
  {
    var (initialized, s1) := if s.classifier.None? then InitializeModel(s, success) else (Pass, s);
    if initialized.Fail? then (Failure(initialized.error), s1)
    else match encode(file)
      case None => (Failure(FileReadFailed), s1)
      case Some(imageData) =>
        match s1.classifier
        case None => (Failure(ClassifierIsNull), s1)
        case Some(c) => (Success(Classify(c, imageData, r1, r2, now)), s1)
  }

  /** With a classifier present the call does not touch the state and resolves to the simulator's diagnosis. */
  lemma ClassifyWhenReady(s: Service, file: ImageFile, encode: ImageFile -> Option<string>,
                          success: bool, r1: real, r2: real, now: Timestamp)
    requires IsDraw(r1) && IsDraw(r2) && IsModelReady(s)
    ensures var (result, s') := ClassifyImage(s, file, encode, success, r1, r2, now);
      s' == s &&
      (encode(file).Some? ==> result == Success(SimulateClassification(encode(file).value, r1, r2, now))) &&
      (encode(file).None? ==> result == Failure(FileReadFailed))
  {
  }

  /** From a cold state the call loads first: a failed load rejects with InitializationFailed and produces no diagnosis; a successful one leaves the service ready. */
  lemma ClassifyFromCold(s: Service, file: ImageFile, encode: ImageFile -> Option<string>,
                         success: bool, r1: real, r2: real, now: Timestamp)
    requires IsDraw(r1) && IsDraw(r2)
    requires Valid(s) && !IsModelReady(s) && !IsInitializing(s)
    ensures var (result, s') := ClassifyImage(s, file, encode, success, r1, r2, now);
      Valid(s') && !IsInitializing(s') &&
      (!success ==> result == Failure(InitializationFailed) && !IsModelReady(s')) &&
      (success ==>
        IsModelReady(s') && s'.installs == 1 &&
        (encode(file).Some? ==> result == Success(SimulateClassification(encode(file).value, r1, r2, now))) &&
        (encode(file).None? ==> result == Failure(FileReadFailed)))
  {
    InitializeFromCold(s, success);
  }

  /**
   * A call arriving while a load is running skips initialization and, run without
   * interruption, fails on the still-null classifier.
   */
  lemma ClassifyWhileLoading(s: Service, file: ImageFile, encode: ImageFile -> Option<string>,
                             success: bool, r1: real, r2: real, now: Timestamp)
    requires IsDraw(r1) && IsDraw(r2)
    requires Valid(s) && IsInitializing(s)
    ensures var (result, s') := ClassifyImage(s, file, encode, success, r1, r2, now);
      s' == s && result.Failure? &&
      result.error == (if encode(file).Some? then ClassifierIsNull else FileReadFailed)
  {
  }

  /** A diagnosis is returned only by a ready service, and it is one of the table's entries with a bounded confidence. */
  lemma ClassifySuccessIsTabledAndReady(s: Service, file: ImageFile, encode: ImageFile -> Option<string>,
                                        success: bool, r1: real, r2: real, now: Timestamp)
    requires IsDraw(r1) && IsDraw(r2) && Valid(s)
    ensures var (result, s') := ClassifyImage(s, file, encode, success, r1, r2, now);
      Valid(s') &&
      (result.Success? ==>
        IsModelReady(s') && 0.7 <= result.value.confidence < 0.95 &&
        result.value.timestamp == now &&
        exists k :: k in KnowledgeBase.OralDiseases &&
          result.value.disease == KnowledgeBase.OralDiseases[k].name &&
          result.value.description == KnowledgeBase.OralDiseases[k].description &&
          result.value.severity == KnowledgeBase.OralDiseases[k].severity &&
          result.value.recommendations == KnowledgeBase.OralDiseases[k].recommendations)
  {
    if s.classifier.None? && !s.isLoading {
      InitializeFromCold(s, success);
    }
    var (result, s') := ClassifyImage(s, file, encode, success, r1, r2, now);
    if result.Success? {
      var data := encode(file).value;
      SimulatedDiagnosisIsTabled(data, r1, r2, now);
    }
  }
}
