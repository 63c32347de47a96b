/**
 * The service object itself: `classifier` and `isLoading` are fields its methods
 * update in place. Each method's new state is stated as the matching Lifecycle
 * function of the old one, whose properties are proved in that module.
 */
module ClassificationService {
  import opened Wrappers
  import opened Records
  import opened Simulator
  import opened Lifecycle

  class OralClassificationService {
    var classifier: Option<Classifier>
    var isLoading: bool
    /** How often `classifier` has been assigned. */
    ghost var installs: nat

    /** The object's state as a Lifecycle value. */
    ghost function State(): Service
      reads this
    {
      Service(classifier, isLoading, installs)
    }

    ghost predicate Valid()
      reads this
    {
      Lifecycle.Valid(State())
    }

    /** A classifier is installed: `Lifecycle.IsModelReady(State())`, the predicate that `IsModelReady()` reports. */
    predicate Ready()
      reads this
    {
      classifier.Some?
    }

    /** A load is running: `Lifecycle.IsInitializing(State())`, the predicate that `IsInitializing()` reports. */
    predicate Initializing()
      reads this
    {
      isLoading
    }

    /** `new OralClassificationService()`: no classifier and no load. */
    constructor ()
      ensures Valid() && State() == Initial
      ensures !Ready() && !Initializing()
    {
      classifier := None;
      isLoading := false;
      installs := 0;
    }

    /** The start of `initializeModel` up to its `await`; `started` says whether the guard let it through. */
    method BeginInitialize() returns (started: bool)
      requires Valid()
      modifies this
      ensures Valid()
      ensures (started, State()) == BeginLoad(old(State()))
      ensures started <==> old(!Ready() && !Initializing())
      ensures !started ==> unchanged(this)
      ensures started ==> Initializing() && classifier == old(classifier)
    {
      if classifier.Some? || isLoading {
        return false;
      }
      isLoading := true;
      started := true;
    }

    /** The rest of a started `initializeModel`: install on success, reject otherwise, and clear `isLoading` in every case. */
    method FinishInitialize(success: bool) returns (outcome: Outcome<ServiceError>)
      requires Valid() && Initializing()
      modifies this
      ensures Valid()
      ensures (outcome, State()) == FinishLoad(old(State()), success)
      ensures !Initializing()
      ensures success ==> outcome == Pass && Ready()
      ensures !success ==> outcome == Fail(InitializationFailed) && !Ready()
    {
      if success {
        classifier := Some(SimulatedClassifier);
        installs := installs + 1;
        outcome := Pass;
      } else {
        outcome := Fail(InitializationFailed);
      }
      isLoading := false;
    }

    /** `initializeModel()` run without interruption; `success` decides whether the load succeeds. */
    method InitializeModel(success: bool) returns (outcome: Outcome<ServiceError>)
      requires Valid()
      modifies this
      ensures Valid()
      ensures (outcome, State()) == Lifecycle.InitializeModel(old(State()), success)
      ensures old(Ready() || Initializing()) ==> outcome == Pass && unchanged(this)
      ensures old(!Ready() && !Initializing()) ==>
        !Initializing() && (Ready() <==> success) && installs == (if success then 1 else 0)
    {
      var started := BeginInitialize();
      if started {
        outcome := FinishInitialize(success);
      } else {
        outcome := Pass;
      }
    }

    /**
     * `classifyImage(file)` run without interruption: initialize when no classifier
     * is present, encode the file, then resolve to the classifier's diagnosis.
     */
    method ClassifyImage(file: ImageFile, encode: ImageFile -> Option<string>,
                         success: bool, r1: real, r2: real, now: Timestamp)
      returns (result: Result<DiagnosisData, ServiceError>)
      requires Valid() && IsDraw(r1) && IsDraw(r2)
      modifies this
      ensures Valid()
      ensures (result, State()) == Lifecycle.ClassifyImage(old(State()), file, encode, success, r1, r2, now)
      ensures old(Ready()) ==> unchanged(this)
      ensures result.Success? ==> Ready() && 0.7 <= result.value.confidence < 0.95
    {
      if classifier.None? {
        var initialized := InitializeModel(success);
        if initialized.Fail? {
          return Failure(initialized.error);
        }
      }
      var encoded := encode(file);
      if encoded.None? {
        return Failure(FileReadFailed);
      }
      match classifier
      case None =>
        result := Failure(ClassifierIsNull);
      case Some(c) =>
        result := Success(Classify(c, encoded.value, r1, r2, now));
    }

    /** `isModelReady()`: true exactly when a classifier is installed, and then no load is running. */
    method IsModelReady() returns (ready: bool)
      requires Valid()
      ensures ready <==> Ready()
      ensures ready <==> installs == 1
      ensures ready ==> !Initializing()
    {
      ready := classifier.Some?;
    }

    /** `isInitializing()`: true exactly while a load is running, and then no classifier is installed. */
    method IsInitializing() returns (loading: bool)
      requires Valid()
      ensures loading <==> Initializing()
      ensures loading ==> !Ready() && installs == 0
    {
      loading := isLoading;
    }
  }
}
