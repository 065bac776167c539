/** `EditModel`: the edit screen. It can present one of three onboarding
    flows or one of two browser screens. */
module Edit {
  import opened Foundation
  import Naive = NaiveSafariView
  import Safari = SafariView
  import OnboardingFlowState
  import OnboardingFlowObservable
  import OnboardingFlowObserved

  /** The screen presented from the edit screen, one case per screen. The
      onboarding cases hold the model object of the presented flow. */
  datatype Destination =
    | OnboardingState(stateModel: OnboardingFlowState.OnboardingFlowStateModel)
    | OnboardingObservable(observableModel: OnboardingFlowObservable.OnboardingFlowObservableModel)
    | OnboardingObserved(observedModel: OnboardingFlowObserved.OnboardingFlowObservedModel)
    | NaiveSafari(naiveConfiguration: Naive.Configuration)
    | SafariView(configuration: Safari.Configuration)

  class EditModel {
    var destination: Option<Destination>

    constructor ()
      ensures destination == None
      ensures ActiveProjections() == 0
    {
      destination := None;
    }

    /** Each projection is non-nil exactly while its own case is the
        destination, and then it is that case's payload. */
    function OnboardingFlowStateModel(): (r: Option<OnboardingFlowState.OnboardingFlowStateModel>)
      reads this
      ensures r.Some? <==> destination.Some? && destination.value.OnboardingState?
      ensures r.Some? ==> destination == Some(OnboardingState(r.value))
    {
      match destination
      case Some(OnboardingState(model)) => Some(model)
      case _ => None
    }

    function OnboardingFlowObservableModel(): (r: Option<OnboardingFlowObservable.OnboardingFlowObservableModel>)
      reads this
      ensures r.Some? <==> destination.Some? && destination.value.OnboardingObservable?
      ensures r.Some? ==> destination == Some(OnboardingObservable(r.value))
    {
      match destination
      case Some(OnboardingObservable(model)) => Some(model)
      case _ => None
    }

    function OnboardingFlowObservedModel(): (r: Option<OnboardingFlowObserved.OnboardingFlowObservedModel>)
      reads this
      ensures r.Some? <==> destination.Some? && destination.value.OnboardingObserved?
      ensures r.Some? ==> destination == Some(OnboardingObserved(r.value))
    {
      match destination
      case Some(OnboardingObserved(model)) => Some(model)
      case _ => None
    }

    function NaiveSafariModel(): (r: Option<Naive.Configuration>)
      reads this
      ensures r.Some? <==> destination.Some? && destination.value.NaiveSafari?
      ensures r.Some? ==> destination == Some(NaiveSafari(r.value))
    {
      match destination
      case Some(NaiveSafari(model)) => Some(model)
      case _ => None
    }

    function SafariViewModel(): (r: Option<Safari.Configuration>)
      reads this
      ensures r.Some? <==> destination.Some? && destination.value.SafariView?
      ensures r.Some? ==> destination == Some(SafariView(r.value))
    {
      match destination
      case Some(SafariView(model)) => Some(model)
      case _ => None
    }

    /** How many of the five projections are non-nil: never more than one,
        and none exactly when nothing is presented. */
    function ActiveProjections(): (n: nat)
      reads this
      ensures n <= 1
      ensures n == 0 <==> destination.None?
    {
      (if OnboardingFlowStateModel().Some? then 1 else 0)
      + (if OnboardingFlowObservableModel().Some? then 1 else 0)
      + (if OnboardingFlowObservedModel().Some? then 1 else 0)
      + (if NaiveSafariModel().Some? then 1 else 0)
      + (if SafariViewModel().Some? then 1 else 0)
    }

    /** The five setters: reading back gives what was written, no other
        projection is non-nil, and writing nil clears the destination
        whatever case was active. */
    method SetOnboardingFlowStateModel(newValue: Option<OnboardingFlowState.OnboardingFlowStateModel>)
      modifies this
      ensures destination == if newValue.Some? then Some(OnboardingState(newValue.value)) else None
      ensures OnboardingFlowStateModel() == newValue
      ensures ActiveProjections() == if newValue.Some? then 1 else 0
    {
      destination := if newValue.Some? then Some(OnboardingState(newValue.value)) else None;
    }

    method SetOnboardingFlowObservableModel(newValue: Option<OnboardingFlowObservable.OnboardingFlowObservableModel>)
      modifies this
      ensures destination == if newValue.Some? then Some(OnboardingObservable(newValue.value)) else None
      ensures OnboardingFlowObservableModel() == newValue
      ensures ActiveProjections() == if newValue.Some? then 1 else 0
    {
      destination := if newValue.Some? then Some(OnboardingObservable(newValue.value)) else None;
    }

    method SetOnboardingFlowObservedModel(newValue: Option<OnboardingFlowObserved.OnboardingFlowObservedModel>)
      modifies this
      ensures destination == if newValue.Some? then Some(OnboardingObserved(newValue.value)) else None
      ensures OnboardingFlowObservedModel() == newValue
      ensures ActiveProjections() == if newValue.Some? then 1 else 0
    {
      destination := if newValue.Some? then Some(OnboardingObserved(newValue.value)) else None;
    }

    method SetNaiveSafariModel(newValue: Option<Naive.Configuration>)
      modifies this
      ensures destination == if newValue.Some? then Some(NaiveSafari(newValue.value)) else None
      ensures NaiveSafariModel() == newValue
      ensures ActiveProjections() == if newValue.Some? then 1 else 0
    {
      destination := if newValue.Some? then Some(NaiveSafari(newValue.value)) else None;
    }

    method SetSafariViewModel(newValue: Option<Safari.Configuration>)
      modifies this
      ensures destination == if newValue.Some? then Some(SafariView(newValue.value)) else None
      ensures SafariViewModel() == newValue
      ensures ActiveProjections() == if newValue.Some? then 1 else 0
    {
      destination := if newValue.Some? then Some(SafariView(newValue.value)) else None;
    }

    /** The six tap handlers: each replaces whatever was presented with its
        own screen; the onboarding ones create a new flow model with nothing
        presented. */
    method OnboardingFlowStateButtonTapped()
      modifies this
      ensures OnboardingFlowStateModel().Some? && ActiveProjections() == 1
      ensures fresh(destination.value.stateModel) && destination.value.stateModel.destination == None
    {
      var model := new OnboardingFlowState.OnboardingFlowStateModel();
      destination := Some(OnboardingState(model));
    }

    method OnboardingFlowObservableButtonTapped()
      modifies this
      ensures OnboardingFlowObservableModel().Some? && ActiveProjections() == 1
      ensures fresh(destination.value.observableModel)
      ensures destination.value.observableModel.destination == None && destination.value.observableModel.counter == 0
    {
      var model := new OnboardingFlowObservable.OnboardingFlowObservableModel();
      destination := Some(OnboardingObservable(model));
    }

    method OnboardingFlowObservedButtonTapped()
      modifies this
      ensures OnboardingFlowObservedModel().Some? && ActiveProjections() == 1
      ensures fresh(destination.value.observedModel)
      ensures destination.value.observedModel.destination == None && destination.value.observedModel.counter == 0
    {
      var model := new OnboardingFlowObserved.OnboardingFlowObservedModel();
      destination := Some(OnboardingObserved(model));
    }

    method NaiveSafariButtonTapped()
      modifies this
      ensures destination == Some(NaiveSafari(Naive.Configuration(GoogleUrl)))
      ensures NaiveSafariModel().Some? && ActiveProjections() == 1
    {
      var model := Naive.Configuration(GoogleUrl);
      destination := Some(NaiveSafari(model));
    }

    method SafariViewButtonTapped()
      modifies this
      ensures destination == Some(SafariView(Safari.Configuration(GoogleUrl)))
      ensures SafariViewModel().Some? && !SafariViewModel().value.preferModalPresentation && ActiveProjections() == 1
    {
      var model := Safari.Configuration(GoogleUrl);
      destination := Some(SafariView(model));
    }

    method SafariViewModalButtonTapped()
      modifies this
      ensures destination == Some(SafariView(Safari.Configuration(GoogleUrl, preferModalPresentation := true)))
      ensures SafariViewModel().Some? && SafariViewModel().value.preferModalPresentation && ActiveProjections() == 1
    {
      var model := Safari.Configuration(GoogleUrl, preferModalPresentation := true);
      destination := Some(SafariView(model));
    }
  }
}
