/** `OnboardingFlowStateModel`: the onboarding screen owned through an
    explicit state property. It can present one of two browser screens. */
module OnboardingFlowState {
  import opened Foundation
  import Naive = NaiveSafariView
  import Safari = SafariView
  import UIKit

  /** The screen presented from onboarding, one case per screen. */
  datatype Destination =
    | NaiveSafari(naiveConfiguration: Naive.Configuration)
    | SafariView(configuration: Safari.Configuration)

  class OnboardingFlowStateModel {
    var destination: Option<Destination>

    constructor ()
      ensures destination == None
      ensures NaiveSafariModel() == None && SafariViewModel() == None
    {
      destination := None;
    }

    /** Non-nil exactly while the naive browser is the destination, and then
        it is that destination's payload. */
    function NaiveSafariModel(): (r: Option<Naive.Configuration>)
      reads this
      ensures r.Some? <==> destination.Some? && destination.value.NaiveSafari?
      ensures r.Some? ==> destination == Some(NaiveSafari(r.value))
    {
      match destination
      case Some(NaiveSafari(model)) => Some(model)
      case _ => None
    }

    /** Non-nil exactly while the registry-backed browser is the destination,
        and then it is that destination's payload. */
    function SafariViewModel(): (r: Option<Safari.Configuration>)
      reads this
      ensures r.Some? <==> destination.Some? && destination.value.SafariView?
      ensures r.Some? ==> destination == Some(SafariView(r.value))
    {
      match destination
      case Some(SafariView(model)) => Some(model)
      case _ => None
    }

    /** How many projections are non-nil: never more than one, and none
        exactly when nothing is presented. */
    function ActiveProjections(): (n: nat)
      reads this
      ensures n <= 1
      ensures n == 0 <==> destination.None?
    {
      (if NaiveSafariModel().Some? then 1 else 0) + (if SafariViewModel().Some? then 1 else 0)
    }

    /** Writing through `naiveSafariModel`: reading it back gives what was
        written; writing nil clears the destination whatever was presented. */
    method SetNaiveSafariModel(newValue: Option<Naive.Configuration>)
      modifies this
      ensures destination == if newValue.Some? then Some(NaiveSafari(newValue.value)) else None
      ensures NaiveSafariModel() == newValue && SafariViewModel() == None
    {
      destination := if newValue.Some? then Some(NaiveSafari(newValue.value)) else None;
    }

    /** Writing through `safariViewModel`: reading it back gives what was
        written; writing nil clears the destination whatever was presented. */
    method SetSafariViewModel(newValue: Option<Safari.Configuration>)
      modifies this
      ensures destination == if newValue.Some? then Some(SafariView(newValue.value)) else None
      ensures SafariViewModel() == newValue && NaiveSafariModel() == None
    {
      destination := if newValue.Some? then Some(SafariView(newValue.value)) else None;
    }

    method NaiveSafariButtonTapped()
      modifies this
      ensures destination == Some(NaiveSafari(Naive.Configuration(GoogleUrl)))
      ensures NaiveSafariModel().Some? && SafariViewModel() == None
      ensures NaiveSafariModel().value.modalPresentationStyle == UIKit.Automatic
      ensures NaiveSafariModel().value.modalTransitionStyle == UIKit.CoverVertical
    {
      var model := Naive.Configuration(GoogleUrl);
      destination := Some(NaiveSafari(model));
    }

    method SafariViewButtonTapped()
      modifies this
      ensures destination == Some(SafariView(Safari.Configuration(GoogleUrl)))
      ensures SafariViewModel().Some? && !SafariViewModel().value.preferModalPresentation
      ensures NaiveSafariModel() == None
    {
      var model := Safari.Configuration(GoogleUrl);
      destination := Some(SafariView(model));
    }

    method SafariViewModalButtonTapped()
      modifies this
      ensures destination == Some(SafariView(Safari.Configuration(GoogleUrl, preferModalPresentation := true)))
      ensures SafariViewModel().Some? && SafariViewModel().value.preferModalPresentation
      ensures NaiveSafariModel() == None
    {
      var model := Safari.Configuration(GoogleUrl, preferModalPresentation := true);
      destination := Some(SafariView(model));
    }
  }
}
