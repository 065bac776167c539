/** `OnboardingFlowObservedModel`: the onboarding screen observed as an
    object. It can present one of two browser screens and keeps a counter. */
module OnboardingFlowObserved {
  import opened Foundation
  import Naive = NaiveSafariView
  import Safari = SafariView
  import UIKit

  /** The screen presented from onboarding, one case per screen. */
  datatype Destination =
    | NaiveSafari(naiveConfiguration: Naive.Configuration)
    | SafariView(configuration: Safari.Configuration)

  class OnboardingFlowObservedModel {
    var destination: Option<Destination>
    var counter: SwiftInt

    constructor ()
      ensures destination == None && counter == 0
      ensures NaiveSafariModel() == None && SafariViewModel() == None
    {
      destination := None;
      counter := 0;
    }

    /** Adds one; Swift traps on overflow, so callers stay below `Int.max`. */
    method Increment()
      requires counter < IntMax
      modifies this
      ensures counter == old(counter) + 1 && destination == old(destination)
    {
      counter := counter + 1;
    }

    /** Subtracts one; Swift traps on overflow, so callers stay above `Int.min`. */
    method Decrement()
      requires counter > IntMin
      modifies this
      ensures counter == old(counter) - 1 && destination == old(destination)
    {
      counter := counter - 1;
    }

    /** Non-nil exactly while the naive browser is the destination, and then
        it is that destination's payload. */
    function NaiveSafariModel(): (r: Option<Naive.Configuration>)
      reads this
      ensures r.Some? <==> destination.Some? && destination.value.NaiveSafari?
      ensures r.Some? ==> destination == Some(NaiveSafari(r.value))
    {
      match destination
      case Some(NaiveSafari(model)) => Some(model)
      case _ => None
    }

    /** Non-nil exactly while the registry-backed browser is the destination,
        and then it is that destination's payload. */
    function SafariViewModel(): (r: Option<Safari.Configuration>)
      reads this
      ensures r.Some? <==> destination.Some? && destination.value.SafariView?
      ensures r.Some? ==> destination == Some(SafariView(r.value))
    {
      match destination
      case Some(SafariView(model)) => Some(model)
      case _ => None
    }

    /** How many projections are non-nil: never more than one, and none
        exactly when nothing is presented. */
    function ActiveProjections(): (n: nat)
      reads this
      ensures n <= 1
      ensures n == 0 <==> destination.None?
    {
      (if NaiveSafariModel().Some? then 1 else 0) + (if SafariViewModel().Some? then 1 else 0)
    }

    /** Writing through `naiveSafariModel`: reading it back gives what was
        written; writing nil clears the destination whatever was presented. */
    method SetNaiveSafariModel(newValue: Option<Naive.Configuration>)
      modifies this
      ensures counter == old(counter)
      ensures destination == if newValue.Some? then Some(NaiveSafari(newValue.value)) else None
      ensures NaiveSafariModel() == newValue && SafariViewModel() == None
    {
      destination := if newValue.Some? then Some(NaiveSafari(newValue.value)) else None;
    }

    /** Writing through `safariViewModel`: reading it back gives what was
        written; writing nil clears the destination whatever was presented. */
    method SetSafariViewModel(newValue: Option<Safari.Configuration>)
      modifies this
      ensures counter == old(counter)
      ensures destination == if newValue.Some? then Some(SafariView(newValue.value)) else None
      ensures SafariViewModel() == newValue && NaiveSafariModel() == None
    {
      destination := if newValue.Some? then Some(SafariView(newValue.value)) else None;
    }

    method NaiveSafariButtonTapped()
      modifies this
      ensures counter == old(counter)
      ensures destination == Some(NaiveSafari(Naive.Configuration(GoogleUrl)))
      ensures NaiveSafariModel().Some? && SafariViewModel() == None
      ensures NaiveSafariModel().value.modalPresentationStyle == UIKit.Automatic
      ensures NaiveSafariModel().value.modalTransitionStyle == UIKit.CoverVertical
    {
      var model := Naive.Configuration(GoogleUrl);
      destination := Some(NaiveSafari(model));
    }

    method SafariViewButtonTapped()
      modifies this
      ensures counter == old(counter)
      ensures destination == Some(SafariView(Safari.Configuration(GoogleUrl)))
      ensures SafariViewModel().Some? && !SafariViewModel().value.preferModalPresentation
      ensures NaiveSafariModel() == None
    {
      var model := Safari.Configuration(GoogleUrl);
      destination := Some(SafariView(model));
    }

    method SafariViewModalButtonTapped()
      modifies this
      ensures counter == old(counter)
      ensures destination == Some(SafariView(Safari.Configuration(GoogleUrl, preferModalPresentation := true)))
      ensures SafariViewModel().Some? && SafariViewModel().value.preferModalPresentation
      ensures NaiveSafariModel() == None
    {
      var model := Safari.Configuration(GoogleUrl, preferModalPresentation := true);
      destination := Some(SafariView(model));
    }
  }

  /** Tapping "increment" and then "decrement" restores the counter and
      leaves the destination alone. */
  method IncrementThenDecrement(model: OnboardingFlowObservedModel)
    requires model.counter < IntMax
    modifies model
    ensures model.counter == old(model.counter) && model.destination == old(model.destination)
  {
    model.Increment();
    model.Decrement();
  }
}
