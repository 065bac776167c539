/** `NaiveSafariView.Configuration`: the value a full-screen cover is keyed by
    when the browser is shown through SwiftUI's own presentation. */
module NaiveSafariView {
  import opened Foundation
  import UIKit

  datatype Configuration = Configuration(
    url: Url,
    modalPresentationStyle: UIKit.ModalPresentationStyle := UIKit.Automatic,
    modalTransitionStyle: UIKit.ModalTransitionStyle := UIKit.CoverVertical)
}

/** `UIWindow.farthestPresentedViewController`. */
module WindowExtension {
  import UIKit

  /** The controller presented modally on top of everything else in the
      window: the last controller of the root's presentation chain, or nil
      when the window has no root. */
  function FarthestPresentedViewController(window: UIKit.Window): (r: UIKit.ViewController?)
    requires window.Valid()
    reads window, window.rootViewController
    reads if window.rootViewController != null then window.rootViewController.footprint else {}
    ensures r == null <==> window.rootViewController == null
    ensures r != null ==> r in window.rootViewController.PresentedChain()
    ensures r != null ==> r.presentedViewController == null
  {
    if window.rootViewController == null then null
    else
      var chain := window.rootViewController.PresentedChain();
      chain[|chain| - 1]
  }
}

/** `ChargeModel`: the charge screen. It can present the edit screen or one
    of two browser screens. */
module Charge {
  import opened Foundation
  import Naive = NaiveSafariView
  import Safari = SafariView
  import EditScreen = Edit

  /** The screen presented from the charge screen, one case per screen. */
  datatype Destination =
    | Edit(editModel: EditScreen.EditModel)
    | NaiveSafari(naiveConfiguration: Naive.Configuration)
    | SafariView(configuration: Safari.Configuration)

  class ChargeModel {
    var destination: Option<Destination>

    constructor ()
      ensures destination == None
      ensures EditModel() == None && NaiveSafariModel() == None && SafariViewModel() == None
    {
      destination := None;
    }

    /** Each projection is non-nil exactly while its own case is the
        destination, and then it is that case's payload. */
    function EditModel(): (r: Option<EditScreen.EditModel>)
      reads this
      ensures r.Some? <==> destination.Some? && destination.value.Edit?
      ensures r.Some? ==> destination == Some(Edit(r.value))
    {
      match destination
      case Some(Edit(model)) => Some(model)
      case _ => None
    }

    function NaiveSafariModel(): (r: Option<Naive.Configuration>)
      reads this
      ensures r.Some? <==> destination.Some? && destination.value.NaiveSafari?
      ensures r.Some? ==> destination == Some(NaiveSafari(r.value))
    {
      match destination
      case Some(NaiveSafari(model)) => Some(model)
      case _ => None
    }

    function SafariViewModel(): (r: Option<Safari.Configuration>)
      reads this
      ensures r.Some? <==> destination.Some? && destination.value.SafariView?
      ensures r.Some? ==> destination == Some(SafariView(r.value))
    {
      match destination
      case Some(SafariView(model)) => Some(model)
      case _ => None
    }

    /** How many of the three projections are non-nil: never more than one,
        and none exactly when nothing is presented. */
    function ActiveProjections(): (n: nat)
      reads this
      ensures n <= 1
      ensures n == 0 <==> destination.None?
    {
      (if EditModel().Some? then 1 else 0)
      + (if NaiveSafariModel().Some? then 1 else 0)
      + (if SafariViewModel().Some? then 1 else 0)
    }

    /** The three setters: reading back gives what was written, no other
        projection is non-nil, and writing nil clears the destination
        whatever case was active. */
    method SetEditModel(newValue: Option<EditScreen.EditModel>)
      modifies this
      ensures destination == if newValue.Some? then Some(Edit(newValue.value)) else None
      ensures EditModel() == newValue && NaiveSafariModel() == None && SafariViewModel() == None
    {
      destination := if newValue.Some? then Some(Edit(newValue.value)) else None;
    }

    method SetNaiveSafariModel(newValue: Option<Naive.Configuration>)
      modifies this
      ensures destination == if newValue.Some? then Some(NaiveSafari(newValue.value)) else None
      ensures NaiveSafariModel() == newValue && EditModel() == None && SafariViewModel() == None
    {
      destination := if newValue.Some? then Some(NaiveSafari(newValue.value)) else None;
    }

    method SetSafariViewModel(newValue: Option<Safari.Configuration>)
      modifies this
      ensures destination == if newValue.Some? then Some(SafariView(newValue.value)) else None
      ensures SafariViewModel() == newValue && EditModel() == None && NaiveSafariModel() == None
    {
      destination := if newValue.Some? then Some(SafariView(newValue.value)) else None;
    }

    /** The four tap handlers: each replaces whatever was presented with its
        own screen. */
    method EditButtonTapped()
      modifies this
      ensures EditModel().Some? && NaiveSafariModel() == None && SafariViewModel() == None
      ensures fresh(destination.value.editModel) && destination.value.editModel.destination == None
    {
      var model := new EditScreen.EditModel();
      destination := Some(Edit(model));
    }

    method NaiveSafariButtonTapped()
      modifies this
      ensures destination == Some(NaiveSafari(Naive.Configuration(GoogleUrl)))
      ensures NaiveSafariModel().Some? && EditModel() == None && SafariViewModel() == None
    {
      var model := Naive.Configuration(GoogleUrl);
      destination := Some(NaiveSafari(model));
    }

    method SafariViewButtonTapped()
      modifies this
      ensures destination == Some(SafariView(Safari.Configuration(GoogleUrl)))
      ensures SafariViewModel().Some? && !SafariViewModel().value.preferModalPresentation
      ensures EditModel() == None && NaiveSafariModel() == None
    {
      var model := Safari.Configuration(GoogleUrl);
      destination := Some(SafariView(model));
    }

    method SafariViewModalButtonTapped()
      modifies this
      ensures destination == Some(SafariView(Safari.Configuration(GoogleUrl, preferModalPresentation := true)))
      ensures SafariViewModel().Some? && SafariViewModel().value.preferModalPresentation
      ensures EditModel() == None && NaiveSafariModel() == None
    {
      var model := Safari.Configuration(GoogleUrl, preferModalPresentation := true);
      destination := Some(SafariView(model));
    }
  }
}
