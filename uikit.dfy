/** The part of UIKit the presentation logic depends on: the chain of
    modally presented view controllers hanging off a window's root. */
module UIKit {

  datatype ModalPresentationStyle =
    | Automatic | None | FullScreen | PageSheet | FormSheet
    | CurrentContext | Custom | OverFullScreen | OverCurrentContext | Popover

  datatype ModalTransitionStyle = CoverVertical | FlipHorizontal | CrossDissolve | PartialCurl

  /** A view controller and the controller it currently presents, if any.
      `footprint` holds this controller and every controller presented
      above it; it keeps the presentation chain finite and acyclic. */
  class ViewController {
    var presentedViewController: ViewController?
    ghost var footprint: set<ViewController>

    ghost predicate Valid()
      reads this, footprint
      decreases footprint
    {
      && this in footprint
      && (presentedViewController != null ==>
            && presentedViewController in footprint
            && presentedViewController.footprint <= footprint
            && this !in presentedViewController.footprint
            && presentedViewController.Valid())
    }

    /** `sequence(first: self, next: \.presentedViewController)`: this
        controller followed by each controller presented on top of the
        previous one, ending with the one that presents nothing. */
    function PresentedChain(): (s: seq<ViewController>)
      requires Valid()
      reads this, footprint
      decreases footprint
      ensures |s| >= 1 && s[0] == this
      ensures forall i :: 0 <= i < |s| ==> s[i] in footprint
      ensures forall i :: 0 <= i < |s| - 1 ==> s[i].presentedViewController == s[i + 1]
      ensures s[|s| - 1].presentedViewController == null
    {
      if presentedViewController == null then [this]
      else [this] + presentedViewController.PresentedChain()
    }
  }

  /** A window and the controller at the root of its hierarchy. */
  class Window {
    var rootViewController: ViewController?

    ghost predicate Valid()
      reads this, rootViewController, if rootViewController != null then rootViewController.footprint else {}
    {
      rootViewController != null ==> rootViewController.Valid()
    }
  }
}
