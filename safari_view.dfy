/** `SafariView`: presents the system browser over the current screen while a
    bound configuration is non-nil, and remembers each presented browser in a
    registry shared by every `SafariView`, keyed by configuration. */
module SafariView {
  import opened Foundation
  import UIKit
  import WindowExtension

  /** What to show; two configurations are the same key exactly when their
      URLs and their `preferModalPresentation` flags are equal. */
  datatype Configuration = Configuration(url: Url, preferModalPresentation: bool := false)

  /** The delegate handed to the browser: the view it reports back to and the
      configuration it was created for. */
  datatype Delegate = Delegate(parent: SafariView, configuration: Configuration)

  /** An `SFSafariViewController` as this component sets it up. */
  datatype SafariController = SafariController(
    url: Url,
    modalPresentationStyle: UIKit.ModalPresentationStyle,
    delegate: Delegate)

  /** A registry entry: the browser on screen, its delegate and its configuration. */
  datatype SafariViewState = SafariViewState(
    safariViewController: SafariController,
    delegate: Delegate,
    configuration: Configuration)

  type Registry = map<Configuration, SafariViewState>

  /** The browser created for `configuration`: it opens the configuration's
      URL, and it covers the whole screen exactly when modal presentation is
      preferred; otherwise it keeps the platform's automatic style. */
  function MakeSafariController(configuration: Configuration, delegate: Delegate): (vc: SafariController)
    ensures vc.url == configuration.url && vc.delegate == delegate
    ensures vc.modalPresentationStyle == UIKit.OverFullScreen <==> configuration.preferModalPresentation
    ensures !configuration.preferModalPresentation ==> vc.modalPresentationStyle == UIKit.Automatic
  {
    var style := if configuration.preferModalPresentation then UIKit.OverFullScreen else UIKit.Automatic;
    SafariController(configuration.url, style, delegate)
  }

  /** The entry registered when `configuration` is presented on behalf of `parent`. */
  function NewSafariViewState(parent: SafariView, configuration: Configuration): (s: SafariViewState)
    ensures s.configuration == configuration && s.delegate.configuration == configuration
    ensures s.delegate.parent == parent && s.safariViewController.delegate == s.delegate
    ensures s.safariViewController.url == configuration.url
  {
    var delegate := Delegate(parent, configuration);
    SafariViewState(MakeSafariController(configuration, delegate), delegate, configuration)
  }

  /** Every entry is stored under its own configuration, and its browser and
      delegate were made for that configuration. */
  ghost predicate WellKeyed(registry: Registry) {
    forall c :: c in registry ==>
      && registry[c].configuration == c
      && registry[c].delegate.configuration == c
      && registry[c].safariViewController.delegate == registry[c].delegate
      && registry[c].safariViewController.url == c.url
  }

  /** `configuration.flatMap { state[$0] }`: the entry for a bound
      configuration; never an entry when nothing is bound. */
  function Lookup(registry: Registry, configuration: Option<Configuration>): (r: Option<SafariViewState>)
    ensures configuration.None? ==> r.None?
    ensures configuration.Some? ==> (r.Some? <==> configuration.value in registry)
    ensures r.Some? ==> configuration.Some? && r.value == registry[configuration.value]
  {
    match configuration
    case None => None
    case Some(c) => if c in registry then Some(registry[c]) else None
  }

  /** What `updatePresentation` does, given the binding and the registry entry. */
  datatype Action = Present(configuration: Configuration) | Dismiss(safariViewState: SafariViewState) | Keep

  function Decide(configuration: Option<Configuration>, existing: Option<SafariViewState>): (a: Action)
    ensures a.Present? <==> configuration.Some? && existing.None?
    ensures a.Present? ==> a.configuration == configuration.value
    ensures a.Dismiss? <==> configuration.None? && existing.Some?
    ensures a.Dismiss? ==> a.safariViewState == existing.value
  {
    match (configuration, existing)
    case (Some(c), None) => Present(c)
    case (None, Some(s)) => Dismiss(s)
    // Changing the configuration of a browser on screen is not supported.
    case (Some(_), Some(_)) => Keep
    case (None, None) => Keep
  }

  /** The registry after `updatePresentation`. A dismissal changes nothing
      here: its entry goes only when the dismissal completes. */
  function Updated(registry: Registry, parent: SafariView, presenterFound: bool, configuration: Option<Configuration>): (r: Registry)
    ensures !presenterFound ==> r == registry
    ensures configuration.None? ==> r == registry
    ensures configuration.Some? && configuration.value in registry ==> r == registry
    ensures presenterFound && configuration.Some? && configuration.value !in registry ==>
      r == registry[configuration.value := NewSafariViewState(parent, configuration.value)]
  {
    if !presenterFound then registry
    else match Decide(configuration, Lookup(registry, configuration))
      case Present(c) => registry[c := NewSafariViewState(parent, c)]
      case Dismiss(_) => registry
      case Keep => registry
  }

  /** The decision never asks for a dismissal: with nothing bound the lookup
      finds no entry, so the `(nil, entry)` row of the table cannot be reached. */
  lemma DismissUnreachable(registry: Registry, configuration: Option<Configuration>)
    ensures !Decide(configuration, Lookup(registry, configuration)).Dismiss?
  {
  }

  /** Presenting a configuration that is not registered yet adds exactly one
      entry, under that configuration, and leaves every other entry alone. */
  lemma PresentRegistersOne(registry: Registry, parent: SafariView, c: Configuration)
    requires c !in registry
    ensures Updated(registry, parent, true, Some(c)).Keys == registry.Keys + {c}
    ensures |Updated(registry, parent, true, Some(c))| == |registry| + 1
    ensures Updated(registry, parent, true, Some(c))[c].configuration == c
    ensures forall k :: k in registry ==> Updated(registry, parent, true, Some(c))[k] == registry[k]
  {
  }

  /** Updating twice with the same inputs is updating once. */
  lemma UpdateIdempotent(registry: Registry, parent: SafariView, presenterFound: bool, configuration: Option<Configuration>)
    ensures var once := Updated(registry, parent, presenterFound, configuration);
      Updated(once, parent, presenterFound, configuration) == once
  {
  }

  /** SwiftUI calls `updateUIView` repeatedly; `n` consecutive updates. */
  function UpdatedTimes(registry: Registry, parent: SafariView, presenterFound: bool, configuration: Option<Configuration>, n: nat): Registry
  {
    if n == 0 then registry
    else Updated(UpdatedTimes(registry, parent, presenterFound, configuration, n - 1), parent, presenterFound, configuration)
  }

  /** However often the view is updated, a configuration is registered once:
      any positive number of updates leaves the registry of a single one. */
  lemma {:induction false} RepeatedUpdatesRegisterOnce(
    registry: Registry, parent: SafariView, presenterFound: bool, configuration: Option<Configuration>, n: nat)
    requires n >= 1
    ensures UpdatedTimes(registry, parent, presenterFound, configuration, n) == Updated(registry, parent, presenterFound, configuration)
  {
    if n > 1 {
      RepeatedUpdatesRegisterOnce(registry, parent, presenterFound, configuration, n - 1);
      UpdateIdempotent(registry, parent, presenterFound, configuration);
    }
  }

  /** Updating keeps every entry under its own configuration. */
  lemma UpdatedWellKeyed(registry: Registry, parent: SafariView, presenterFound: bool, configuration: Option<Configuration>)
    requires WellKeyed(registry)
    ensures WellKeyed(Updated(registry, parent, presenterFound, configuration))
  {
  }

  /** The plain and the modal browser for one URL are two different keys. */
  lemma ModalIsSeparateKey(url: Url)
    ensures Configuration(url) != Configuration(url, preferModalPresentation := true)
    ensures Configuration(url).url == Configuration(url, preferModalPresentation := true).url
    ensures !Configuration(url).preferModalPresentation
  {
  }

  /** The static `SafariView.state`: one object every `SafariView` shares. */
  class PresentationRegistry {
    var state: Registry

    ghost predicate Valid()
      reads this
    {
      WellKeyed(state)
    }

    constructor ()
      ensures Valid() && state == map[]
    {
      state := map[];
    }
  }

  /** The view: the bound configuration, the optional `onDismiss` callback
      (how often it has run), and the shared registry. */
  class SafariView {
    const registry: PresentationRegistry
    var configuration: Option<Configuration>
    const hasOnDismiss: bool
    var onDismissCalls: nat

    constructor (registry: PresentationRegistry, configuration: Option<Configuration>, hasOnDismiss: bool)
      ensures this.registry == registry && this.configuration == configuration
      ensures this.hasOnDismiss == hasOnDismiss && onDismissCalls == 0
    {
      this.registry := registry;
      this.configuration := configuration;
      this.hasOnDismiss := hasOnDismiss;
      onDismissCalls := 0;
    }

    /** Forget the browser for `configuration`, clear the binding and run
        `onDismiss` once if there is one. */
    method ResetConfiguration(configuration: Configuration)
      requires registry.Valid()
      modifies this, registry
      ensures registry.Valid()
      ensures registry.state == old(registry.state) - {configuration}
      ensures this.configuration == None
      ensures onDismissCalls == old(onDismissCalls) + (if hasOnDismiss then 1 else 0)
    {
      registry.state := registry.state - {configuration};
      this.configuration := None;
      if hasOnDismiss {
        onDismissCalls := onDismissCalls + 1;
      }
    }
  }

  /** `safariViewControllerDidFinish`: the user closed the browser. */
  method SafariViewControllerDidFinish(delegate: Delegate)
    requires delegate.parent.registry.Valid()
    modifies delegate.parent, delegate.parent.registry
    ensures delegate.parent.registry.Valid()
    ensures delegate.parent.registry.state == old(delegate.parent.registry.state) - {delegate.configuration}
    ensures delegate.parent.configuration == None
    ensures delegate.parent.onDismissCalls
      == old(delegate.parent.onDismissCalls) + (if delegate.parent.hasOnDismiss then 1 else 0)
  {
    delegate.parent.ResetConfiguration(delegate.configuration);
  }

  /** What an update did, in the terms of the UIKit calls it makes. */
  datatype Event =
    | NoPresenter
    | Presented(presenter: UIKit.ViewController, safariViewController: SafariController)
    | DismissRequested(safariViewState: SafariViewState)
    | Unchanged

  /** The `guard` of `updatePresentation`: there is a controller to present
      from exactly when the view is in a window whose chain has a top. */
  function PresenterFound(window: UIKit.Window?): (found: bool)
    requires window != null ==> window.Valid()
    reads window
    reads if window != null then {window.rootViewController} else {}
    reads if window != null && window.rootViewController != null then window.rootViewController.footprint else {}
    ensures found <==> window != null && WindowExtension.FarthestPresentedViewController(window) != null
  {
    window != null && window.rootViewController != null
  }

  class Coordinator {
    const parent: SafariView

    constructor (parent: SafariView)
      ensures this.parent == parent
    {
      this.parent := parent;
    }

    /** The controller to present from: walk up the presentation chain of
        the view's window to the controller that presents nothing. */
    method TopMostPresentedViewController(window: UIKit.Window?) returns (r: UIKit.ViewController?)
      requires window != null ==> window.Valid()
      ensures window == null ==> r == null
      ensures window != null ==> r == WindowExtension.FarthestPresentedViewController(window)
    {
      if window == null || window.rootViewController == null {
        return null;
      }
      var current := window.rootViewController;
      ghost var chain := current.PresentedChain();
      ghost var i := 0;
      while current.presentedViewController != null
        invariant 0 <= i < |chain| && current == chain[i]
        invariant current.presentedViewController == if i < |chain| - 1 then chain[i + 1] else null
        decreases |chain| - i
      {
        current := current.presentedViewController;
        i := i + 1;
      }
      return current;
    }

    /** Create the browser and its delegate, register them under
        `configuration`, and present the browser from `presenter`. */
    method PresentSafariViewController(presenter: UIKit.ViewController, configuration: Configuration) returns (event: Event)
      requires parent.registry.Valid()
      modifies parent.registry
      ensures parent.registry.Valid()
      ensures parent.registry.state == old(parent.registry.state)[configuration := NewSafariViewState(parent, configuration)]
      ensures event == Presented(presenter, parent.registry.state[configuration].safariViewController)
    {
      var delegate := Delegate(parent, configuration);
      var safariViewController := MakeSafariController(configuration, delegate);
      parent.registry.state := parent.registry.state[configuration := SafariViewState(safariViewController, delegate, configuration)];
      event := Presented(presenter, safariViewController);
    }

    /** Ask the browser to go away. Nothing is forgotten yet: the entry is
        removed only when the dismissal completes (`DismissalCompleted`). */
    method DismissSafariViewController(safariViewState: SafariViewState) returns (event: Event)
      ensures event.DismissRequested? && event.safariViewState == safariViewState
    {
      event := DismissRequested(safariViewState);
    }

    /** Bring the screen in line with the binding: present and register a
        newly bound configuration; otherwise change nothing. */
    method UpdatePresentation(window: UIKit.Window?, configuration: Option<Configuration>) returns (event: Event)
      requires window != null ==> window.Valid()
      requires parent.registry.Valid()
      modifies parent.registry
      ensures parent.registry.Valid()
      ensures parent.registry.state == Updated(old(parent.registry.state), parent, PresenterFound(window), configuration)
      ensures event.NoPresenter? <==> !PresenterFound(window)
      ensures event.Presented? <==> PresenterFound(window) && Lookup(old(parent.registry.state), configuration).None? && configuration.Some?
      ensures event.Presented? ==> event.presenter == WindowExtension.FarthestPresentedViewController(window)
      ensures event.Presented? ==>
        && configuration.Some?
        && event.safariViewController == parent.registry.state[configuration.value].safariViewController
      ensures !event.DismissRequested?
    {
      var presenter := TopMostPresentedViewController(window);
      if presenter == null {
        return NoPresenter;
      }
      var safariViewState := Lookup(parent.registry.state, configuration);
      match Decide(configuration, safariViewState)
      case Present(c) =>
        event := PresentSafariViewController(presenter, c);
      case Dismiss(s) =>
        assert false;
        event := DismissSafariViewController(s);
      case Keep =>
        event := Unchanged;
    }

    /** The completion of a dismissal: forget the dismissed browser. */
    method DismissalCompleted(safariViewState: SafariViewState)
      requires parent.registry.Valid()
      modifies parent.registry
      ensures parent.registry.Valid()
      ensures parent.registry.state == old(parent.registry.state) - {safariViewState.configuration}
    {
      parent.registry.state := parent.registry.state - {safariViewState.configuration};
    }
  }
}
