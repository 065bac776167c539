# NavigationExperiments in Dafny

A model of the state logic of NavigationExperiments, a small iOS app that
drives modal navigation and an in-app browser from observable models.

Two pieces are modelled.

- **Destination state machines.** `ChargeModel`, `EditModel` and the three
  onboarding models each hold one optional `destination` enum, with one case
  per screen the model can present. Each case has a projection: a getter that
  gives the case's payload or nil, and a setter that writes that case (or nil).
  The "...ButtonTapped" handlers move the machine to one case. The laws are
  proved for every model:
  - at most one projection is non-nil, and none exactly when nothing is presented;
  - reading a projection after writing it gives back what was written;
  - writing nil through any projection clears the whole destination, even when
    another case was active.
  Two onboarding models also carry an `Int` counter.
- **The `SafariView` presentation registry.** A dictionary shared by every
  `SafariView` maps each presented `Configuration` to the browser, delegate and
  configuration that were registered for it. `updatePresentation` decides what
  to do from the bound configuration and the registry entry. Entries are
  removed when a dismissal completes and when the user closes the browser
  (`resetConfiguration`). A proved consequence: the lookup is
  `configuration.flatMap { state[$0] }`, so with nothing bound it always finds
  nothing. The `(nil, entry)` dismiss row of the decision table therefore
  cannot be reached (`DismissUnreachable`). Informally, it follows that a
  browser shown by this component leaves the registry through the delegate's
  `resetConfiguration`, because no dismissal is ever requested.

The modules follow the Swift files; two extra modules stand for the platform types they use:

- `foundation.dfy`: `Option` (Swift's optional), `Url`, `SwiftInt` (64-bit `Int`), `GoogleUrl`.
- `uikit.dfy`: view controllers and their presentation chain, windows, presentation and transition styles.
- `safari_view.dfy`: `SafariView` (configuration, registry, coordinator, delegate).
- `charge.dfy`: three modules for what Charge.swift declares: `NaiveSafariView` (its `Configuration`), `WindowExtension` (`UIWindow.farthestPresentedViewController`) and `Charge` (`ChargeModel`).
- `edit.dfy`, `onboarding_flow_state.dfy`, `onboarding_flow_observable.dfy` and `onboarding_flow_observed.dfy`: the other models.

The static dictionary `SafariView.state` becomes one `PresentationRegistry`
object. Each `SafariView` receives it through its constructor, and callers
must pass every `SafariView` the same object to reproduce the single static
dictionary. Payloads that are model objects
(`EditModel`, the onboarding models) are class references, so a projection
returns the very object that was stored. Configurations compare by value.

## Model

| member | source | states |
|---|---|---|
| `UIKit.ViewController.PresentedChain` | NavigationExperiments/Charge.swift:54 | the chain starts at the controller itself, each element presents the next, and the last one presents nothing |
| `WindowExtension.FarthestPresentedViewController` | NavigationExperiments/Charge.swift:52-55 | nil exactly when the window has no root; otherwise a controller of the root's presentation chain that presents nothing |
| `SafariView.Coordinator.TopMostPresentedViewController` | NavigationExperiments/SafariView.swift:117-123 | the while loop walking `presentedViewController` returns nil without a window and otherwise exactly the window's farthest presented controller, so it agrees with `farthestPresentedViewController` |
| `SafariView.MakeSafariController` | NavigationExperiments/SafariView.swift:96-101 | the browser opens the configuration's URL, and it is full-screen-over exactly when `preferModalPresentation` is true; otherwise it keeps the automatic style |
| `SafariView.ModalIsSeparateKey` | NavigationExperiments/SafariView.swift:5-20 | `preferModalPresentation` defaults to false, so the plain and the modal configuration of one URL share the URL but are different registry keys |
| `SafariView.NewSafariViewState` | NavigationExperiments/SafariView.swift:95-106 | the registered entry's configuration, its delegate's configuration and its browser's URL all come from the presented configuration |
| `SafariView.Decide` | NavigationExperiments/SafariView.swift:82-92 | the decision table: present exactly when a configuration is bound and has no entry (presenting that configuration), dismiss exactly when nothing is bound and an entry exists (dismissing that entry), otherwise keep; `DismissUnreachable` shows the dismiss row never fires |
| `SafariView.PresenterFound` | NavigationExperiments/SafariView.swift:79 | the `guard`: a presenter exists exactly when the view is in a window whose farthest presented controller is non-nil |
| `SafariView.Lookup` | NavigationExperiments/SafariView.swift:80 | with nothing bound there is never an entry; with a bound configuration there is one exactly when the configuration is registered, and it is the stored one |
| `SafariView.Updated` | NavigationExperiments/SafariView.swift:78-93 | without a presenter, with nothing bound, or with an already registered configuration the registry is unchanged; otherwise exactly one entry is added, keyed by the configuration |
| `SafariView.DismissUnreachable` | NavigationExperiments/SafariView.swift:80-91 | for every registry and binding the decision is never "dismiss" |
| `SafariView.PresentRegistersOne` | NavigationExperiments/SafariView.swift:95-107 | presenting an unregistered configuration adds one key, grows the registry by one, stores an entry whose configuration is the key and leaves other entries as they were |
| `SafariView.UpdateIdempotent` | NavigationExperiments/SafariView.swift:87-89 | a second update with the same inputs changes nothing |
| `SafariView.RepeatedUpdatesRegisterOnce` | NavigationExperiments/SafariView.swift:53-56 | any positive number of consecutive updates gives the registry of a single update |
| `SafariView.UpdatedWellKeyed` | NavigationExperiments/SafariView.swift:102-106 | updating keeps every entry stored under its own configuration |
| `SafariView.PresentationRegistry.constructor` | NavigationExperiments/SafariView.swift:34 | the shared registry starts empty |
| `SafariView.SafariView.constructor` | NavigationExperiments/SafariView.swift:39-45 | the view keeps its binding, its `onDismiss` and the shared registry; `onDismiss` has not run |
| `SafariView.SafariView.ResetConfiguration` | NavigationExperiments/SafariView.swift:59-63 | removes exactly the given key, sets the binding to nil and runs `onDismiss` once if it exists |
| `SafariView.SafariViewControllerDidFinish` | NavigationExperiments/SafariView.swift:137-141 | closing the browser removes exactly the delegate's configuration from the registry, clears the binding and runs `onDismiss` once if it exists |
| `SafariView.Coordinator.constructor` | NavigationExperiments/SafariView.swift:73-76 | the coordinator keeps its parent view |
| `SafariView.Coordinator.PresentSafariViewController` | NavigationExperiments/SafariView.swift:95-108 | registers the new entry under the configuration (other keys unchanged) and presents that entry's browser from the given presenter |
| `SafariView.Coordinator.DismissSafariViewController` | NavigationExperiments/SafariView.swift:110-115 | asks for the dismissal of the given entry and changes no state until the completion runs |
| `SafariView.Coordinator.UpdatePresentation` | NavigationExperiments/SafariView.swift:78-93 | the registry becomes `Updated(...)` of the old one; it reports "no presenter" exactly when the window has no root; it presents exactly when a bound configuration is unregistered, from the farthest presented controller, and the presented browser is the one just registered for that configuration (its URL and style); it never requests a dismissal |
| `SafariView.Coordinator.DismissalCompleted` | NavigationExperiments/SafariView.swift:111-114 | removes exactly the entry keyed by the dismissed state's configuration |
| `Charge.ChargeModel.constructor` | NavigationExperiments/Charge.swift:101-105 | `destination` starts nil, so all three projections start nil |
| `Charge.ChargeModel.EditModel` | NavigationExperiments/Charge.swift:108 | non-nil exactly while the destination is `.edit`, and then the destination is `.edit` of the returned model |
| `Charge.ChargeModel.NaiveSafariModel` | NavigationExperiments/Charge.swift:113 | non-nil exactly while the destination is `.naiveSafari`, and then it is that payload |
| `Charge.ChargeModel.SafariViewModel` | NavigationExperiments/Charge.swift:118 | non-nil exactly while the destination is `.safariView`, and then it is that payload |
| `Charge.ChargeModel.ActiveProjections` | NavigationExperiments/Charge.swift:107-120 | at most one of the three projections is non-nil, and none exactly when the destination is nil |
| `Charge.ChargeModel.SetEditModel` | NavigationExperiments/Charge.swift:109 | get-after-set, the other projections nil, and writing nil clears the destination whatever case was active |
| `Charge.ChargeModel.SetNaiveSafariModel` | NavigationExperiments/Charge.swift:114 | get-after-set, the other projections nil, and writing nil clears the destination whatever case was active |
| `Charge.ChargeModel.SetSafariViewModel` | NavigationExperiments/Charge.swift:119 | get-after-set, the other projections nil, and writing nil clears the destination whatever case was active |
| `Charge.ChargeModel.EditButtonTapped` | NavigationExperiments/Charge.swift:122-125 | only `editModel` is non-nil, and it is a new edit model with nothing presented |
| `Charge.ChargeModel.NaiveSafariButtonTapped` | NavigationExperiments/Charge.swift:127-130 | only `naiveSafariModel` is non-nil, holding the default configuration for the fixed URL |
| `Charge.ChargeModel.SafariViewButtonTapped` | NavigationExperiments/Charge.swift:132-135 | only `safariViewModel` is non-nil, holding the fixed URL with `preferModalPresentation` false |
| `Charge.ChargeModel.SafariViewModalButtonTapped` | NavigationExperiments/Charge.swift:137-143 | only `safariViewModel` is non-nil, holding the same URL with `preferModalPresentation` true |
| `Edit.EditModel.constructor` | NavigationExperiments/Edit.swift:13-17 | `destination` starts nil and no projection is non-nil |
| `Edit.EditModel.OnboardingFlowStateModel` | NavigationExperiments/Edit.swift:20 | non-nil exactly while the destination is `.onboardingState`, and then it is that model |
| `Edit.EditModel.OnboardingFlowObservableModel` | NavigationExperiments/Edit.swift:25 | non-nil exactly while the destination is `.onboardingObservable`, and then it is that model |
| `Edit.EditModel.OnboardingFlowObservedModel` | NavigationExperiments/Edit.swift:30 | non-nil exactly while the destination is `.onboardingObserved`, and then it is that model |
| `Edit.EditModel.NaiveSafariModel` | NavigationExperiments/Edit.swift:35 | non-nil exactly while the destination is `.naiveSafari`, and then it is that payload |
| `Edit.EditModel.SafariViewModel` | NavigationExperiments/Edit.swift:40 | non-nil exactly while the destination is `.safariView`, and then it is that payload |
| `Edit.EditModel.ActiveProjections` | NavigationExperiments/Edit.swift:19-42 | at most one of the five projections is non-nil, and none exactly when the destination is nil |
| `Edit.EditModel.SetOnboardingFlowStateModel` | NavigationExperiments/Edit.swift:21 | get-after-set; exactly one projection is non-nil after a non-nil write and none after writing nil, which clears any active case |
| `Edit.EditModel.SetOnboardingFlowObservableModel` | NavigationExperiments/Edit.swift:26 | get-after-set; exactly one projection is non-nil after a non-nil write and none after writing nil, which clears any active case |
| `Edit.EditModel.SetOnboardingFlowObservedModel` | NavigationExperiments/Edit.swift:31 | get-after-set; exactly one projection is non-nil after a non-nil write and none after writing nil, which clears any active case |
| `Edit.EditModel.SetNaiveSafariModel` | NavigationExperiments/Edit.swift:36 | get-after-set; exactly one projection is non-nil after a non-nil write and none after writing nil, which clears any active case |
| `Edit.EditModel.SetSafariViewModel` | NavigationExperiments/Edit.swift:41 | get-after-set; exactly one projection is non-nil after a non-nil write and none after writing nil, which clears any active case |
| `Edit.EditModel.OnboardingFlowStateButtonTapped` | NavigationExperiments/Edit.swift:44-47 | exactly its own projection is non-nil (last write wins), holding a new flow model with nothing presented |
| `Edit.EditModel.OnboardingFlowObservableButtonTapped` | NavigationExperiments/Edit.swift:49-52 | exactly its own projection is non-nil, holding a new flow model with nothing presented and counter 0 |
| `Edit.EditModel.OnboardingFlowObservedButtonTapped` | NavigationExperiments/Edit.swift:54-57 | exactly its own projection is non-nil, holding a new flow model with nothing presented and counter 0 |
| `Edit.EditModel.NaiveSafariButtonTapped` | NavigationExperiments/Edit.swift:59-62 | exactly `naiveSafariModel` is non-nil, holding the default configuration for the fixed URL |
| `Edit.EditModel.SafariViewButtonTapped` | NavigationExperiments/Edit.swift:64-67 | exactly `safariViewModel` is non-nil, with `preferModalPresentation` false |
| `Edit.EditModel.SafariViewModalButtonTapped` | NavigationExperiments/Edit.swift:69-75 | exactly `safariViewModel` is non-nil, same URL with `preferModalPresentation` true |
| `OnboardingFlowObserved.OnboardingFlowObservedModel.constructor` | NavigationExperiments/OnboardingFlowObserved.swift:10-15 | `destination` nil and `counter` 0 |
| `OnboardingFlowObserved.OnboardingFlowObservedModel.Increment` | NavigationExperiments/OnboardingFlowObserved.swift:17-19 | adds exactly 1 (below `Int.max`) and leaves `destination` alone |
| `OnboardingFlowObserved.OnboardingFlowObservedModel.Decrement` | NavigationExperiments/OnboardingFlowObserved.swift:21-23 | subtracts exactly 1 (above `Int.min`) and leaves `destination` alone |
| `OnboardingFlowObserved.IncrementThenDecrement` | NavigationExperiments/OnboardingFlowObserved.swift:17-23 | increment then decrement restores `counter` and `destination` |
| `OnboardingFlowObserved.OnboardingFlowObservedModel.NaiveSafariModel` | NavigationExperiments/OnboardingFlowObserved.swift:26 | non-nil exactly while the destination is `.naiveSafari`, and then it is that payload |
| `OnboardingFlowObserved.OnboardingFlowObservedModel.SafariViewModel` | NavigationExperiments/OnboardingFlowObserved.swift:31 | non-nil exactly while the destination is `.safariView`, and then it is that payload |
| `OnboardingFlowObserved.OnboardingFlowObservedModel.ActiveProjections` | NavigationExperiments/OnboardingFlowObserved.swift:25-33 | at most one of the two projections is non-nil, and none exactly when the destination is nil |
| `OnboardingFlowObserved.OnboardingFlowObservedModel.SetNaiveSafariModel` | NavigationExperiments/OnboardingFlowObserved.swift:27 | get-after-set, the other projection nil, nil clears the destination; `counter` unchanged |
| `OnboardingFlowObserved.OnboardingFlowObservedModel.SetSafariViewModel` | NavigationExperiments/OnboardingFlowObserved.swift:32 | get-after-set, the other projection nil, nil clears the destination; `counter` unchanged |
| `OnboardingFlowObserved.OnboardingFlowObservedModel.NaiveSafariButtonTapped` | NavigationExperiments/OnboardingFlowObserved.swift:35-38 | only `naiveSafariModel` is non-nil, with the default styles; `counter` unchanged |
| `OnboardingFlowObserved.OnboardingFlowObservedModel.SafariViewButtonTapped` | NavigationExperiments/OnboardingFlowObserved.swift:40-43 | only `safariViewModel` is non-nil, not modal; `counter` unchanged |
| `OnboardingFlowObserved.OnboardingFlowObservedModel.SafariViewModalButtonTapped` | NavigationExperiments/OnboardingFlowObserved.swift:45-51 | only `safariViewModel` is non-nil, modal; `counter` unchanged |
| `OnboardingFlowState.OnboardingFlowStateModel.constructor` | NavigationExperiments/OnboardingFlowState.swift:10-14 | `destination` starts nil and both projections are nil |
| `OnboardingFlowState.OnboardingFlowStateModel.NaiveSafariModel` | NavigationExperiments/OnboardingFlowState.swift:17 | non-nil exactly while the destination is `.naiveSafari`, and then it is that payload |
| `OnboardingFlowState.OnboardingFlowStateModel.SafariViewModel` | NavigationExperiments/OnboardingFlowState.swift:22 | non-nil exactly while the destination is `.safariView`, and then it is that payload |
| `OnboardingFlowState.OnboardingFlowStateModel.ActiveProjections` | NavigationExperiments/OnboardingFlowState.swift:16-24 | at most one of the two projections is non-nil, and none exactly when the destination is nil |
| `OnboardingFlowState.OnboardingFlowStateModel.SetNaiveSafariModel` | NavigationExperiments/OnboardingFlowState.swift:18 | get-after-set, the other projection nil, and writing nil clears the destination whatever case was active |
| `OnboardingFlowState.OnboardingFlowStateModel.SetSafariViewModel` | NavigationExperiments/OnboardingFlowState.swift:23 | get-after-set, the other projection nil, and writing nil clears the destination whatever case was active |
| `OnboardingFlowState.OnboardingFlowStateModel.NaiveSafariButtonTapped` | NavigationExperiments/OnboardingFlowState.swift:26-29 | `naiveSafariModel` non-nil with the default styles, `safariViewModel` nil |
| `OnboardingFlowState.OnboardingFlowStateModel.SafariViewButtonTapped` | NavigationExperiments/OnboardingFlowState.swift:31-34 | only `safariViewModel` is non-nil, with `preferModalPresentation` false |
| `OnboardingFlowState.OnboardingFlowStateModel.SafariViewModalButtonTapped` | NavigationExperiments/OnboardingFlowState.swift:36-42 | only `safariViewModel` is non-nil, same URL with `preferModalPresentation` true |
| `OnboardingFlowObservable.OnboardingFlowObservableModel.constructor` | NavigationExperiments/OnboardingFlowObservable.swift:11-16 | `destination` nil and `counter` 0 |
| `OnboardingFlowObservable.OnboardingFlowObservableModel.NaiveSafariModel` | NavigationExperiments/OnboardingFlowObservable.swift:19 | non-nil exactly while the destination is `.naiveSafari`, and then it is that payload |
| `OnboardingFlowObservable.OnboardingFlowObservableModel.SafariViewModel` | NavigationExperiments/OnboardingFlowObservable.swift:24 | non-nil exactly while the destination is `.safariView`, and then it is that payload |
| `OnboardingFlowObservable.OnboardingFlowObservableModel.ActiveProjections` | NavigationExperiments/OnboardingFlowObservable.swift:18-26 | at most one of the two projections is non-nil, and none exactly when the destination is nil |
| `OnboardingFlowObservable.OnboardingFlowObservableModel.SetNaiveSafariModel` | NavigationExperiments/OnboardingFlowObservable.swift:20 | get-after-set, the other projection nil, nil clears the destination; `counter` unchanged |
| `OnboardingFlowObservable.OnboardingFlowObservableModel.SetSafariViewModel` | NavigationExperiments/OnboardingFlowObservable.swift:25 | get-after-set, the other projection nil, nil clears the destination; `counter` unchanged |
| `OnboardingFlowObservable.OnboardingFlowObservableModel.NaiveSafariButtonTapped` | NavigationExperiments/OnboardingFlowObservable.swift:28-31 | only `naiveSafariModel` is non-nil, with the default styles; `counter` unchanged |
| `OnboardingFlowObservable.OnboardingFlowObservableModel.SafariViewButtonTapped` | NavigationExperiments/OnboardingFlowObservable.swift:33-36 | only `safariViewModel` is non-nil, not modal; `counter` unchanged |
| `OnboardingFlowObservable.OnboardingFlowObservableModel.SafariViewModalButtonTapped` | NavigationExperiments/OnboardingFlowObservable.swift:38-44 | only `safariViewModel` is non-nil, modal; `counter` unchanged |
| `OnboardingFlowObservable.OnboardingFlowObservableView.constructor` | NavigationExperiments/OnboardingFlowObservable.swift:49 | the view owns a new model with nothing presented and counter 0 |
| `OnboardingFlowObservable.OnboardingFlowObservableView.IncrementTapped` | NavigationExperiments/OnboardingFlowObservable.swift:56 | `model.counter += 1` adds exactly 1 (below `Int.max`) and leaves `destination` alone |
| `OnboardingFlowObservable.OnboardingFlowObservableView.DecrementTapped` | NavigationExperiments/OnboardingFlowObservable.swift:60 | `model.counter -= 1` subtracts exactly 1 (above `Int.min`) and leaves `destination` alone |
| `OnboardingFlowObservable.OnboardingFlowObservableView.IncrementThenDecrement` | NavigationExperiments/OnboardingFlowObservable.swift:56-60 | the two buttons undo each other and leave `destination` alone |

## Left out

- SwiftUI views, modifiers, toolbars, previews and the app entry point: they compose screens and hold no state logic. This includes the `@State counter` of `EditView` and `OnboardingFlowStateView`, which is view-local state.
- UIKit and SafariServices side effects are not modelled as such. Presenting the browser is reported as a `Presented` event, asking for a dismissal as a `DismissRequested` event. The completion of a dismissal is the separate method `DismissalCompleted`. The user closing the browser is `SafariViewControllerDidFinish`.
- The optional `completion` of `dismissSafariViewController` is always nil at its one call site, so it is not modelled.
- `DispatchQueue.main.async` and main-actor isolation: every call is treated as sequential, and `updateUIView` is modelled as a direct call to `UpdatePresentation`.
- The hosting `UIView` is represented only by its window (`view.window`), the one thing `topMostPresentedViewController` reads.
- The `@Binding` configuration is a stored field of the `SafariView` object. Its write-back into the owning model's `safariViewModel` setter is not linked. The setters' contracts say what such a write of nil does.
- That all `SafariView` objects share one `PresentationRegistry` is a caller obligation (each view gets it through its constructor), not something the model enforces as the static `SafariView.state` does.
- `onDismiss` is modelled by whether it exists and how often it has run. What the closure does is not modelled.
- `Coordinator.parent` and `Delegate.parent` are copies of the `SafariView` struct in Swift. Here they reference one `SafariView` object. Both copies share the same binding and the same static registry, so nothing observable is lost.
- `SFSafariViewController` and the delegate object are values (URL, presentation style, delegate). Their identity as objects is not modelled.
- `Identifiable.id` as `hashValue`: hashing is not modelled. Configurations are compared by value, as `Hashable` equality does.
- `URL(string:)!` parsing: URLs are opaque values.
- `Color.random`, `print` and `_printChanges`: debugging output.
- `NaiveSafariView` (the view), `SwiftUISafariViewController` and `RepresentedSafariViewController`: thin wrappers over the platform browser with empty update methods. Only `NaiveSafariView.Configuration` and its default styles are modelled.
- `Increment`, `Decrement`, `IncrementTapped` and `DecrementTapped` require that the counter stays within Swift's 64-bit `Int`. The app traps on overflow instead.
