# Alpha Experience: reducer store and application state machine

This project is a Dafny model of the small core of a browser presentation. The
presentation has a start screen and a media screen, plays a two-tone audio
signal and shows a pulsing overlay. Two pieces are modelled:

- **The reducer store** (`createStore`, module `RxjsUtils`, file `store.dfy`).
  A BehaviorSubject of reducers is seeded with the identity reducer.
  `state$` folds the reducers over `initialState` with `scan`. Each step goes
  through immer's `produce`, and `distinctUntilChanged` drops repeats.
  `dispatch` pushes a reducer into the subject.
  - The store is a class. It holds the subject's latest reducer and, for each
    subscription, its own `scan` accumulator, the last value passed on, and
    whether it is still open.
  - Ghost fields record what was dispatched and what each subscription
    received. `Valid()` ties them to the functions `Fold`, `Scan` and
    `Distinct`.
  - The pipeline is cold, and the subject replays only its latest reducer. So
    a subscription that joins late starts from that one reducer applied to
    `initialState`. `LateSubscriberScenario` shows this on a counter.
- **The application** (module `App`, file `app.dfy`).
  - The `IState` record and the fixed initial state.
  - The three reducers `pauseMedia`, `playMedia` and `backToStartScreen`. Each
    is a method that assigns fields of a `Draft` object in place. Each is also
    a pure `Transition` that the store folds.
  - The invariant `isPlaying ⇒ screen == media`.
  - Which page renders for a state, and which reducer each button dispatches.
  - `AudioPlayer`'s subscriber. It keeps `prevState` and writes the gain.

A reducer is modelled as a function from the draft's contents and the
read-only prior state to the draft's contents once the reducer has finished.
`Produce(base, r)` is `r(base, base)`: the draft starts as a copy of `base`,
and the reducer gets both the draft and `base`. Snapshots are datatype values,
so no reducer can change an earlier snapshot. `ApplyReducer` does a step on a
freshly allocated `Draft` with no `modifies` clause, so the step changes no
object that already exists.

Two consequences of the code are worth stating:

- A new subscriber does not get the snapshot the other subscribers hold. It
  gets the latest reducer applied to `initialState` (src/rxjsUtils.ts:16-24).
  `RxjsUtils.Store.LateSubscriberSeesFold` states this in general.
  `App.SubscribersAgree` proves that the two coincide in this application,
  because every reducer overwrites `screen` and `isPlaying` and nothing
  changes the other fields.
- `FlashPlayer` and `AudioPlayer` are mounted only inside the media screen
  (src/App.tsx:224-262). So they run exactly while `isPlaying` holds only
  under the invariant; without it they need `screen == media` as well.

## Model

| member | source | states |
|---|---|---|
| `RxjsUtils.Produce` | src/rxjsUtils.ts:23 | immer's `produce`: the reducer gets a draft copy of the state and the state itself, and the finished draft is the new snapshot; the identity reducer gives back the state unchanged |
| `RxjsUtils.Fold` | src/rxjsUtils.ts:21-24 | the `scan` accumulator: the reducers folded over `initialState` in the order they arrive, one `produce` step each; its properties are stated by `RxjsUtils.FoldSplit` and `RxjsUtils.Scan` |
| `RxjsUtils.FoldSplit` | src/rxjsUtils.ts:21-24 | folding continues from the current accumulator: folding a sequence is folding its tail over the fold of its head |
| `RxjsUtils.Scan` | src/rxjsUtils.ts:21-24 | `scan` emits one accumulator per reducer; the k-th is the left fold of the first k+1 reducers over the seed, in order |
| `RxjsUtils.Same` | src/rxjsUtils.ts:25 | the comparison `distinctUntilChanged(comparisonFn)` makes between the previous and the current value: `comparisonFn` when given, equality otherwise |
| `RxjsUtils.Distinct` | src/rxjsUtils.ts:25 | `distinctUntilChanged` never emits more than it gets; it emits nothing only for empty input; it always emits the first value; and the last input is either emitted or the same as the last emission |
| `RxjsUtils.DistinctIsSubsequence` | src/rxjsUtils.ts:25 | the emitted values are an order-preserving subsequence of the input, at strictly increasing positions |
| `RxjsUtils.KeptExactly` | src/rxjsUtils.ts:25 | an input value is emitted exactly when it is the first, or is not the same (under `comparisonFn`, or equality when absent) as the last value emitted before it |
| `RxjsUtils.LastPassedIsLastKept` | src/rxjsUtils.ts:25 | the value `distinctUntilChanged` compares position k against is the value at the last position below k that it passed on, and no position between them was passed on |
| `RxjsUtils.DistinctHasNoRepeats` | src/rxjsUtils.ts:25 | no two consecutive emitted values are the same under the comparison |
| `RxjsUtils.IdentitySeed` | src/rxjsUtils.ts:16 | the identity seed changes no fold and puts the initial state in front of the accumulators |
| `RxjsUtils.FoldPreserves` | src/rxjsUtils.ts:21-24 | a property of the initial state that every reducer preserves holds of the fold and of every accumulator |
| `RxjsUtils.Advance` | src/rxjsUtils.ts:21-25 | one delivery to a subscription: an open one takes one `produce` step and remembers the snapshot it emits, or keeps its last one when nothing is emitted; a closed one is unchanged |
| `RxjsUtils.Emission` | src/rxjsUtils.ts:21-25 | one delivery emits exactly when the subscription is open and the new accumulator is not the same as the last value passed on, and then emits that accumulator |
| `RxjsUtils.Store.constructor` | src/rxjsUtils.ts:12-16 | `createStore` starts with the identity reducer in the subject, no subscriptions and nothing dispatched |
| `RxjsUtils.Store.Subscribe` | src/rxjsUtils.ts:16-24 | a new subscription's first emission is the latest reducer applied to `initialState`: `initialState` itself before any dispatch, the last dispatched reducer applied to `initialState` after. The new subscription is recorded as joining after every dispatch so far, having folded only the replayed reducer; earlier subscriptions, their join points and what they received are untouched |
| `RxjsUtils.Store.Dispatch` | src/rxjsUtils.ts:29 | the reducer becomes the subject's value and is appended to the dispatch history. Each open subscription takes one `produce` step and passes the result on unless it repeats; closed ones stay as they were. Each open subscription's folded reducers gain the new one, join and leave points are kept, what each observer already received is only extended, and the store invariant is kept |
| `RxjsUtils.Store.Unsubscribe` | src/App.tsx:163-166 | a closed subscription stops folding and receiving, and its leave point is the current dispatch count if it was open; every join point, folded reducer sequence and received sequence, and the subject, stay as they were |
| `RxjsUtils.Store.EarlySubscriberSeesFold` | src/rxjsUtils.ts:16-25 | an open subscription made before any dispatch holds the fold of every dispatched reducer in dispatch order, and has received `initialState` followed by the accumulators, repeats dropped |
| `RxjsUtils.Store.LateSubscriberSeesFold` | src/rxjsUtils.ts:16-25 | any open subscription holds the fold of the reducer replayed when it joined followed by every later dispatch, and has received those accumulators with repeats dropped; one that joined after a dispatch starts from that single reducer applied to `initialState` |
| `RxjsUtils.Store.NoRepeatedEmissions` | src/rxjsUtils.ts:25 | no subscriber receives two consecutive snapshots that are the same |
| `RxjsUtils.LateSubscriberScenario` | src/rxjsUtils.ts:16-24 | after two increments from 0, an early subscriber holds 2, and one subscribing afterwards starts at 1 |
| `App.InitialStateShowsStart` | src/App.tsx:268-274 | the state `App` starts from is on the start screen, not playing, UI hidden, both levels 0.5, and it satisfies the invariant |
| `App.Transition` | src/App.tsx:64-77 | what each reducer leaves in the draft: playing exactly after `playMedia`, on the start screen exactly after `backToStartScreen`, the invariant always holds and the UI flag and levels are untouched |
| `App.ReducerOf` | src/App.tsx:64-77 | the reducer each name stands for ignores its read-only prior state and always yields a state satisfying the invariant |
| `App.Draft.constructor` | src/rxjsUtils.ts:23 | immer's draft starts as a copy of the base snapshot |
| `App.PauseMedia` | src/App.tsx:64-67 | `pauseMedia` leaves the draft on the media screen, not playing, with the UI flag, volume and intensity unchanged |
| `App.PlayMedia` | src/App.tsx:69-72 | `playMedia` leaves the draft on the media screen, playing, with the UI flag, volume and intensity unchanged |
| `App.BackToStartScreen` | src/App.tsx:74-77 | `backToStartScreen` leaves the draft on the start screen, not playing, with the UI flag, volume and intensity unchanged |
| `App.ApplyReducer` | src/App.tsx:64-77 | one store step through a fresh draft equals the store's `Produce` of that reducer. Its result has the media screen except after `backToStartScreen`, plays exactly after `playMedia`, and keeps the UI flag, volume and intensity |
| `App.ReducerIdempotent` | src/App.tsx:64-77 | each reducer applied twice gives the same state as applied once |
| `App.ReducerEstablishesInvariant` | src/App.tsx:64-77 | each reducer yields a state with `isPlaying ⇒ screen == media`, from any state, so it preserves the invariant |
| `App.ReducerForgetsPlayback` | src/App.tsx:64-77 | a reducer's result depends only on the UI flag, volume and intensity of the state it is applied to |
| `App.FoldIsLastReducer` | src/App.tsx:64-77 | folding any non-empty sequence of the three reducers over a state equals applying only the last one |
| `App.StoreKeeps` | src/App.tsx:268-274 | in the application's store, any property of the initial state that all three reducers keep holds of every subscription's state and of every snapshot it has received |
| `App.StoreKeepsInvariant` | src/App.tsx:268-274 | in the application's store, every subscription's state and every snapshot it has received satisfies `isPlaying ⇒ screen == media` |
| `App.SubscribersAgree` | src/App.tsx:219-265 | in the application's store, every open subscription holds the fold of everything dispatched, whenever it joined |
| `App.MediaScreen` | src/App.tsx:219-251 | the media screen mounts `FlashPlayer` and `AudioPlayer` exactly while playing, has a back button for `backToStartScreen`, and a toggle that is `pauseMedia` exactly while playing and `playMedia` otherwise |
| `App.AppScreen` | src/App.tsx:253-265 | the start screen, with its play button, renders exactly when `screen == start`; otherwise the media screen |
| `App.EffectsMountedWhilePlaying` | src/App.tsx:224-262 | the start screen renders exactly when `screen == start`. The flash and audio units are mounted exactly when the state plays on the media screen, so under the invariant exactly when `isPlaying` holds |
| `App.StartButtonPlays` | src/App.tsx:83-89 | the start screen's button dispatches the reducer that starts playback with both effect units mounted |
| `App.MediaButtonsDoWhatTheySay` | src/App.tsx:230-246 | on the media screen the toggle button flips playback and stays there, and the back button returns to the start screen, not playing; neither changes the UI flag or the levels |
| `App.CreateAppStore` | src/App.tsx:267-274 | `App` creates a valid store over `{start, not visible, not playing, 0.5, 0.5}` compared by value |
| `App.MediaScreenJoinsLate` | src/App.tsx:219-265 | `AppScreen` subscribes before any dispatch and `MediaScreen` after `playMedia`; both subscriptions hold the playing media state `{media, playing, 0.5, 0.5}` |
| `App.PlayPauseScenario` | src/App.tsx:64-72 | from the initial state, the values `Dispatch` delivers to a subscriber are `playMedia`'s `{media, playing, 0.5, 0.5}`, then `pauseMedia`'s `{media, not playing, 0.5, 0.5}`, and nothing for a second `pauseMedia` |
| `App.GainStep` | src/App.tsx:143-151 | one emission leaves the gain as it was or sets it to the volume of a playing state, and leaves it as it was when the volume did not change |
| `App.GainAfter` | src/App.tsx:143-151 | after any emissions the gain is the starting gain or the volume of some received state that plays |
| `App.GainTracksVolumeWhilePlaying` | src/App.tsx:143-151 | while every received state plays, once the volume has differed from the starting state's, the gain equals the latest volume |
| `App.GainUntouched` | src/App.tsx:143-151 | the gain is never written while the volume stays at the starting state's, nor by states that do not play |
| `App.AudioGainUntouchedInApp` | src/App.tsx:112-151 | in the application's store no reducer changes the volume, so an `AudioPlayer` subscriber whose `prevState` and emissions come from the store never writes its gain |
| `App.AudioSubscriber.constructor` | src/App.tsx:119-132 | the subscriber starts with `prevState` the effect's state and the gain at 0 |
| `App.AudioSubscriber.OnState` | src/App.tsx:143-151 | one emission writes the gain to the new volume only if the new state plays and its volume differs from `prevState`'s, and always sets `prevState` to the new state |

## Left out

- The Web Audio graph is left out: building it, oscillator frequencies and panning, `start`, `stop`, the linear gain ramps and the deferred `disconnect` (src/App.tsx:120-170). It is a foreign browser API with floating-point clock arithmetic and a timer.
- App.AudioSubscriber.constructor: the gain fade-in ramp to the state's volume (src/App.tsx:158-161) is not modelled, so `gain` is the value last written directly, starting at 0.
- `FlashPlayer`'s animation-frame loop and its `Math.sin` level (src/App.tsx:183-214) are left out. They are host-driven callbacks over floating-point numerics.
- React is left out: rendering, hooks, `Observe`, `useObservable` (including its extra `distinctUntilChanged`) and `observeOn(animationFrameScheduler)`. Delivery in the model is synchronous, in subscription order.
- The effect components' mount and unmount lifecycle is left out. Which units are mounted is modelled as a function of the state.
- The `Feather` icon component and the icon names are left out.
- The `console.debug` tap (src/rxjsUtils.ts:26) is left out. It is diagnostic output.
- RxjsUtils.Same: when `comparisonFn` is absent the model compares snapshots by value, where the source uses `===`. With immer's structural sharing, a reducer that changes nothing returns the same object, and both drop it. A reducer that rebuilds an equal object passes `===`, but the model drops it. Immer's structural sharing and freezing are not modelled.
- A reducer that throws is not modelled: reducers here are total functions.
- A reducer dispatched from inside a subscriber's callback (re-entrant delivery) is not modelled. `Dispatch` reaches every subscription in one step.
- App.AudioSubscriber.OnState: volumes are compared as exact reals. IEEE-754 details of `!==` such as NaN are not modelled.
- Completing or erroring the subject is not modelled. The source never does either.
