/**
  The application state machine of src/App.tsx: the `IState` record, the three
  reducers the screens dispatch, the state `App` creates its store with, which
  screen and which effect units render for a state, and the volume-tracking
  subscriber of `AudioPlayer`.
*/
module App {
  import opened RxjsUtils

  datatype Screen = Start | Media

  /** `IState`. The two levels are numbers in the source; here they are only
      copied and compared, so `real` stands for them. */
  datatype State = State(screen: Screen, isUiVisible: bool, isPlaying: bool,
                         intensityLevel: real, volumeLevel: real)

  /** The state `App` passes to `createStore`. */
  const InitialState: State := State(Start, false, false, 0.5, 0.5)

  /** The application invariant: effects play only on the media screen. */
  predicate PlayingOnlyOnMedia(s: State) {
    s.isPlaying ==> s.screen == Media
  }

  /** The three reducers, by name: `pauseMedia`, `playMedia`, `backToStartScreen`. */
  datatype Action = Pause | Play | BackToStart

  /** What each reducer leaves in the draft. None of them reads the read-only
      prior state. */
  function Transition(action: Action, draft: State, readOnlyState: State): (next: State)
    ensures PlayingOnlyOnMedia(next)
    ensures next.isPlaying <==> action == Play
    ensures next.screen == Start <==> action == BackToStart
    ensures SameSettings(draft, next)
  {
    match action
    case Pause => draft.(screen := Media, isPlaying := false)
    case Play => draft.(screen := Media, isPlaying := true)
    case BackToStart => draft.(isPlaying := false, screen := Start)
  }

  /** The reducer value handed to `dispatch`. */
  function ReducerOf(action: Action): (reducer: Reducer<State>)
    ensures forall stateDraft, readOnly, readOnly' :: reducer(stateDraft, readOnly) == reducer(stateDraft, readOnly')
    ensures forall stateDraft, readOnly :: PlayingOnlyOnMedia(reducer(stateDraft, readOnly))
  {
    (stateDraft, readOnlyState) => Transition(action, stateDraft, readOnlyState)
  }

  /** The reducers dispatched for `actions`, in order. */
  function Reducers(actions: seq<Action>): (reducers: seq<Reducer<State>>) {
    seq(|actions|, i requires 0 <= i < |actions| => ReducerOf(actions[i]))
  }

  /** The writable copy of a snapshot that immer hands to a reducer. */
  class Draft {
    var screen: Screen
    var isUiVisible: bool
    var isPlaying: bool
    var intensityLevel: real
    var volumeLevel: real

    constructor (base: State)
      ensures Snapshot() == base
    {
      screen, isUiVisible, isPlaying := base.screen, base.isUiVisible, base.isPlaying;
      intensityLevel, volumeLevel := base.intensityLevel, base.volumeLevel;
    }

    /** The snapshot the draft finalises to. */
    function Snapshot(): State
      reads this
    {
      State(screen, isUiVisible, isPlaying, intensityLevel, volumeLevel)
    }
  }

  /** `pauseMedia`: the media screen, not playing; nothing else in the draft changes. */
  method PauseMedia(state: Draft, readOnlyState: State)
    modifies state
    ensures state.screen == Media && !state.isPlaying
    ensures state.isUiVisible == old(state.isUiVisible)
    ensures state.volumeLevel == old(state.volumeLevel) && state.intensityLevel == old(state.intensityLevel)
    ensures state.Snapshot() == Transition(Pause, old(state.Snapshot()), readOnlyState)
  {
    state.screen := Media;
    state.isPlaying := false;
  }

  /** `playMedia`: the media screen, playing; nothing else in the draft changes. */
  method PlayMedia(state: Draft, readOnlyState: State)
    modifies state
    ensures state.screen == Media && state.isPlaying
    ensures state.isUiVisible == old(state.isUiVisible)
    ensures state.volumeLevel == old(state.volumeLevel) && state.intensityLevel == old(state.intensityLevel)
    ensures state.Snapshot() == Transition(Play, old(state.Snapshot()), readOnlyState)
  {
    state.screen := Media;
    state.isPlaying := true;
  }

  /** `backToStartScreen`: the start screen, not playing; volume, intensity
      and the UI flag stay as they were. */
  method BackToStartScreen(state: Draft, readOnlyState: State)
    modifies state
    ensures state.screen == Start && !state.isPlaying
    ensures state.isUiVisible == old(state.isUiVisible)
    ensures state.volumeLevel == old(state.volumeLevel) && state.intensityLevel == old(state.intensityLevel)
    ensures state.Snapshot() == Transition(BackToStart, old(state.Snapshot()), readOnlyState)
  {
    state.isPlaying := false;
    state.screen := Start;
  }

  /** One store step for one of the three reducers, done the way `produce`
      does it: a fresh draft copied from `base`, the reducer run on the draft
      and on `base`, the draft's snapshot returned. No existing object is
      modified, so `base` and every earlier snapshot stay as they were. */
  method ApplyReducer(base: State, action: Action) returns (next: State)
    ensures next == Produce(base, ReducerOf(action))
    ensures next.screen == (if action == BackToStart then Start else Media)
    ensures next.isPlaying == (action == Play)
    ensures next.isUiVisible == base.isUiVisible
    ensures next.volumeLevel == base.volumeLevel && next.intensityLevel == base.intensityLevel
  {
    var draft := new Draft(base);
    match action {
      case Pause => PauseMedia(draft, base);
      case Play => PlayMedia(draft, base);
      case BackToStart => BackToStartScreen(draft, base);
    }
    next := draft.Snapshot();
  }

  /** Each reducer applied twice gives what it gives once. */
  lemma ReducerIdempotent(action: Action, s: State)
    ensures Produce(Produce(s, ReducerOf(action)), ReducerOf(action)) == Produce(s, ReducerOf(action))
  {
  }

  /** Each reducer keeps the invariant: indeed it establishes it from any state. */
  lemma ReducerEstablishesInvariant(action: Action, s: State)
    ensures PlayingOnlyOnMedia(Produce(s, ReducerOf(action)))
    ensures Preserves(ReducerOf(action), PlayingOnlyOnMedia)
  {
  }

  /** The three reducers never touch the UI flag or the two levels. */
  predicate SameSettings(s: State, t: State) {
    s.isUiVisible == t.isUiVisible && s.volumeLevel == t.volumeLevel && s.intensityLevel == t.intensityLevel
  }

  /** A reducer's result depends only on its action and the untouched settings. */
  lemma ReducerForgetsPlayback(action: Action, s: State, t: State)
    requires SameSettings(s, t)
    ensures Produce(s, ReducerOf(action)) == Produce(t, ReducerOf(action))
  {
  }

  /** Folding any dispatched actions over a state is applying just the last
      one: every reducer overwrites `screen` and `isPlaying` and leaves the
      rest. */
  lemma {:induction false} FoldIsLastReducer(s: State, actions: seq<Action>)
    requires actions != []
    ensures Fold(s, Reducers(actions)) == Produce(s, ReducerOf(actions[|actions| - 1]))
    decreases |actions|
  {
    var rs := Reducers(actions);
    var n := |actions|;
    assert rs[..n - 1] == Reducers(actions[..n - 1]);
    if n > 1 {
      FoldIsLastReducer(s, actions[..n - 1]);
    }
    ReducerForgetsPlayback(actions[n - 1], Fold(s, rs[..n - 1]), s);
  }

  /** A subscription's reducers: the one the subject replays, then those
      dispatched while it was open. */
  lemma AppSeenPreserves(actions: seq<Action>, joinedAt: nat, end: nat, inv: State -> bool)
    requires joinedAt <= end <= |actions|
    requires forall a: Action :: Preserves(ReducerOf(a), inv)
    ensures var ds := Reducers(actions);
      var seen := [LatestAfter(ds[..joinedAt])] + ds[joinedAt..end];
      forall i :: 0 <= i < |seen| ==> Preserves(seen[i], inv)
  {
    var ds := Reducers(actions);
    var seen := [LatestAfter(ds[..joinedAt])] + ds[joinedAt..end];
    forall i | 0 <= i < |seen| ensures Preserves(seen[i], inv) {
      if i == 0 {
        if joinedAt > 0 {
          assert seen[0] == ReducerOf(actions[joinedAt - 1]);
        } else {
          assert seen[0] == Identity();
        }
      } else {
        assert seen[i] == ReducerOf(actions[joinedAt + i - 1]);
      }
    }
  }

  /** In the application's store, a property of the initial state that all
      three reducers keep holds of every subscription's state and of
      everything it has received. */
  lemma StoreKeeps(store: Store<State>, actions: seq<Action>, i: nat, inv: State -> bool)
    requires store.Valid()
    requires store.initialState == InitialState
    requires store.dispatched == Reducers(actions)
    requires i < |store.subscribers|
    requires inv(InitialState)
    requires forall a: Action :: Preserves(ReducerOf(a), inv)
    ensures inv(store.subscribers[i].acc)
    ensures forall k :: 0 <= k < |store.received[i]| ==> inv(store.received[i][k])
  {
    var sub := store.subscribers[i];
    assert Tracks(store.initialState, store.comparisonFn, store.dispatched, sub,
                  store.joined[i], store.left[i], store.seen[i], store.received[i]);
    var end := if sub.active then |actions| else store.left[i];
    AppSeenPreserves(actions, store.joined[i], end, inv);
    var seen := store.seen[i];
    FoldPreserves(InitialState, seen, inv);
    var scan := Scan(InitialState, seen);
    DistinctIsSubsequence(store.comparisonFn, scan);
    var ks := Kept(store.comparisonFn, scan);
    forall k | 0 <= k < |store.received[i]| ensures inv(store.received[i][k]) {
      assert store.received[i][k] == scan[ks[k]];
    }
  }

  /** In the application's store, every subscription's state and everything
      it has received satisfies the invariant. */
  lemma StoreKeepsInvariant(store: Store<State>, actions: seq<Action>, i: nat)
    requires store.Valid()
    requires store.initialState == InitialState
    requires store.dispatched == Reducers(actions)
    requires i < |store.subscribers|
    ensures PlayingOnlyOnMedia(store.subscribers[i].acc)
    ensures forall k :: 0 <= k < |store.received[i]| ==> PlayingOnlyOnMedia(store.received[i][k])
  {
    forall a: Action ensures Preserves(ReducerOf(a), PlayingOnlyOnMedia) {
      ReducerEstablishesInvariant(a, InitialState);
    }
    StoreKeeps(store, actions, i, PlayingOnlyOnMedia);
  }

  /** In the application's store the late-subscriber quirk is harmless: every
      open subscription, whenever it joined, holds the fold of everything
      dispatched over the initial state. */
  lemma SubscribersAgree(store: Store<State>, actions: seq<Action>, i: nat)
    requires store.Valid()
    requires store.initialState == InitialState
    requires store.dispatched == Reducers(actions)
    requires i < |store.subscribers| && store.subscribers[i].active
    ensures store.subscribers[i].acc == Fold(InitialState, store.dispatched)
  {
    var sub := store.subscribers[i];
    var j := store.joined[i];
    var ds := store.dispatched;
    assert Tracks(store.initialState, store.comparisonFn, ds, sub, j, store.left[i], store.seen[i], store.received[i]);
    var seen := store.seen[i];
    assert seen == [LatestAfter(ds[..j])] + ds[j..|ds|];
    if actions == [] {
      assert seen == [Identity()] && seen[..0] == [];
    } else {
      var n := |actions|;
      FoldIsLastReducer(InitialState, actions);
      var p := seen[..|seen| - 1];
      assert seen[|seen| - 1] == ReducerOf(actions[n - 1]);
      var keeps := (s: State) => SameSettings(s, InitialState);
      forall a: Action ensures Preserves(ReducerOf(a), keeps) {
      }
      AppSeenPreserves(actions, j, n, keeps);
      FoldPreserves(InitialState, p, keeps);
      ReducerForgetsPlayback(actions[n - 1], Fold(InitialState, p), InitialState);
    }
  }

  /** The state `App` starts from shows the start screen, with nothing playing. */
  lemma InitialStateShowsStart()
    ensures PlayingOnlyOnMedia(InitialState)
    ensures AppScreen(InitialState) == StartPage(Play)
    ensures !InitialState.isUiVisible && InitialState.volumeLevel == 0.5 && InitialState.intensityLevel == 0.5
  {
  }

  /** What a page shows: which of the three reducers each button dispatches,
      and, on the media screen, whether `FlashPlayer` and `AudioPlayer` are
      mounted. */
  datatype Page =
    | StartPage(playButton: Action)
    | MediaPage(flashPlayer: bool, audioPlayer: bool, backButton: Action, toggleButton: Action)

  /** `MediaScreen`: the effect units while playing, a back button, and a
      pause button while playing or a play button otherwise. */
  function MediaScreen(s: State): (page: Page)
    ensures page.MediaPage? && page.backButton == BackToStart
    ensures page.flashPlayer <==> s.isPlaying
    ensures page.audioPlayer <==> s.isPlaying
    ensures page.toggleButton == Pause <==> s.isPlaying
    ensures page.toggleButton != BackToStart
  {
    MediaPage(s.isPlaying, s.isPlaying, BackToStart, if s.isPlaying then Pause else Play)
  }

  /** `AppScreen`: the start screen for `screen == start`, the media screen
      otherwise. */
  function AppScreen(s: State): (page: Page)
    ensures page.StartPage? <==> s.screen == Start
    ensures page.StartPage? ==> page.playButton == Play
    ensures page.MediaPage? ==> page == MediaScreen(s)
  {
    if s.screen == Start then StartPage(Play) else MediaScreen(s)
  }

  predicate FlashMounted(p: Page) { p.MediaPage? && p.flashPlayer }
  predicate AudioMounted(p: Page) { p.MediaPage? && p.audioPlayer }

  /** The effect units are mounted exactly when the state plays on the media
      screen; under the invariant, exactly when it plays. */
  lemma EffectsMountedWhilePlaying(s: State)
    ensures AppScreen(s).StartPage? <==> s.screen == Start
    ensures FlashMounted(AppScreen(s)) <==> s.isPlaying && s.screen == Media
    ensures AudioMounted(AppScreen(s)) <==> s.isPlaying && s.screen == Media
    ensures PlayingOnlyOnMedia(s) ==> (FlashMounted(AppScreen(s)) <==> s.isPlaying)
  {
  }

  /** The start screen's play button starts playback on the media screen,
      with both effect units mounted. */
  lemma StartButtonPlays(s: State)
    requires AppScreen(s).StartPage?
    ensures var t := Produce(s, ReducerOf(AppScreen(s).playButton));
      t.isPlaying && FlashMounted(AppScreen(t)) && AudioMounted(AppScreen(t)) && SameSettings(s, t)
  {
  }

  /** On the media screen the toggle button flips playback and stays there,
      and the back button returns to the start screen. */
  lemma MediaButtonsDoWhatTheySay(s: State)
    requires AppScreen(s).MediaPage?
    ensures var t := Produce(s, ReducerOf(AppScreen(s).toggleButton));
      t.isPlaying == !s.isPlaying && AppScreen(t).MediaPage? && SameSettings(s, t)
    ensures var t := Produce(s, ReducerOf(AppScreen(s).backButton));
      AppScreen(t) == StartPage(Play) && !t.isPlaying && SameSettings(s, t)
  {
  }

  /** `App`: the store over the initial state, compared by value. */
  method CreateAppStore() returns (store: Store<State>)
    ensures fresh(store) && store.Valid()
    ensures store.initialState == InitialState && store.comparisonFn == None
    ensures store.subscribers == [] && store.dispatched == []
  {
    store := new Store(InitialState, None);
  }

  /** A subscriber of the application's store, from its first emission to a
      play, a pause and a repeated pause, which it does not receive again. */
  method PlayPauseScenario() returns (first: State, afterPlay: State, afterPause: State, repeated: Option<State>)
    ensures first == InitialState && AppScreen(first) == StartPage(Play)
    ensures afterPlay == State(Media, false, true, 0.5, 0.5)
    ensures afterPause == State(Media, false, false, 0.5, 0.5)
    ensures repeated == None
  {
    var store := CreateAppStore();
    var id;
    id, first := store.Subscribe();
    assert store.subscribers[id] == Subscriber(InitialState, InitialState, true);
    var playing := State(Media, false, true, 0.5, 0.5);
    var paused := State(Media, false, false, 0.5, 0.5);
    assert Produce(InitialState, ReducerOf(Play)) == playing;
    var d := store.Dispatch(ReducerOf(Play));
    assert d[id] == Emission(None, Subscriber(InitialState, InitialState, true), ReducerOf(Play)) == Some(playing);
    assert store.subscribers[id] == Subscriber(playing, playing, true);
    afterPlay := d[id].value;
    assert Produce(playing, ReducerOf(Pause)) == paused;
    d := store.Dispatch(ReducerOf(Pause));
    assert d[id] == Emission(None, Subscriber(playing, playing, true), ReducerOf(Pause)) == Some(paused);
    assert store.subscribers[id] == Subscriber(paused, paused, true);
    afterPause := d[id].value;
    d := store.Dispatch(ReducerOf(Pause));
    assert d[id] == Emission(None, Subscriber(paused, paused, true), ReducerOf(Pause)) == None;
    repeated := d[id];
  }

  /** `AppScreen` subscribes first; once `playMedia` has been dispatched,
      `MediaScreen` subscribes as well. The first subscription is still one
      made before any dispatch, the second joined after one, and both hold
      the playing media state. */
  method MediaScreenJoinsLate() returns (appScreenState: State, mediaScreenState: State)
    ensures appScreenState == mediaScreenState == State(Media, false, true, 0.5, 0.5)
  {
    var store := CreateAppStore();
    var appId, first := store.Subscribe();
    assert store.subscribers == [Subscriber(InitialState, InitialState, true)];
    var d := store.Dispatch(ReducerOf(Play));
    assert store.dispatched == [ReducerOf(Play)] && store.latest == ReducerOf(Play);
    var mediaId, mediaFirst := store.Subscribe();
    assert store.joined[appId] == 0 && store.joined[mediaId] == 1;
    store.EarlySubscriberSeesFold(appId);
    store.LateSubscriberSeesFold(mediaId);
    appScreenState := store.subscribers[appId].acc;
    mediaScreenState := store.subscribers[mediaId].acc;
    assert store.dispatched == [ReducerOf(Play)] && store.dispatched[..1] == [] + [ReducerOf(Play)];
  }

  /** `AudioPlayer`'s rule for one emission: the gain is set to the new volume
      only while playing and when the volume differs from the previous state's. */
  function GainStep(prevState: State, gain: real, newState: State): (next: real)
    ensures next == gain || (newState.isPlaying && next == newState.volumeLevel)
    ensures newState.volumeLevel == prevState.volumeLevel ==> next == gain
  {
    if newState.isPlaying && newState.volumeLevel != prevState.volumeLevel then newState.volumeLevel else gain
  }

  function LastState(start: State, states: seq<State>): (last: State) {
    if states == [] then start else states[|states| - 1]
  }

  /** The gain after `states` have been received, starting from `start` as
      the previous state and `gain` as the gain. */
  function GainAfter(start: State, gain: real, states: seq<State>): (next: real)
    ensures next == gain || exists k :: 0 <= k < |states| && states[k].isPlaying && next == states[k].volumeLevel
    decreases |states|
  {
    if states == [] then gain
    else
      var n := |states|;
      var before := states[..n - 1];
      var g := GainAfter(start, gain, before);
      assert forall k :: 0 <= k < n - 1 ==> before[k] == states[k];
      var next := GainStep(LastState(start, before), g, states[n - 1]);
      assert next != g ==> states[n - 1].isPlaying && next == states[n - 1].volumeLevel;
      next
  }

  /** While every received state plays, the gain follows the volume: once the
      volume has differed from the starting state's, the gain is the latest
      volume; until then it is the starting gain. */
  lemma {:induction false} GainTracksVolumeWhilePlaying(start: State, gain: real, states: seq<State>)
    requires forall k :: 0 <= k < |states| ==> states[k].isPlaying
    ensures (exists k :: 0 <= k < |states| && states[k].volumeLevel != start.volumeLevel) ==>
      GainAfter(start, gain, states) == LastState(start, states).volumeLevel
    decreases |states|
  {
    if states != [] {
      var n := |states|;
      var before := states[..n - 1];
      GainTracksVolumeWhilePlaying(start, gain, before);
      if states[n - 1].volumeLevel == LastState(start, before).volumeLevel
         && !exists k :: 0 <= k < n - 1 && before[k].volumeLevel != start.volumeLevel
      {
        // the volume never moved away from the starting state's
        SameVolumeThroughout(start, before);
        assert forall k :: 0 <= k < n - 1 ==> states[k] == before[k];
      }
    }
  }

  lemma SameVolumeThroughout(start: State, states: seq<State>)
    requires forall k :: 0 <= k < |states| ==> states[k].volumeLevel == start.volumeLevel
    ensures LastState(start, states).volumeLevel == start.volumeLevel
  {
  }

  /** The gain is never written while the volume stays at the starting
      state's, nor by states that do not play. */
  lemma {:induction false} GainUntouched(start: State, gain: real, states: seq<State>)
    ensures (forall k :: 0 <= k < |states| ==> states[k].volumeLevel == start.volumeLevel) ==>
      GainAfter(start, gain, states) == gain
    ensures (forall k :: 0 <= k < |states| ==> !states[k].isPlaying) ==>
      GainAfter(start, gain, states) == gain
    decreases |states|
  {
    if states != [] {
      var n := |states|;
      var before := states[..n - 1];
      GainUntouched(start, gain, before);
      if forall k :: 0 <= k < n ==> states[k].volumeLevel == start.volumeLevel {
        assert forall k :: 0 <= k < n - 1 ==> before[k].volumeLevel == start.volumeLevel;
        SameVolumeThroughout(start, before);
      }
      if forall k :: 0 <= k < n ==> !states[k].isPlaying {
        assert forall k :: 0 <= k < n - 1 ==> !before[k].isPlaying;
      }
    }
  }

  /** The subscriber `AudioPlayer` attaches to `state$`: the `prevState` it
      keeps and the gain node's value. */
  class AudioSubscriber {
    var prevState: State
    var gain: real
    ghost const startState: State
    ghost const startGain: real
    /** The states received so far. */
    ghost var received: seq<State>

    ghost predicate Valid()
      reads this
    {
      prevState == LastState(startState, received) && gain == GainAfter(startState, startGain, received)
    }

    /** `prevState` starts as the state the effect ran with, and the gain at 0. */
    constructor (state: State)
      ensures Valid()
      ensures prevState == state && gain == 0.0 && received == []
    {
      prevState, gain := state, 0.0;
      startState, startGain := state, 0.0;
      received := [];
    }

    /** One emission: write the gain if playing and the volume changed, and
        always remember the new state. */
    method OnState(newState: State)
      requires Valid()
      modifies this
      ensures Valid()
      ensures prevState == newState
      ensures gain == GainStep(old(prevState), old(gain), newState)
      ensures received == old(received) + [newState]
    {
      if newState.isPlaying {
        if newState.volumeLevel != prevState.volumeLevel {
          gain := newState.volumeLevel;
        }
      }
      prevState := newState;
      received := received + [newState];
      assert received[..|received| - 1] == old(received);
    }
  }

  /** In the application no reducer changes the volume, so every snapshot the
      store delivers keeps the initial 0.5. `AudioPlayer` takes its
      `prevState` from one subscription (the `useObservable` one) and
      receives everything its own subscription delivers; it never writes its
      gain. */
  lemma AudioGainUntouchedInApp(store: Store<State>, actions: seq<Action>, own: nat, other: nat, k: nat,
                                audio: AudioSubscriber)
    requires store.Valid()
    requires store.initialState == InitialState
    requires store.dispatched == Reducers(actions)
    requires own < |store.subscribers| && other < |store.subscribers| && k < |store.received[other]|
    requires audio.Valid()
    requires audio.startState == store.received[other][k] && audio.received == store.received[own]
    ensures audio.gain == audio.startGain
  {
    var keeps := (s: State) => s.volumeLevel == InitialState.volumeLevel;
    forall a: Action ensures Preserves(ReducerOf(a), keeps) {
    }
    StoreKeeps(store, actions, other, keeps);
    StoreKeeps(store, actions, own, keeps);
    assert keeps(audio.startState);
    forall m | 0 <= m < |audio.received| ensures audio.received[m].volumeLevel == audio.startState.volumeLevel {
      assert keeps(store.received[own][m]);
    }
    GainUntouched(audio.startState, audio.startGain, audio.received);
  }
}
