/**
  The reducer store of src/rxjsUtils.ts.

  `createStore` seeds a BehaviorSubject of reducers with the identity reducer,
  folds the reducers it delivers over `initialState` with `scan`, each step
  going through immer's `produce`, and drops consecutive equal snapshots with
  `distinctUntilChanged`. The pipeline is cold: every subscription runs its own
  `scan` accumulator from `initialState`, and since the subject replays only its
  latest reducer, a subscriber that joins late starts from that one reducer
  applied to `initialState`, not from the fold of everything dispatched so far.
*/
module RxjsUtils {

  datatype Option<T> = None | Some(value: T)

  /** A reducer receives the draft (a writable copy of the state) and the
      read-only prior state, and mutates the draft in place. Here it is the
      function from the draft's contents and the prior state to the draft's
      contents once the reducer has finished with it. */
  type Reducer<!T> = (T, T) -> T

  /** The subject's seed, `state => state`: it leaves the draft as it is. */
  function Identity<T>(): (reducer: Reducer<T>) {
    (stateDraft, readOnlyState) => stateDraft
  }

  /** immer's `produce(state, draft => reducer(draft, state))`: the draft starts
      as a copy of `base`, the reducer gets both the draft and `base` itself,
      and the mutated copy is the new snapshot. `base` is a value, so nothing
      the reducer does can reach it. */
  function Produce<T>(base: T, reducer: Reducer<T>): (next: T)
    ensures reducer == Identity() ==> next == base
  {
    reducer(base, base)
  }

  /** The `scan` accumulator after folding `reducers`, in order, over `init`. */
  function Fold<T>(init: T, reducers: seq<Reducer<T>>): (acc: T)
    decreases |reducers|
  {
    if reducers == [] then init
    else Produce(Fold(init, reducers[..|reducers| - 1]), reducers[|reducers| - 1])
  }

  /** Folding continues from the accumulator: reducers delivered later are
      folded over the state the earlier ones produced. */
  lemma {:induction false} FoldSplit<T>(init: T, reducers: seq<Reducer<T>>, more: seq<Reducer<T>>)
    ensures Fold(init, reducers + more) == Fold(Fold(init, reducers), more)
    decreases |more|
  {
    var all := reducers + more;
    if more == [] {
      assert all == reducers;
    } else {
      var n := |more|;
      FoldSplit(init, reducers, more[..n - 1]);
      assert all[..|all| - 1] == reducers + more[..n - 1];
      assert all[|all| - 1] == more[n - 1];
    }
  }

  /** Everything `scan` emits for `reducers`: one accumulator per reducer. */
  function Scan<T>(init: T, reducers: seq<Reducer<T>>): (acc: seq<T>)
    ensures |acc| == |reducers|
    ensures forall k :: 0 <= k < |reducers| ==> acc[k] == Fold(init, reducers[..k + 1])
    decreases |reducers|
  {
    if reducers == [] then []
    else
      var prefix := reducers[..|reducers| - 1];
      var acc := Scan(init, prefix) + [Fold(init, reducers)];
      assert reducers[..|reducers|] == reducers;
      TakeOfTake(reducers, |prefix|);
      acc
  }

  lemma TakeOfTake<X>(s: seq<X>, n: nat)
    requires n <= |s|
    ensures forall m :: 0 <= m <= n ==> s[..n][..m] == s[..m]
  {
  }

  /** The comparison `distinctUntilChanged(comparisonFn)` makes between the last
      value it let through and the current one: `comparisonFn` when given,
      equality otherwise. */
  predicate Same<T(==)>(comparisonFn: Option<(T, T) -> bool>, previous: T, current: T) {
    match comparisonFn
    case None => previous == current
    case Some(f) => f(previous, current)
  }

  /** What `distinctUntilChanged` lets through of `xs`: the first value, and
      after that every value not the same as the last value let through. */
  function Distinct<T(==)>(comparisonFn: Option<(T, T) -> bool>, xs: seq<T>): (out: seq<T>)
    ensures |out| <= |xs|
    ensures out == [] <==> xs == []
    ensures xs != [] ==> out[0] == xs[0]
    ensures xs != [] ==> out[|out| - 1] == xs[|xs| - 1] || Same(comparisonFn, out[|out| - 1], xs[|xs| - 1])
    decreases |xs|
  {
    if xs == [] then []
    else
      var out := Distinct(comparisonFn, xs[..|xs| - 1]);
      if out != [] && Same(comparisonFn, out[|out| - 1], xs[|xs| - 1]) then out
      else out + [xs[|xs| - 1]]
  }

  /** The positions in `xs` of the values `Distinct` lets through. */
  function Kept<T(==)>(comparisonFn: Option<(T, T) -> bool>, xs: seq<T>): (ks: seq<nat>)
    decreases |xs|
  {
    if xs == [] then []
    else
      var ks := Kept(comparisonFn, xs[..|xs| - 1]);
      var out := Distinct(comparisonFn, xs[..|xs| - 1]);
      if out != [] && Same(comparisonFn, out[|out| - 1], xs[|xs| - 1]) then ks
      else ks + [|xs| - 1]
  }

  /** `ks` are increasing positions in `xs`, and `out` is what stands there. */
  ghost predicate PicksFrom<T>(ks: seq<nat>, out: seq<T>, xs: seq<T>) {
    && |ks| == |out|
    && (forall i :: 0 <= i < |ks| ==> ks[i] < |xs| && out[i] == xs[ks[i]])
    && (forall i, j :: 0 <= i < j < |ks| ==> ks[i] < ks[j])
  }

  /** The emitted sequence is an order-preserving subsequence of the input. */
  lemma {:induction false} DistinctIsSubsequence<T>(comparisonFn: Option<(T, T) -> bool>, xs: seq<T>)
    ensures PicksFrom(Kept(comparisonFn, xs), Distinct(comparisonFn, xs), xs)
    decreases |xs|
  {
    if xs != [] {
      var n := |xs|;
      var p, x := xs[..n - 1], xs[n - 1];
      assert xs == p + [x];
      DistinctIsSubsequence(comparisonFn, p);
      PicksFromExtended(Kept(comparisonFn, p), Distinct(comparisonFn, p), p, x);
    }
  }

  lemma PicksFromExtended<T>(ks: seq<nat>, out: seq<T>, p: seq<T>, x: T)
    requires PicksFrom(ks, out, p)
    ensures PicksFrom(ks, out, p + [x])
    ensures PicksFrom(ks + [|p|], out + [x], p + [x])
  {
    var xs, ks', out' := p + [x], ks + [|p|], out + [x];
    forall i | 0 <= i < |ks'| ensures ks'[i] < |xs| && out'[i] == xs[ks'[i]] {
      if i < |ks| {
        assert ks'[i] == ks[i] && out'[i] == out[i] && xs[ks[i]] == p[ks[i]];
      }
    }
    forall i | 0 <= i < |ks| ensures ks[i] < |xs| && out[i] == xs[ks[i]] {
      assert xs[ks[i]] == p[ks[i]];
    }
  }

  /** The last value passed on among the first `k` values of `xs`. */
  function LastPassedBefore<T(==)>(comparisonFn: Option<(T, T) -> bool>, xs: seq<T>, k: nat): (last: T)
    requires 0 < k <= |xs|
  {
    var out := Distinct(comparisonFn, xs[..k]);
    out[|out| - 1]
  }

  /** Membership of a position below `k` in `Kept` depends only on the first
      `k` values. */
  lemma {:induction false} KeptBelow<T>(comparisonFn: Option<(T, T) -> bool>, xs: seq<T>, k: nat, j: nat)
    requires j < k <= |xs|
    ensures j in Kept(comparisonFn, xs) <==> j in Kept(comparisonFn, xs[..k])
    decreases |xs| - k
  {
    if k < |xs| {
      var p := xs[..|xs| - 1];
      KeptBelow(comparisonFn, p, k, j);
      assert p[..k] == xs[..k];
    } else {
      assert xs[..k] == xs;
    }
  }

  /** The last value passed on among the first `k` is the value at the last
      position below `k` that `distinctUntilChanged` passes on. */
  lemma LastPassedIsLastKept<T>(comparisonFn: Option<(T, T) -> bool>, xs: seq<T>, k: nat)
    requires 0 < k <= |xs|
    ensures exists j :: && 0 <= j < k && j in Kept(comparisonFn, xs)
                        && LastPassedBefore(comparisonFn, xs, k) == xs[j]
                        && forall j' :: j < j' < k ==> j' !in Kept(comparisonFn, xs)
  {
    var p := xs[..k];
    DistinctIsSubsequence(comparisonFn, p);
    var ks := Kept(comparisonFn, p);
    var m := |ks| - 1;
    var j := ks[m];
    KeptBelow(comparisonFn, xs, k, j);
    assert LastPassedBefore(comparisonFn, xs, k) == p[j] == xs[j];
    forall t | 0 <= t < |ks| ensures ks[t] <= j {
      if t < m {
        assert ks[t] < ks[m];
      }
    }
    forall j' | j < j' < k ensures j' !in Kept(comparisonFn, xs) {
      KeptBelow(comparisonFn, xs, k, j');
    }
  }

  /** Position `k` of the input is passed on exactly when it is the first, or
      is not the same as the last value passed on before it. */
  lemma {:induction false} KeptExactly<T>(comparisonFn: Option<(T, T) -> bool>, xs: seq<T>)
    ensures forall k :: 0 <= k < |xs| ==>
      (k in Kept(comparisonFn, xs) <==> k == 0 || !Same(comparisonFn, LastPassedBefore(comparisonFn, xs, k), xs[k]))
    decreases |xs|
  {
    if xs != [] {
      var n := |xs|;
      var p := xs[..n - 1];
      KeptExactly(comparisonFn, p);
      DistinctIsSubsequence(comparisonFn, p);
      forall k | 0 <= k < n
        ensures k in Kept(comparisonFn, xs) <==> k == 0 || !Same(comparisonFn, LastPassedBefore(comparisonFn, xs, k), xs[k])
      {
        if k < n - 1 {
          KeptInPrefix(comparisonFn, xs, k);
        } else {
          assert xs[..k] == p;
          assert n - 1 !in Kept(comparisonFn, p);
        }
      }
    }
  }

  lemma KeptInPrefix<T>(comparisonFn: Option<(T, T) -> bool>, xs: seq<T>, k: nat)
    requires k < |xs| - 1
    requires var p := xs[..|xs| - 1];
      k in Kept(comparisonFn, p) <==> k == 0 || !Same(comparisonFn, LastPassedBefore(comparisonFn, p, k), p[k])
    ensures k in Kept(comparisonFn, xs) <==> k == 0 || !Same(comparisonFn, LastPassedBefore(comparisonFn, xs, k), xs[k])
  {
    var p := xs[..|xs| - 1];
    assert xs[..k] == p[..k] && xs[k] == p[k];
    assert k in Kept(comparisonFn, xs) <==> k in Kept(comparisonFn, p);
  }

  /** No two consecutive emitted values are the same. */
  lemma {:induction false} DistinctHasNoRepeats<T>(comparisonFn: Option<(T, T) -> bool>, xs: seq<T>)
    ensures forall i :: 0 <= i < |Distinct(comparisonFn, xs)| - 1 ==>
      !Same(comparisonFn, Distinct(comparisonFn, xs)[i], Distinct(comparisonFn, xs)[i + 1])
    decreases |xs|
  {
    if xs != [] {
      var p := xs[..|xs| - 1];
      DistinctHasNoRepeats(comparisonFn, p);
      var out0 := Distinct(comparisonFn, p);
      if !(out0 != [] && Same(comparisonFn, out0[|out0| - 1], xs[|xs| - 1])) {
        var out := out0 + [xs[|xs| - 1]];
        assert Distinct(comparisonFn, xs) == out;
        forall i | 0 <= i < |out| - 1 ensures !Same(comparisonFn, out[i], out[i + 1]) {
          if i < |out0| - 1 {
            assert out[i] == out0[i] && out[i + 1] == out0[i + 1];
            assert !Same(comparisonFn, out0[i], out0[i + 1]);
          } else {
            assert out0 != [];
            assert !Same(comparisonFn, out0[|out0| - 1], xs[|xs| - 1]);
            assert out[i] == out0[|out0| - 1] && out[i + 1] == xs[|xs| - 1];
          }
        }
      } else {
        assert Distinct(comparisonFn, xs) == out0;
      }
    }
  }

  /** Seeding with the identity reducer adds the initial state in front of the
      accumulators and changes no fold. */
  lemma {:induction false} IdentitySeed<T>(init: T, reducers: seq<Reducer<T>>)
    ensures Fold(init, [Identity()] + reducers) == Fold(init, reducers)
    ensures Scan(init, [Identity()] + reducers) == [init] + Scan(init, reducers)
    decreases |reducers|
  {
    var seeded := [Identity()] + reducers;
    if reducers == [] {
      assert seeded[..0] == [];
    } else {
      var n := |reducers|;
      assert seeded[..n] == [Identity()] + reducers[..n - 1];
      assert seeded[n] == reducers[n - 1];
      IdentitySeed(init, reducers[..n - 1]);
    }
  }

  /** A state property that `reducer` keeps. */
  ghost predicate Preserves<T(!new)>(reducer: Reducer<T>, inv: T -> bool) {
    forall s :: inv(s) ==> inv(Produce(s, reducer))
  }

  /** A property of the initial state that every dispatched reducer keeps holds
      of every accumulator. */
  lemma {:induction false} FoldPreserves<T(!new)>(init: T, reducers: seq<Reducer<T>>, inv: T -> bool)
    requires inv(init)
    requires forall i :: 0 <= i < |reducers| ==> Preserves(reducers[i], inv)
    ensures inv(Fold(init, reducers))
    ensures forall k :: 0 <= k < |reducers| ==> inv(Scan(init, reducers)[k])
    decreases |reducers|
  {
    if reducers != [] {
      var n := |reducers|;
      FoldPreserves(init, reducers[..n - 1], inv);
      assert Preserves(reducers[n - 1], inv);
      forall k | 0 <= k < n ensures inv(Scan(init, reducers)[k]) {
        if k < n - 1 {
          assert Scan(init, reducers)[k] == Scan(init, reducers[..n - 1])[k];
        }
      }
    }
  }

  /** The reducer the subject holds once `dispatched` have been pushed. */
  function LatestAfter<T>(dispatched: seq<Reducer<T>>): (latest: Reducer<T>) {
    if dispatched == [] then Identity() else dispatched[|dispatched| - 1]
  }

  /** One subscription to `state$`: its own `scan` accumulator, the last value
      `distinctUntilChanged` let through to it, and whether it is still open. */
  datatype Subscriber<T> = Subscriber(acc: T, last: T, active: bool)

  /** A subscription after the subject delivers `reducer` to it. */
  function Advance<T(==)>(comparisonFn: Option<(T, T) -> bool>, sub: Subscriber<T>, reducer: Reducer<T>): (next: Subscriber<T>)
    ensures next.active == sub.active
    ensures !sub.active ==> next == sub
    ensures sub.active ==> next.acc == Produce(sub.acc, reducer)
    ensures Emission(comparisonFn, sub, reducer).Some? ==> next.last == Emission(comparisonFn, sub, reducer).value
    ensures Emission(comparisonFn, sub, reducer).None? ==> next.last == sub.last
  {
    if !sub.active then sub
    else
      var acc := Produce(sub.acc, reducer);
      Subscriber(acc, if Same(comparisonFn, sub.last, acc) then sub.last else acc, true)
  }

  /** The snapshot the subscription emits when the subject delivers `reducer`. */
  function Emission<T(==)>(comparisonFn: Option<(T, T) -> bool>, sub: Subscriber<T>, reducer: Reducer<T>): (e: Option<T>)
    ensures e.Some? <==> sub.active && !Same(comparisonFn, sub.last, Produce(sub.acc, reducer))
    ensures e.Some? ==> e.value == Produce(sub.acc, reducer)
  {
    if !sub.active then None
    else
      var acc := Produce(sub.acc, reducer);
      if Same(comparisonFn, sub.last, acc) then None else Some(acc)
  }

  /** A subscription that joined after `joinedAt` dispatches (and, once closed,
      left after `leftAt`) has folded the replayed reducer and every reducer
      dispatched while it was open, and has received what `distinctUntilChanged`
      lets through of that fold's accumulators. */
  ghost predicate Tracks<T>(init: T, comparisonFn: Option<(T, T) -> bool>, dispatched: seq<Reducer<T>>,
                            sub: Subscriber<T>, joinedAt: nat, leftAt: nat,
                            seen: seq<Reducer<T>>, received: seq<T>)
  {
    SeenWhileOpen(dispatched, sub.active, joinedAt, leftAt, seen) && Folded(init, comparisonFn, sub, seen, received)
  }

  /** The reducers a subscription has folded: the replayed one, then the ones
      dispatched while it was open. */
  ghost predicate SeenWhileOpen<T>(dispatched: seq<Reducer<T>>, active: bool, joinedAt: nat, leftAt: nat,
                                   seen: seq<Reducer<T>>)
  {
    var end := if active then |dispatched| else leftAt;
    && joinedAt <= end <= |dispatched|
    && seen == [LatestAfter(dispatched[..joinedAt])] + dispatched[joinedAt..end]
  }

  /** A subscription's accumulator and what it has received, given the
      reducers it has folded. */
  ghost predicate Folded<T>(init: T, comparisonFn: Option<(T, T) -> bool>, sub: Subscriber<T>,
                            seen: seq<Reducer<T>>, received: seq<T>)
  {
    && sub.acc == Fold(init, seen)
    && received == Distinct(comparisonFn, Scan(init, seen))
    && received != []
    && sub.last == received[|received| - 1]
  }

  /** One more reducer for an open subscription: the fold takes one more
      `produce` step, `scan` one more accumulator, and `distinctUntilChanged`
      passes it on unless it is the same as the last value passed on. */
  lemma FoldOneMore<T>(init: T, comparisonFn: Option<(T, T) -> bool>, sub: Subscriber<T>,
                       seen: seq<Reducer<T>>, received: seq<T>, reducer: Reducer<T>)
    requires Folded(init, comparisonFn, sub, seen, received) && sub.active
    ensures var e := Emission(comparisonFn, sub, reducer);
      Folded(init, comparisonFn, Advance(comparisonFn, sub, reducer), seen + [reducer],
             if e.Some? then received + [e.value] else received)
  {
    var seen' := seen + [reducer];
    assert seen'[..|seen'| - 1] == seen;
    var acc := Produce(sub.acc, reducer);
    assert Fold(init, seen') == acc;
    var xs := Scan(init, seen');
    assert xs == Scan(init, seen) + [acc];
    assert xs[..|xs| - 1] == Scan(init, seen);
    if Same(comparisonFn, sub.last, acc) {
      assert Distinct(comparisonFn, xs) == received;
    } else {
      assert Distinct(comparisonFn, xs) == received + [acc];
    }
  }

  lemma SeenAfterDispatch<T>(dispatched: seq<Reducer<T>>, active: bool, joinedAt: nat, leftAt: nat,
                             seen: seq<Reducer<T>>, reducer: Reducer<T>)
    requires SeenWhileOpen(dispatched, active, joinedAt, leftAt, seen)
    ensures SeenWhileOpen(dispatched + [reducer], active, joinedAt, leftAt, if active then seen + [reducer] else seen)
  {
    var ds := dispatched + [reducer];
    assert ds[..joinedAt] == dispatched[..joinedAt];
    if active {
      assert ds[joinedAt..|ds|] == dispatched[joinedAt..] + [reducer];
    } else {
      assert ds[joinedAt..leftAt] == dispatched[joinedAt..leftAt];
    }
  }

  lemma TracksAfterDispatch<T>(init: T, comparisonFn: Option<(T, T) -> bool>, dispatched: seq<Reducer<T>>,
                               sub: Subscriber<T>, joinedAt: nat, leftAt: nat,
                               seen: seq<Reducer<T>>, received: seq<T>, reducer: Reducer<T>)
    requires Tracks(init, comparisonFn, dispatched, sub, joinedAt, leftAt, seen, received)
    ensures var e := Emission(comparisonFn, sub, reducer);
      Tracks(init, comparisonFn, dispatched + [reducer], Advance(comparisonFn, sub, reducer), joinedAt, leftAt,
             if sub.active then seen + [reducer] else seen,
             if e.Some? then received + [e.value] else received)
  {
    SeenAfterDispatch(dispatched, sub.active, joinedAt, leftAt, seen, reducer);
    if sub.active {
      FoldOneMore(init, comparisonFn, sub, seen, received, reducer);
    }
  }

  /** `Tracks` for every subscription. */
  ghost predicate AllTrack<T>(init: T, comparisonFn: Option<(T, T) -> bool>, dispatched: seq<Reducer<T>>,
                              subs: seq<Subscriber<T>>, joined: seq<nat>, left: seq<nat>,
                              seen: seq<seq<Reducer<T>>>, received: seq<seq<T>>)
  {
    && |joined| == |subs| && |left| == |subs| && |seen| == |subs| && |received| == |subs|
    && forall i :: 0 <= i < |subs| ==>
         Tracks(init, comparisonFn, dispatched, subs[i], joined[i], left[i], seen[i], received[i])
  }

  lemma AllTrackAfterDispatch<T>(init: T, comparisonFn: Option<(T, T) -> bool>, dispatched: seq<Reducer<T>>,
                                 subs: seq<Subscriber<T>>, joined: seq<nat>, left: seq<nat>,
                                 seen: seq<seq<Reducer<T>>>, received: seq<seq<T>>, reducer: Reducer<T>,
                                 subs': seq<Subscriber<T>>, seen': seq<seq<Reducer<T>>>, received': seq<seq<T>>)
    requires AllTrack(init, comparisonFn, dispatched, subs, joined, left, seen, received)
    requires |subs'| == |subs| && |seen'| == |subs| && |received'| == |subs|
    requires forall i :: 0 <= i < |subs| ==>
      && subs'[i] == Advance(comparisonFn, subs[i], reducer)
      && seen'[i] == (if subs[i].active then seen[i] + [reducer] else seen[i])
      && received'[i] == (var e := Emission(comparisonFn, subs[i], reducer);
                          if e.Some? then received[i] + [e.value] else received[i])
    ensures AllTrack(init, comparisonFn, dispatched + [reducer], subs', joined, left, seen', received')
  {
    forall i | 0 <= i < |subs|
      ensures Tracks(init, comparisonFn, dispatched + [reducer], subs'[i], joined[i], left[i], seen'[i], received'[i])
    {
      TracksAfterDispatch(init, comparisonFn, dispatched, subs[i], joined[i], left[i], seen[i], received[i], reducer);
    }
  }

  lemma AllTrackAfterSubscribe<T>(init: T, comparisonFn: Option<(T, T) -> bool>, dispatched: seq<Reducer<T>>,
                                  subs: seq<Subscriber<T>>, joined: seq<nat>, left: seq<nat>,
                                  seen: seq<seq<Reducer<T>>>, received: seq<seq<T>>)
    requires AllTrack(init, comparisonFn, dispatched, subs, joined, left, seen, received)
    ensures var latest := LatestAfter(dispatched);
      var first := Produce(init, latest);
      AllTrack(init, comparisonFn, dispatched, subs + [Subscriber(first, first, true)], joined + [|dispatched|],
               left + [0], seen + [[latest]], received + [[first]])
  {
    var latest := LatestAfter(dispatched);
    var first := Produce(init, latest);
    var sub := Subscriber(first, first, true);
    NewSubscriberTracks(init, comparisonFn, dispatched);
    var subs', joined', left', seen', received' :=
      subs + [sub], joined + [|dispatched|], left + [0], seen + [[latest]], received + [[first]];
    forall i | 0 <= i < |subs'|
      ensures Tracks(init, comparisonFn, dispatched, subs'[i], joined'[i], left'[i], seen'[i], received'[i])
    {
      if i < |subs| {
        assert subs'[i] == subs[i] && joined'[i] == joined[i] && left'[i] == left[i];
        assert seen'[i] == seen[i] && received'[i] == received[i];
      }
    }
  }

  /** A new subscription has folded only the replayed reducer, and received
      its result. */
  lemma NewSubscriberTracks<T>(init: T, comparisonFn: Option<(T, T) -> bool>, dispatched: seq<Reducer<T>>)
    ensures var latest := LatestAfter(dispatched);
      var first := Produce(init, latest);
      Tracks(init, comparisonFn, dispatched, Subscriber(first, first, true), |dispatched|, 0, [latest], [first])
  {
    var latest := LatestAfter(dispatched);
    var first := Produce(init, latest);
    assert dispatched[..|dispatched|] == dispatched && dispatched[|dispatched|..] == [];
    assert [latest][..0] == [];
    assert Fold(init, [latest]) == first;
    assert Scan(init, [latest]) == [first];
  }

  /** The store returned by `createStore`: the subject's latest reducer and the
      state of each subscription to `state$`. */
  class Store<T(==)> {
    const initialState: T
    const comparisonFn: Option<(T, T) -> bool>
    /** The BehaviorSubject's current value. */
    var latest: Reducer<T>
    /** The subscriptions, in the order they were made. */
    var subscribers: seq<Subscriber<T>>

    /** Every reducer dispatched so far, in order. */
    ghost var dispatched: seq<Reducer<T>>
    /** Per subscription: how many dispatches came before it joined, and
        (once closed) before it left. */
    ghost var joined: seq<nat>
    ghost var left: seq<nat>
    /** Per subscription: the reducers its `scan` has folded, and the snapshots
        delivered to its observer. */
    ghost var seen: seq<seq<Reducer<T>>>
    ghost var received: seq<seq<T>>

    ghost predicate Valid()
      reads this
    {
      && latest == LatestAfter(dispatched)
      && AllTrack(initialState, comparisonFn, dispatched, subscribers, joined, left, seen, received)
    }

    /** `createStore(initialState, comparisonFn)`. */
    constructor (initialState: T, comparisonFn: Option<(T, T) -> bool>)
      ensures Valid()
      ensures this.initialState == initialState && this.comparisonFn == comparisonFn
      ensures latest == Identity() && subscribers == [] && dispatched == []
    {
      this.initialState := initialState;
      this.comparisonFn := comparisonFn;
      latest := Identity();
      subscribers := [];
      dispatched, joined, left, seen, received := [], [], [], [], [];
    }

    /** `state$.subscribe(...)`: the subject replays its latest reducer into a
        fresh `scan` started at `initialState`, and the result is the new
        subscription's first emission. */
    method Subscribe() returns (id: nat, first: T)
      requires Valid()
      modifies this
      ensures Valid()
      ensures id == old(|subscribers|)
      ensures first == Produce(initialState, latest)
      ensures old(dispatched) == [] ==> first == initialState
      ensures old(dispatched) != [] ==> first == Produce(initialState, old(dispatched)[|old(dispatched)| - 1])
      ensures subscribers == old(subscribers) + [Subscriber(first, first, true)]
      ensures received == old(received) + [[first]]
      ensures joined == old(joined) + [old(|dispatched|)] && left == old(left) + [0]
      ensures seen == old(seen) + [[old(latest)]]
      ensures latest == old(latest) && dispatched == old(dispatched)
    {
      id := |subscribers|;
      first := Produce(initialState, latest);
      AllTrackAfterSubscribe(initialState, comparisonFn, dispatched, subscribers, joined, left, seen, received);
      subscribers := subscribers + [Subscriber(first, first, true)];
      joined := joined + [|dispatched|];
      left := left + [0];
      seen := seen + [[latest]];
      received := received + [[first]];
    }

    /** `dispatch(reducer)`, that is `push$.next(reducer)`: the reducer becomes
        the subject's value, and the subject delivers it to every open
        subscription, in subscription order. `delivered[i]` is what reaches
        subscriber `i`'s observer. What a subscriber has already received is
        never changed. */
    method Dispatch(reducer: Reducer<T>) returns (delivered: seq<Option<T>>)
      requires Valid()
      modifies this
      ensures Valid()
      ensures latest == reducer && dispatched == old(dispatched) + [reducer]
      ensures |subscribers| == old(|subscribers|) && |delivered| == |subscribers|
      ensures forall i :: 0 <= i < |subscribers| ==>
        && subscribers[i] == Advance(comparisonFn, old(subscribers[i]), reducer)
        && delivered[i] == Emission(comparisonFn, old(subscribers[i]), reducer)
        && received[i] == old(received[i]) + (if delivered[i].Some? then [delivered[i].value] else [])
      ensures joined == old(joined) && left == old(left) && |seen| == |subscribers|
      ensures forall i :: 0 <= i < |subscribers| ==>
        seen[i] == (if old(subscribers[i]).active then old(seen[i]) + [reducer] else old(seen[i]))
    {
      var subs := subscribers;
      delivered := seq(|subs|, i requires 0 <= i < |subs| => Emission(comparisonFn, subs[i], reducer));
      subscribers := seq(|subs|, i requires 0 <= i < |subs| => Advance(comparisonFn, subs[i], reducer));
      latest := reducer;
      ghost var ds, sn, rc := dispatched, seen, received;
      dispatched := dispatched + [reducer];
      seen := seq(|sn|, i requires 0 <= i < |sn| && i < |subs| => if subs[i].active then sn[i] + [reducer] else sn[i]);
      received := seq(|rc|, i requires 0 <= i < |rc| && i < |delivered| =>
                        if delivered[i].Some? then rc[i] + [delivered[i].value] else rc[i]);
      AllTrackAfterDispatch(initialState, comparisonFn, ds, subs, joined, left, sn, rc, reducer,
                            subscribers, seen, received);
    }

    /** `subscription.unsubscribe()`: the subscription receives nothing more. */
    method Unsubscribe(id: nat)
      requires Valid()
      requires id < |subscribers|
      modifies this
      ensures Valid()
      ensures subscribers == old(subscribers)[id := old(subscribers)[id].(active := false)]
      ensures latest == old(latest) && dispatched == old(dispatched) && received == old(received)
      ensures joined == old(joined) && seen == old(seen)
      ensures left == old(left)[id := if old(subscribers[id].active) then old(|dispatched|) else old(left[id])]
    {
      if subscribers[id].active {
        left := left[id := |dispatched|];
      }
      subscribers := subscribers[id := subscribers[id].(active := false)];
    }

    /** A subscription made before anything was dispatched, and still open,
        holds the fold of every dispatched reducer over `initialState`, in
        dispatch order, and has received `initialState` followed by the
        accumulators, with repeats dropped. */
    lemma EarlySubscriberSeesFold(i: nat)
      requires Valid()
      requires i < |subscribers| && joined[i] == 0 && subscribers[i].active
      ensures subscribers[i].acc == Fold(initialState, dispatched)
      ensures received[i] == Distinct(comparisonFn, [initialState] + Scan(initialState, dispatched))
    {
      assert Tracks(initialState, comparisonFn, dispatched, subscribers[i], joined[i], left[i], seen[i], received[i]);
      assert dispatched[..0] == [] && dispatched[0..|dispatched|] == dispatched;
      assert seen[i] == [Identity()] + dispatched;
      IdentitySeed(initialState, dispatched);
    }

    /** Any open subscription, whenever it joined, has folded the reducer the
        subject replayed to it and then every later dispatch, and has received
        what `distinctUntilChanged` lets through of those accumulators. One
        that joined after a dispatch therefore starts from that single reducer
        applied to `initialState`, not from the fold of everything before. */
    lemma LateSubscriberSeesFold(i: nat)
      requires Valid()
      requires i < |subscribers| && subscribers[i].active
      ensures joined[i] <= |dispatched| &&
        subscribers[i].acc == Fold(initialState, [LatestAfter(dispatched[..joined[i]])] + dispatched[joined[i]..])
      ensures joined[i] <= |dispatched| &&
        received[i] == Distinct(comparisonFn, Scan(initialState, [LatestAfter(dispatched[..joined[i]])] + dispatched[joined[i]..]))
      ensures 0 < joined[i] <= |dispatched| ==>
        subscribers[i].acc == Fold(Produce(initialState, dispatched[joined[i] - 1]), dispatched[joined[i]..])
    {
      assert Tracks(initialState, comparisonFn, dispatched, subscribers[i], joined[i], left[i], seen[i], received[i]);
      var j := joined[i];
      var replayed := LatestAfter(dispatched[..j]);
      assert dispatched[j..|dispatched|] == dispatched[j..];
      FoldSplit(initialState, [replayed], dispatched[j..]);
      assert [replayed][..0] == [];
    }

    /** No subscriber receives the same snapshot twice in a row. */
    lemma NoRepeatedEmissions(i: nat)
      requires Valid()
      requires i < |subscribers|
      ensures forall k :: 0 <= k < |received[i]| - 1 ==> !Same(comparisonFn, received[i][k], received[i][k + 1])
    {
      assert Tracks(initialState, comparisonFn, dispatched, subscribers[i], joined[i], left[i], seen[i], received[i]);
      assert received[i] == Distinct(comparisonFn, Scan(initialState, seen[i]));
      DistinctHasNoRepeats(comparisonFn, Scan(initialState, seen[i]));
    }
  }

  /** The counter's reducer: add one to the draft. */
  function Increment(): (reducer: Reducer<int>) {
    (stateDraft, readOnlyState) => stateDraft + 1
  }

  /** A counter store from 0 with one subscriber, after one increment. */
  method CounterAfterOneIncrement() returns (store: Store<int>)
    ensures fresh(store) && store.Valid()
    ensures store.initialState == 0 && store.comparisonFn == None
    ensures store.subscribers == [Subscriber(1, 1, true)]
  {
    store := new Store<int>(0, None);
    var id, first := store.Subscribe();
    assert store.subscribers == [Subscriber(0, 0, true)];
    var d := store.Dispatch(Increment());
    assert Produce(0, Increment()) == 1;
    assert store.subscribers[0] == Advance(None, Subscriber(0, 0, true), Increment());
    assert |store.subscribers| == 1;
  }

  /** The same store after a second increment: the subscriber is delivered 2. */
  method CounterAfterTwoIncrements() returns (store: Store<int>, early: int)
    ensures fresh(store) && store.Valid()
    ensures store.initialState == 0 && store.latest == Increment()
    ensures early == 2
  {
    store := CounterAfterOneIncrement();
    var d := store.Dispatch(Increment());
    assert d[0] == Emission(None, Subscriber(1, 1, true), Increment()) == Some(2);
    early := d[0].value;
  }

  /** The late-subscriber quirk on a counter store: after two increments an
      early subscriber holds 2, while one subscribing afterwards starts from
      the single replayed increment applied to 0. */
  method LateSubscriberScenario() returns (early: int, late: int)
    ensures early == 2 && late == 1
  {
    var store;
    store, early := CounterAfterTwoIncrements();
    var lateId;
    lateId, late := store.Subscribe();
  }
}
