/**
 Where the store's lock ends and dispatch begins. A single write is installed and dispatched under one
 lock. A batch or a refresh installs under the lock, queues its events, and dispatches them one by one
 after the lock is released, so that other writes may come in between. These theorems say what a watcher
 that replays the dispatched events then sees.
 */
module Fanout {
  import opened Order
  import opened Replica
  import opened History

  /**
   `ops` are the operations applied so far, in the order of the lock; `queues` holds the events each batch has
   still to dispatch; `log` is what has been dispatched.
   */
  datatype Fan<T> = Fan(ops: seq<Op<T>>, queues: seq<seq<Event<T>>>, log: seq<Event<T>>)

  datatype Step<T> =
    | One(op: Op<T>)            // applyMessage, or a collection pass
    | Batch(ops: seq<Op<T>>)    // the locked loop of SetMany, DeleteMany or mergeSnapshot
    | Abort(ops: seq<Op<T>>)    // the same, cut short by a value that does not marshal or decode
    | Send(i: nat)              // one dispatch of the i-th batch

  /** The store's map. */
  function Held<T>(cfg: Config<T>, start: Data<T>, s: Fan<T>): Data<T> {
    Run(cfg, start, s.ops)
  }

  /** The events of everything applied so far, in the order of the lock. */
  function Due<T>(cfg: Config<T>, start: Data<T>, ops: seq<Op<T>>): seq<Event<T>> {
    EventsOf(Installs(cfg, start, ops))
  }

  function Fire<T>(cfg: Config<T>, start: Data<T>, s: Fan<T>, step: Step<T>): Fan<T> {
    match step
    case One(op) => s.(ops := s.ops + [op], log := s.log + Due(cfg, Held(cfg, start, s), [op]))
    case Batch(ops) => s.(ops := s.ops + ops, queues := s.queues + [Due(cfg, Held(cfg, start, s), ops)])
    case Abort(ops) => s.(ops := s.ops + ops)
    case Send(i) =>
      if i >= |s.queues| || s.queues[i] == [] then s
      else s.(queues := s.queues[i := s.queues[i][1..]], log := s.log + [s.queues[i][0]])
  }

  function After<T>(cfg: Config<T>, start: Data<T>, steps: seq<Step<T>>): Fan<T> {
    if steps == [] then Fan([], [], [])
    else Fire(cfg, start, After(cfg, start, steps[..|steps| - 1]), steps[|steps| - 1])
  }

  /** What is queued, batch after batch. */
  function Flat<A>(queues: seq<seq<A>>): seq<A> {
    if queues == [] then [] else Flat(queues[..|queues| - 1]) + queues[|queues| - 1]
  }

  // ---------------------------------------------------------------- one key's events

  function OnKey<T>(events: seq<Event<T>>, k: GoString): seq<Event<T>> {
    if events == [] then []
    else OnKey(events[..|events| - 1], k) + if events[|events| - 1].key == k then [events[|events| - 1]] else []
  }

  lemma {:induction false} OnKeyConcat<T>(xs: seq<Event<T>>, ys: seq<Event<T>>, k: GoString)
    ensures OnKey(xs + ys, k) == OnKey(xs, k) + OnKey(ys, k)
  {
    if ys == [] {
      assert xs + ys == xs;
    } else {
      OnKeyConcat(xs, ys[..|ys| - 1], k);
      assert (xs + ys)[..|xs + ys| - 1] == xs + ys[..|ys| - 1];
    }
  }

  /** Where the i-th event on `k` came from. */
  lemma {:induction false} OnKeyFrom<T>(events: seq<Event<T>>, k: GoString, i: nat) returns (j: nat)
    requires i < |OnKey(events, k)|
    ensures j < |events| && events[j] == OnKey(events, k)[i] && events[j].key == k
  {
    var init := events[..|events| - 1];
    if i < |OnKey(init, k)| {
      j := OnKeyFrom(init, k, i);
    } else {
      j := |init|;
    }
  }

  lemma {:induction false} OnKeyHas<T>(events: seq<Event<T>>, k: GoString, j: nat)
    requires j < |events| && events[j].key == k
    ensures OnKey(events, k) != []
  {
    if j < |events| - 1 {
      OnKeyHas(events[..|events| - 1], k, j);
    }
  }

  function At<T>(view: map<GoString, T>, k: GoString): Option<T> {
    if k in view then Some(view[k]) else None
  }

  /** What a key's events leave it with: a value, or nothing. */
  function Leaves<T>(view: map<GoString, T>, k: GoString, events: seq<Event<T>>): Option<T> {
    if events == [] then At(view, k)
    else if events[|events| - 1].kind.EventSet? then Some(events[|events| - 1].value)
    else None
  }

  /** Replaying events leaves each key as its own events alone would. */
  lemma {:induction false} ReplayPerKey<T>(view: map<GoString, T>, events: seq<Event<T>>, k: GoString)
    ensures At(Replay(view, events), k) == Leaves(view, k, OnKey(events, k))
  {
    if events != [] {
      ReplayPerKey(view, events[..|events| - 1], k);
    }
  }

  /** On `k`, both sequences of events leave the same. */
  ghost predicate AgreeOn<T>(view: map<GoString, T>, xs: seq<Event<T>>, ys: seq<Event<T>>, k: GoString) {
    Leaves(view, k, OnKey(xs, k)) == Leaves(view, k, OnKey(ys, k))
  }

  lemma SameViews<T>(v: map<GoString, T>, v': map<GoString, T>)
    requires forall k :: At(v, k) == At(v', k)
    ensures v == v'
  {
    forall k ensures (k in v <==> k in v') && (k in v ==> v[k] == v'[k]) {
      assert At(v, k) == At(v', k);
    }
  }

  lemma ReplayAgrees<T>(view: map<GoString, T>, xs: seq<Event<T>>, ys: seq<Event<T>>)
    ensures Replay(view, xs) == Replay(view, ys) <==> forall k :: AgreeOn(view, xs, ys, k)
  {
    var v, v' := Replay(view, xs), Replay(view, ys);
    forall k ensures AgreeOn(view, xs, ys, k) <==> At(v, k) == At(v', k) {
      ReplayPerKey(view, xs, k);
      ReplayPerKey(view, ys, k);
    }
    if forall k :: AgreeOn(view, xs, ys, k) {
      forall k ensures At(v, k) == At(v', k) {
        assert AgreeOn(view, xs, ys, k);
      }
      SameViews(v, v');
    }
  }

  // ---------------------------------------------------------------- queues

  lemma {:induction false} FlatSkips<T>(queues: seq<seq<Event<T>>>, k: GoString)
    requires forall j :: 0 <= j < |queues| ==> OnKey(queues[j], k) == []
    ensures OnKey(Flat(queues), k) == []
  {
    if queues != [] {
      var init := queues[..|queues| - 1];
      assert forall j :: 0 <= j < |init| ==> init[j] == queues[j];
      FlatSkips(init, k);
      OnKeyConcat(Flat(init), queues[|queues| - 1], k);
    }
  }

  /** If only one queue has events on `k`, they are the queued events on `k`. */
  lemma {:induction false} FlatFinds<T>(queues: seq<seq<Event<T>>>, i: nat, k: GoString)
    requires i < |queues| && forall j :: 0 <= j < |queues| && j != i ==> OnKey(queues[j], k) == []
    ensures OnKey(Flat(queues), k) == OnKey(queues[i], k)
  {
    var init, last := queues[..|queues| - 1], queues[|queues| - 1];
    assert forall j :: 0 <= j < |init| ==> init[j] == queues[j];
    OnKeyConcat(Flat(init), last, k);
    if i == |init| {
      FlatSkips(init, k);
    } else {
      FlatFinds(init, i, k);
    }
  }

  /** Replacing a queue by one with the same events on `k` leaves the queued events on `k`. */
  lemma {:induction false} FlatReplaces<T>(queues: seq<seq<Event<T>>>, i: nat, q: seq<Event<T>>, k: GoString)
    requires i < |queues| && OnKey(q, k) == OnKey(queues[i], k)
    ensures OnKey(Flat(queues[i := q]), k) == OnKey(Flat(queues), k)
  {
    var init, last := queues[..|queues| - 1], queues[|queues| - 1];
    var queues' := queues[i := q];
    OnKeyConcat(Flat(init), last, k);
    OnKeyConcat(Flat(queues'[..|init|]), queues'[|init|], k);
    if i == |init| {
      assert queues'[..|init|] == init;
    } else {
      assert queues'[..|init|] == init[i := q];
      FlatReplaces(init, i, q, k);
    }
  }

  /** Taking the head off a queue takes one event out of what is queued. */
  lemma {:induction false} FlatPops<A>(queues: seq<seq<A>>, i: nat)
    requires i < |queues| && queues[i] != []
    ensures multiset(Flat(queues)) == multiset(Flat(queues[i := queues[i][1..]])) + multiset{queues[i][0]}
  {
    var init, last := queues[..|queues| - 1], queues[|queues| - 1];
    var queues' := queues[i := queues[i][1..]];
    if i == |init| {
      assert queues'[..|init|] == init && last == [last[0]] + last[1..];
    } else {
      assert queues'[..|init|] == init[i := init[i][1..]];
      FlatPops(init, i);
    }
  }

  // ---------------------------------------------------------------- calm runs

  ghost predicate Queued<T>(queues: seq<seq<Event<T>>>, k: GoString) {
    exists i :: 0 <= i < |queues| && OnKey(queues[i], k) != []
  }

  /** None of the events is on a key that still has one queued. */
  ghost predicate Undisturbed<T>(queues: seq<seq<Event<T>>>, events: seq<Event<T>>) {
    forall k {:trigger Queued(queues, k)} :: OnKey(events, k) != [] ==> !Queued(queues, k)
  }

  /**
   The step installs no key that a batch has still to dispatch an event on, and no batch that installed anything
   is cut short.
   */
  ghost predicate Calm<T>(cfg: Config<T>, start: Data<T>, s: Fan<T>, step: Step<T>) {
    match step
    case One(op) => Undisturbed(s.queues, Due(cfg, Held(cfg, start, s), [op]))
    case Batch(ops) => Undisturbed(s.queues, Due(cfg, Held(cfg, start, s), ops))
    case Abort(ops) => Due(cfg, Held(cfg, start, s), ops) == []
    case Send(_) => true
  }

  ghost predicate CalmRun<T>(cfg: Config<T>, start: Data<T>, steps: seq<Step<T>>) {
    steps != [] ==>
      && CalmRun(cfg, start, steps[..|steps| - 1])
      && Calm(cfg, start, After(cfg, start, steps[..|steps| - 1]), steps[|steps| - 1])
  }

  /**
   What was dispatched and what is queued on `k` are its events in the order of the lock, and one batch at most
   has any queued.
   */
  ghost predicate Tuned<T>(log: seq<Event<T>>, queues: seq<seq<Event<T>>>, due: seq<Event<T>>, k: GoString) {
    OnKey(log, k) + OnKey(Flat(queues), k) == OnKey(due, k) && Exclusive(queues, k)
  }

  ghost predicate Exclusive<T>(queues: seq<seq<Event<T>>>, k: GoString) {
    forall i, j :: 0 <= i < j < |queues| ==> OnKey(queues[i], k) == [] || OnKey(queues[j], k) == []
  }

  lemma DueConcat<T>(cfg: Config<T>, start: Data<T>, xs: seq<Op<T>>, ys: seq<Op<T>>)
    ensures Due(cfg, start, xs + ys) == Due(cfg, start, xs) + Due(cfg, Run(cfg, start, xs), ys)
  {
    RunConcat(cfg, start, xs, ys);
    EventsConcat(Installs(cfg, start, xs), Installs(cfg, Run(cfg, start, xs), ys));
  }

  /** An undisturbed event on `k` finds nothing queued on it. */
  lemma NothingQueued<T>(queues: seq<seq<Event<T>>>, events: seq<Event<T>>, k: GoString)
    requires Undisturbed(queues, events) && OnKey(events, k) != []
    ensures OnKey(Flat(queues), k) == [] && forall i :: 0 <= i < |queues| ==> OnKey(queues[i], k) == []
  {
    assert !Queued(queues, k);
    FlatSkips(queues, k);
  }

  lemma OneKeepsTuned<T>(log: seq<Event<T>>, queues: seq<seq<Event<T>>>, due: seq<Event<T>>, events: seq<Event<T>>,
                         k: GoString)
    requires Tuned(log, queues, due, k) && Undisturbed(queues, events)
    ensures Tuned(log + events, queues, due + events, k)
  {
    OnKeyConcat(due, events, k);
    OnKeyConcat(log, events, k);
    if OnKey(events, k) != [] {
      NothingQueued(queues, events, k);
    }
  }

  lemma BatchKeepsTuned<T>(log: seq<Event<T>>, queues: seq<seq<Event<T>>>, due: seq<Event<T>>, events: seq<Event<T>>,
                           k: GoString)
    requires Tuned(log, queues, due, k) && Undisturbed(queues, events)
    ensures Tuned(log, queues + [events], due + events, k)
  {
    OnKeyConcat(due, events, k);
    assert (queues + [events])[..|queues|] == queues;
    OnKeyConcat(Flat(queues), events, k);
    if OnKey(events, k) != [] {
      NothingQueued(queues, events, k);
    }
  }

  /** Dispatching the head of a queue moves it from the queued to the dispatched events on its key. */
  lemma SendMovesHead<T>(queues: seq<seq<Event<T>>>, i: nat, k: GoString)
    requires i < |queues| && queues[i] != []
    requires Exclusive(queues, k)
    ensures OnKey(Flat(queues), k) == OnKey([queues[i][0]], k) + OnKey(Flat(queues[i := queues[i][1..]]), k)
    ensures Exclusive(queues[i := queues[i][1..]], k)
  {
    var head, tail := queues[i][0], queues[i][1..];
    assert queues[i] == [head] + tail;
    OnKeyConcat([head], tail, k);
    OnKeyOne(head, k);
    StillExclusive(queues, i, tail, k);
    if head.key == k {
      forall j | 0 <= j < |queues| && j != i ensures OnKey(queues[j], k) == [] {
        assert OnKey(queues[i], k) != [];
      }
      FlatFinds(queues, i, k);
      FlatFinds(queues[i := tail], i, k);
    } else {
      FlatReplaces(queues, i, tail, k);
    }
  }

  lemma StillExclusive<T>(queues: seq<seq<Event<T>>>, i: nat, q: seq<Event<T>>, k: GoString)
    requires i < |queues| && Exclusive(queues, k) && (OnKey(queues[i], k) == [] ==> OnKey(q, k) == [])
    ensures Exclusive(queues[i := q], k)
  {
  }

  lemma Regroup<T>(x: seq<T>, y: seq<T>, z: seq<T>)
    ensures x + (y + z) == (x + y) + z
  {
  }

  lemma SendKeepsTuned<T>(log: seq<Event<T>>, queues: seq<seq<Event<T>>>, due: seq<Event<T>>, i: nat, k: GoString)
    requires Tuned(log, queues, due, k) && i < |queues| && queues[i] != []
    ensures Tuned(log + [queues[i][0]], queues[i := queues[i][1..]], due, k)
  {
    SendMovesHead(queues, i, k);
    var head := [queues[i][0]];
    var rest := queues[i := queues[i][1..]];
    OnKeyConcat(log, head, k);
    Regroup(OnKey(log, k), OnKey(head, k), OnKey(Flat(rest), k));
  }

  lemma OnKeyOne<T>(e: Event<T>, k: GoString)
    ensures OnKey([e], k) == if e.key == k then [e] else []
  {
    assert [e][..0] == [];
  }

  lemma {:induction false} CalmRunsTuned<T>(cfg: Config<T>, start: Data<T>, steps: seq<Step<T>>, k: GoString)
    requires CalmRun(cfg, start, steps)
    ensures var s := After(cfg, start, steps); Tuned(s.log, s.queues, Due(cfg, start, s.ops), k)
  {
    if steps != [] {
      CalmRunsTuned(cfg, start, steps[..|steps| - 1], k);
      CalmStepTuned(cfg, start, After(cfg, start, steps[..|steps| - 1]), steps[|steps| - 1], k);
    }
  }

  lemma CalmStepTuned<T>(cfg: Config<T>, start: Data<T>, s: Fan<T>, step: Step<T>, k: GoString)
    requires Tuned(s.log, s.queues, Due(cfg, start, s.ops), k) && Calm(cfg, start, s, step)
    ensures var s' := Fire(cfg, start, s, step); Tuned(s'.log, s'.queues, Due(cfg, start, s'.ops), k)
  {
    var due := Due(cfg, start, s.ops);
    match step
    case One(op) =>
      DueConcat(cfg, start, s.ops, [op]);
      OneKeepsTuned(s.log, s.queues, due, Due(cfg, Held(cfg, start, s), [op]), k);
    case Batch(ops) =>
      DueConcat(cfg, start, s.ops, ops);
      BatchKeepsTuned(s.log, s.queues, due, Due(cfg, Held(cfg, start, s), ops), k);
    case Abort(ops) =>
      DueConcat(cfg, start, s.ops, ops);
      assert due + [] == due;
    case Send(i) =>
      if i < |s.queues| && s.queues[i] != [] {
        SendKeepsTuned(s.log, s.queues, due, i, k);
      }
  }

  // ---------------------------------------------------------------- main theorems

  /** A run's operations and dispatched events only grow, and a part of a calm run is calm. */
  lemma {:induction false} RunGrows<T>(cfg: Config<T>, start: Data<T>, before: seq<Step<T>>, more: seq<Step<T>>)
    ensures var s, s' := After(cfg, start, before), After(cfg, start, before + more); s.ops <= s'.ops && s.log <= s'.log
    ensures CalmRun(cfg, start, before + more) ==> CalmRun(cfg, start, before)
  {
    if more == [] {
      assert before + more == before;
    } else {
      RunGrows(cfg, start, before, more[..|more| - 1]);
      assert (before + more)[..|before + more| - 1] == before + more[..|more| - 1];
    }
  }

  /** Events of `k` that were still queued when the view was taken add nothing to it. */
  lemma QueuedAddNothing<T>(cfg: Config<T>, start: Data<T>, s: Fan<T>, later: seq<Event<T>>, k: GoString)
    requires Tuned(s.log, s.queues, Due(cfg, start, s.ops), k)
    ensures Leaves(View(Held(cfg, start, s)), k, OnKey(Flat(s.queues), k) + OnKey(later, k)) ==
            Leaves(View(Held(cfg, start, s)), k, OnKey(later, k))
  {
    var queued := OnKey(Flat(s.queues), k);
    if OnKey(later, k) == [] && queued != [] {
      ReplayReproduces(cfg, start, s.ops);
      ReplayPerKey(View(start), Due(cfg, start, s.ops), k);
      assert queued + OnKey(later, k) == queued;
    }
  }

  lemma SinceOnKey<T>(cfg: Config<T>, start: Data<T>, s: Fan<T>, s': Fan<T>, extra: seq<Op<T>>, sent: seq<Event<T>>,
                      k: GoString)
    requires Tuned(s.log, s.queues, Due(cfg, start, s.ops), k) && Tuned(s'.log, s'.queues, Due(cfg, start, s'.ops), k)
    requires s'.ops == s.ops + extra && s'.log == s.log + sent
    ensures AgreeOn(View(Held(cfg, start, s)), sent + Flat(s'.queues), Due(cfg, Held(cfg, start, s), extra), k)
  {
    var due := Due(cfg, Held(cfg, start, s), extra);
    DueConcat(cfg, start, s.ops, extra);
    OnKeyConcat(Due(cfg, start, s.ops), due, k);
    OnKeyConcat(s.log, sent, k);
    OnKeyConcat(sent, Flat(s'.queues), k);
    CancelPrefix(OnKey(s.log, k), OnKey(sent, k), OnKey(Flat(s'.queues), k), OnKey(Flat(s.queues), k), OnKey(due, k));
    QueuedAddNothing(cfg, start, s, due, k);
  }

  lemma CancelPrefix<T>(x: seq<T>, a: seq<T>, b: seq<T>, c: seq<T>, d: seq<T>)
    requires (x + a) + b == (x + c) + d
    ensures a + b == c + d
  {
    assert a + b == ((x + a) + b)[|x|..];
    assert c + d == ((x + c) + d)[|x|..];
  }

  /**
   In every run in which no step installs a key that another batch has still to dispatch: a watcher that comes in
   at any point, with the view of that point, and replays what is dispatched from then on and then what is still
   queued, has the live view, also when batches were in the middle of their dispatches as it came in.
   */
  lemma CalmReplay<T>(cfg: Config<T>, start: Data<T>, before: seq<Step<T>>, more: seq<Step<T>>)
    requires CalmRun(cfg, start, before + more)
    ensures var s, s' := After(cfg, start, before), After(cfg, start, before + more);
            && s.log <= s'.log
            && Replay(View(Held(cfg, start, s)), s'.log[|s.log|..] + Flat(s'.queues)) == View(Held(cfg, start, s'))
  {
    RunGrows(cfg, start, before, more);
    var s, s' := After(cfg, start, before), After(cfg, start, before + more);
    var sent, extra := s'.log[|s.log|..], s'.ops[|s.ops|..];
    var held := Held(cfg, start, s);
    assert s'.ops == s.ops + extra && s'.log == s.log + sent;
    forall k ensures AgreeOn(View(held), sent + Flat(s'.queues), Due(cfg, held, extra), k) {
      CalmRunsTuned(cfg, start, before, k);
      CalmRunsTuned(cfg, start, before + more, k);
      SinceOnKey(cfg, start, s, s', extra, sent, k);
    }
    ReplayAgrees(View(held), sent + Flat(s'.queues), Due(cfg, held, extra));
    ReplayReproduces(cfg, held, extra);
    RunConcat(cfg, start, s.ops, extra);
  }

  predicate Rising<T>(events: seq<Event<T>>) {
    forall i, j :: 0 <= i < j < |events| ==> events[i].timestamp <= events[j].timestamp
  }

  lemma {:induction false} DueRises<T>(cfg: Config<T>, start: Data<T>, ops: seq<Op<T>>, k: GoString)
    requires forall i :: 0 <= i < |ops| ==> !ops[i].Gc?
    ensures Rising(OnKey(Due(cfg, start, ops), k))
  {
    InstallsIncrease(cfg, start, ops);
    RisesOnKey(Installs(cfg, start, ops), k);
  }

  lemma {:induction false} RisesOnKey<T>(installs: seq<(GoString, Entry<T>)>, k: GoString)
    requires Increasing(installs)
    ensures Rising(OnKey(EventsOf(installs), k))
  {
    if installs != [] {
      var init, last := installs[..|installs| - 1], installs[|installs| - 1];
      RisesOnKey(init, k);
      var events := EventsOf(init);
      assert EventsOf(installs)[..|init|] == events;
      if last.0 == k {
        forall i | 0 <= i < |OnKey(events, k)| ensures OnKey(events, k)[i].timestamp <= last.1.stamp.timestamp {
          var j := OnKeyFrom(events, k, i);
          assert installs[j].0 == k && StampLess(installs[j].1.stamp, last.1.stamp);
        }
      }
    }
  }

  /**
   In a calm run without collection passes a watcher sees each key's events in the order of the lock, with rising
   timestamps.
   */
  lemma CalmKeysMonotonic<T>(cfg: Config<T>, start: Data<T>, steps: seq<Step<T>>, k: GoString)
    requires CalmRun(cfg, start, steps)
    requires var ops := After(cfg, start, steps).ops; forall i :: 0 <= i < |ops| ==> !ops[i].Gc?
    ensures var s := After(cfg, start, steps);
            OnKey(s.log, k) <= OnKey(Due(cfg, start, s.ops), k) && Rising(OnKey(s.log, k))
  {
    CalmRunsTuned(cfg, start, steps, k);
    DueRises(cfg, start, After(cfg, start, steps).ops, k);
  }

  /**
   In every run and at every point of it, aborted batches included: a watcher's replay is right if and only if on
   every key the events dispatched leave what the events installed leave.
   */
  lemma ReplayRight<T>(cfg: Config<T>, start: Data<T>, steps: seq<Step<T>>)
    ensures var s := After(cfg, start, steps);
            Replay(View(start), s.log) == View(Held(cfg, start, s)) <==>
            forall k :: AgreeOn(View(start), s.log, Due(cfg, start, s.ops), k)
  {
    var s := After(cfg, start, steps);
    ReplayReproduces(cfg, start, s.ops);
    ReplayAgrees(View(start), s.log, Due(cfg, start, s.ops));
  }

  /** No batch of the run was cut short. */
  predicate Complete<T>(steps: seq<Step<T>>) {
    forall i :: 0 <= i < |steps| ==> !steps[i].Abort?
  }

  /** Every event is dispatched or queued, each as often as it was installed. */
  ghost predicate Balanced<T>(log: seq<Event<T>>, queues: seq<seq<Event<T>>>, due: seq<Event<T>>) {
    multiset(log) + multiset(Flat(queues)) == multiset(due)
  }

  lemma BatchBalances<T>(log: seq<Event<T>>, queues: seq<seq<Event<T>>>, due: seq<Event<T>>, events: seq<Event<T>>)
    requires Balanced(log, queues, due)
    ensures Balanced(log, queues + [events], due + events)
  {
    assert (queues + [events])[..|queues|] == queues;
  }

  lemma OneBalances<T>(log: seq<Event<T>>, queues: seq<seq<Event<T>>>, due: seq<Event<T>>, events: seq<Event<T>>)
    requires Balanced(log, queues, due)
    ensures Balanced(log + events, queues, due + events)
  {
  }

  lemma SendBalances<T>(log: seq<Event<T>>, queues: seq<seq<Event<T>>>, due: seq<Event<T>>, i: nat)
    requires Balanced(log, queues, due) && i < |queues| && queues[i] != []
    ensures Balanced(log + [queues[i][0]], queues[i := queues[i][1..]], due)
  {
    FlatPops(queues, i);
  }

  lemma StepBalances<T>(cfg: Config<T>, start: Data<T>, s: Fan<T>, step: Step<T>)
    requires Balanced(s.log, s.queues, Due(cfg, start, s.ops)) && !step.Abort?
    ensures var s' := Fire(cfg, start, s, step); Balanced(s'.log, s'.queues, Due(cfg, start, s'.ops))
  {
    var due := Due(cfg, start, s.ops);
    match step
    case One(op) =>
      DueConcat(cfg, start, s.ops, [op]);
      OneBalances(s.log, s.queues, due, Due(cfg, Held(cfg, start, s), [op]));
    case Batch(ops) =>
      DueConcat(cfg, start, s.ops, ops);
      BatchBalances(s.log, s.queues, due, Due(cfg, Held(cfg, start, s), ops));
    case Send(i) =>
      if i < |s.queues| && s.queues[i] != [] {
        SendBalances(s.log, s.queues, due, i);
      }
  }

  /** Without aborted batches no event gets lost or doubled. */
  lemma {:induction false} NothingMissing<T>(cfg: Config<T>, start: Data<T>, steps: seq<Step<T>>)
    requires Complete(steps)
    ensures var s := After(cfg, start, steps); Balanced(s.log, s.queues, Due(cfg, start, s.ops))
  {
    if steps != [] {
      NothingMissing(cfg, start, steps[..|steps| - 1]);
      StepBalances(cfg, start, After(cfg, start, steps[..|steps| - 1]), steps[|steps| - 1]);
    }
  }

  /** A key's last event. */
  function LastOn<T>(events: seq<Event<T>>, k: GoString): Option<Event<T>> {
    var es := OnKey(events, k);
    if es == [] then None else Some(es[|es| - 1])
  }

  predicate SameEffect<T(==)>(a: Option<Event<T>>, b: Option<Event<T>>) {
    || (a.None? && b.None?)
    || (a.Some? && b.Some? && a.value.kind == b.value.kind
        && (a.value.kind.EventSet? ==> a.value.value == b.value.value))
  }

  /**
   In every run without aborted batches, calm or not, once all queues are empty: a watcher's
   replay is right if and only if, on every key, the event that was dispatched last has the
   effect of the event that was installed last.
   */
  lemma DrainedReplayRight<T>(cfg: Config<T>, start: Data<T>, steps: seq<Step<T>>)
    requires Complete(steps) && Flat(After(cfg, start, steps).queues) == []
    ensures var s := After(cfg, start, steps);
            Replay(View(start), s.log) == View(Held(cfg, start, s)) <==>
            forall k :: SameEffect(LastOn(s.log, k), LastOn(Due(cfg, start, s.ops), k))
  {
    var s := After(cfg, start, steps);
    NothingMissing(cfg, start, steps);
    ReplayReproduces(cfg, start, s.ops);
    SameLastEvents(View(start), s.log, Due(cfg, start, s.ops));
  }

  lemma SameLastEvents<T>(view: map<GoString, T>, xs: seq<Event<T>>, ys: seq<Event<T>>)
    requires multiset(xs) == multiset(ys)
    ensures Replay(view, xs) == Replay(view, ys) <==> forall k :: SameEffect(LastOn(xs, k), LastOn(ys, k))
  {
    ReplayAgrees(view, xs, ys);
    forall k ensures AgreeOn(view, xs, ys, k) <==> SameEffect(LastOn(xs, k), LastOn(ys, k)) {
      SameMembers(xs, ys, k);
    }
    if forall k :: SameEffect(LastOn(xs, k), LastOn(ys, k)) {
      forall k ensures AgreeOn(view, xs, ys, k) {
        assert SameEffect(LastOn(xs, k), LastOn(ys, k));
      }
    }
  }

  lemma SameMembers<T>(xs: seq<Event<T>>, ys: seq<Event<T>>, k: GoString)
    requires multiset(xs) == multiset(ys)
    ensures OnKey(xs, k) == [] <==> OnKey(ys, k) == []
  {
    if OnKey(xs, k) != [] {
      AlsoOnKey(xs, ys, k);
    }
    if OnKey(ys, k) != [] {
      AlsoOnKey(ys, xs, k);
    }
  }

  lemma AlsoOnKey<T>(xs: seq<Event<T>>, ys: seq<Event<T>>, k: GoString)
    requires multiset(xs) == multiset(ys) && OnKey(xs, k) != []
    ensures OnKey(ys, k) != []
  {
    var i := OnKeyFrom(xs, k, 0);
    assert xs[i] in multiset(xs);
    assert xs[i] in ys;
    var j :| 0 <= j < |ys| && ys[j] == xs[i];
    OnKeyHas(ys, k, j);
  }

  /**
   A run that leaves a watcher wrong: a batch sets a key, a newer write to it is installed and dispatched before
   the batch's own event goes out. All queues are empty, the store shows the newer value, the watcher the older
   one, and its timestamps on the key have gone down.
   */
  lemma OvertakenWatcherWrong<T>(cfg: Config<T>, k: GoString, x: T, y: T, origin: GoString)
    requires cfg.merger.None? && x != y
    ensures var older, newer := Write(k, KindSet, x, Stamp(1, origin, 1)), Write(k, KindSet, y, Stamp(2, origin, 2));
            var s := After(cfg, map[], [Batch([Offer(older)]), One(Offer(newer)), Send(0)]);
            && Flat(s.queues) == [] && View(Held(cfg, map[], s)) == map[k := y] && Replay(map[], s.log) == map[k := x]
            && !Rising(OnKey(s.log, k))
  {
    var first, second := Offer(Write(k, KindSet, x, Stamp(1, origin, 1))),
        Offer(Write(k, KindSet, y, Stamp(2, origin, 2)));
    var none: Data<T> := map[];
    var e1, e2 := EventOf(k, Entry(x, Stamp(1, origin, 1), false)), EventOf(k, Entry(y, Stamp(2, origin, 2), false));
    TwoSets(cfg, first.w, second.w);
    Overtaken(cfg, none, first, second, e1, e2);
    TwoEvents(e2, e1);
  }

  /**
   The other way to leave a watcher wrong: a batch that is cut short has installed what it visited and dispatches
   none of it. Nothing is queued that could set the watcher right.
   */
  lemma AbortedWatcherWrong<T>(cfg: Config<T>, w: Write<T>)
    requires w.kind.KindSet?
    ensures var s := After(cfg, map[], [Abort([Offer(w)])]);
            s.queues == [] && View(Held(cfg, map[], s)) == map[w.key := w.value] && Replay(map[], s.log) == map[]
  {
    var none: Data<T> := map[];
    RunSnoc(cfg, none, [], Offer(w));
    assert [] + [Offer(w)] == [Offer(w)];
    assert [Abort([Offer(w)])][..0] == [];
    assert After(cfg, none, [Abort([Offer(w)])]) == Fan([Offer(w)], [], []);
    assert Run(cfg, none, [Offer(w)]) == none[w.key := Entry(w.value, w.stamp, false)];
  }

  lemma Overtaken<T>(cfg: Config<T>, start: Data<T>, first: Op<T>, second: Op<T>, e1: Event<T>, e2: Event<T>)
    requires Due(cfg, start, [first]) == [e1] && Due(cfg, Run(cfg, start, [first]), [second]) == [e2]
    ensures After(cfg, start, [Batch([first]), One(second), Send(0)]) == Fan([first, second], [[]], [e2, e1])
  {
    ThreeSteps(cfg, start, Batch([first]), One(second), Send(0));
    FireBatch(cfg, start, first, e1);
    FireOne(cfg, start, first, second, e1, e2);
    FireSend(cfg, start, [first, second], e1, e2);
  }

  lemma FireBatch<T>(cfg: Config<T>, start: Data<T>, op: Op<T>, e: Event<T>)
    requires Due(cfg, start, [op]) == [e]
    ensures Fire(cfg, start, Fan([], [], []), Batch([op])) == Fan([op], [[e]], [])
  {
    assert Held(cfg, start, Fan([], [], [])) == start;
  }

  lemma FireOne<T>(cfg: Config<T>, start: Data<T>, first: Op<T>, op: Op<T>, e1: Event<T>, e2: Event<T>)
    requires Due(cfg, Run(cfg, start, [first]), [op]) == [e2]
    ensures Fire(cfg, start, Fan([first], [[e1]], []), One(op)) == Fan([first, op], [[e1]], [e2])
  {
    assert [first] + [op] == [first, op];
  }

  lemma FireSend<T>(cfg: Config<T>, start: Data<T>, ops: seq<Op<T>>, e1: Event<T>, e2: Event<T>)
    ensures Fire(cfg, start, Fan(ops, [[e1]], [e2]), Send(0)) == Fan(ops, [[]], [e2, e1])
  {
    assert [[e1]][0 := [e1][1..]] == [[e1][1..]];
    assert [e1][1..] == [];
  }

  lemma ThreeSteps<T>(cfg: Config<T>, start: Data<T>, x: Step<T>, y: Step<T>, z: Step<T>)
    ensures After(cfg, start, [x, y, z]) ==
            Fire(cfg, start, Fire(cfg, start, Fire(cfg, start, Fan([], [], []), x), y), z)
  {
    assert [x, y, z][..2] == [x, y] && [x, y][..1] == [x] && [x][..0] == [];
    assert After(cfg, start, [x]) == Fire(cfg, start, Fan([], [], []), x);
    assert After(cfg, start, [x, y]) == Fire(cfg, start, After(cfg, start, [x]), y);
  }

  lemma TwoSets<T>(cfg: Config<T>, older: Write<T>, newer: Write<T>)
    requires cfg.merger.None? && older.kind.KindSet? && newer.kind.KindSet? && older.key == newer.key
             && StampLess(older.stamp, newer.stamp)
    ensures var mid := Run(cfg, map[], [Offer(older)]);
            && Due(cfg, map[], [Offer(older)]) == [EventOf(older.key, Entry(older.value, older.stamp, false))]
            && Due(cfg, mid, [Offer(newer)]) == [EventOf(older.key, Entry(newer.value, newer.stamp, false))]
            && View(Run(cfg, map[], [Offer(older), Offer(newer)])) == map[older.key := newer.value]
  {
    var none: Data<T> := map[];
    var first, second := Offer(older), Offer(newer);
    RunSnoc(cfg, none, [], first);
    var mid := Run(cfg, none, [first]);
    assert [] + [first] == [first] && [] + [second] == [second] && [first] + [second] == [first, second];
    assert mid == map[older.key := Entry(older.value, older.stamp, false)];
    RunSnoc(cfg, none, [first], second);
    RunSnoc(cfg, mid, [], second);
  }

  lemma TwoEvents<T>(x: Event<T>, y: Event<T>)
    requires x.key == y.key
    ensures OnKey([x, y], x.key) == [x, y]
    ensures x.kind.EventSet? && y.kind.EventSet? ==> Replay(map[], [x, y]) == map[x.key := y.value]
  {
    assert [x, y][..1] == [x] && [x][..0] == [];
    assert OnKey([x], x.key) == [x];
    var none: map<GoString, T> := map[];
    assert Replay(none, [x]) == ReplayOne(none, x);
  }
}
