/**
 Watcher fan-out: registration, non-blocking dispatch that drops slow consumers, cancellation and store
 close, as a machine over the critical sections of watchersMu. A channel keeps existing after it is closed,
 so its consumer can still drain it. Sending on a closed channel or closing one twice panics in Go;
 `panicked` records whether that ever happens.
 */
module Watchers {
  import opened Order
  import opened Replica

  /**
   A watcher's channel. `consumed`, `start`, `end` and `dropped` are history: what its consumer has taken, the
   length of the dispatch log at registration and at close, and whether dispatch closed it.
   */
  datatype Watcher<!T> = Watcher(
    filter: Option<GoString -> bool>,
    capacity: nat,
    buffer: seq<Event<T>>,
    consumed: seq<Event<T>>,
    start: nat,
    end: Option<nat>,
    dropped: bool)

  datatype Hub<!T> = Hub(
    registered: set<nat>,
    chans: map<nat, Watcher<T>>,
    closed: bool,
    log: seq<Event<T>>,
    panicked: bool)

  /** `waiting` are the watchers whose consumer is blocked in a receive at that moment. */
  datatype Step<!T> =
    | Watch(id: nat, filter: Option<GoString -> bool>, capacity: nat)
    | Dispatch(ev: Event<T>, waiting: set<nat>)
    | Consume(id: nat)
    | Remove(id: nat)
    | Close

  predicate Matches(filter: Option<GoString -> bool>, key: GoString) {
    filter.None? || filter.value(key)
  }

  function Filtered<T>(filter: Option<GoString -> bool>, events: seq<Event<T>>): seq<Event<T>> {
    if events == [] then []
    else
      var last := events[|events| - 1];
      Filtered(filter, events[..|events| - 1]) + if Matches(filter, last.key) then [last] else []
  }

  /** Everything that has entered the channel, in order. */
  function Entered<T>(w: Watcher<T>): seq<Event<T>> {
    w.consumed + w.buffer
  }

  predicate Open<T>(w: Watcher<T>) {
    w.end.None?
  }

  /** The select with a default: hand over to a waiting receiver, or buffer, or give up. */
  predicate CanSend<T>(w: Watcher<T>, waiting: bool) {
    (waiting && w.buffer == []) || |w.buffer| < w.capacity
  }

  function Sent<T>(w: Watcher<T>, ev: Event<T>, waiting: bool): Watcher<T>
    requires CanSend(w, waiting)
  {
    if waiting && w.buffer == [] then w.(consumed := w.consumed + [ev]) else w.(buffer := w.buffer + [ev])
  }

  function Closed<T>(w: Watcher<T>, now: nat, dropped: bool): Watcher<T> {
    w.(end := Some(now), dropped := dropped)
  }

  predicate Falls<T>(w: Watcher<T>, ev: Event<T>, waiting: bool) {
    Matches(w.filter, ev.key) && !CanSend(w, waiting)
  }

  /** One watcher's channel after a dispatch that reaches it. */
  function Reached<T>(w: Watcher<T>, ev: Event<T>, waiting: bool, now: nat): Watcher<T> {
    if !Matches(w.filter, ev.key) then w
    else if CanSend(w, waiting) then Sent(w, ev, waiting)
    else Closed(w, now, true)
  }

  function Fire<T>(h: Hub<T>, step: Step<T>): Hub<T> {
    match step
    case Watch(id, filter, capacity) =>
      if id in h.chans then h
      else
        var w := Watcher(filter, capacity, [], [], |h.log|, if h.closed then Some(|h.log|) else None, false);
        h.(chans := h.chans[id := w], registered := if h.closed then h.registered else h.registered + {id})
    case Dispatch(ev, waiting) =>
      Hub(
        set id | id in h.registered && !(id in h.chans && Falls(h.chans[id], ev, id in waiting)),
        map id | id in h.chans ::
          if id in h.registered then Reached(h.chans[id], ev, id in waiting, |h.log|) else h.chans[id],
        h.closed,
        h.log + [ev],
        h.panicked || exists id :: id in h.registered && (id !in h.chans || !Open(h.chans[id])))
    case Consume(id) =>
      if id !in h.chans || h.chans[id].buffer == [] then h
      else
        var w := h.chans[id];
        h.(chans := h.chans[id := w.(consumed := w.consumed + [w.buffer[0]], buffer := w.buffer[1..])])
    case Remove(id) =>
      if id !in h.registered || id !in h.chans then h
      else h.(registered := h.registered - {id},
              chans := h.chans[id := Closed(h.chans[id], |h.log|, false)],
              panicked := h.panicked || !Open(h.chans[id]))
    case Close => h.(closed := true)
  }

  function Init<T>(): Hub<T> {
    Hub({}, map[], false, [], false)
  }

  function After<T>(steps: seq<Step<T>>): Hub<T> {
    if steps == [] then Init() else Fire(After(steps[..|steps| - 1]), steps[|steps| - 1])
  }

  /**
   What a channel holds: an open one has received exactly the matching events since registration; a closed one a
   gapless prefix of them, cut for a dropped watcher at a matching event that found its buffer full.
   */
  ghost predicate Faithful<T>(h: Hub<T>, id: nat)
    requires id in h.chans
  {
    var w := h.chans[id];
    var end := if Open(w) then |h.log| else w.end.value;
    && (id in h.registered <==> Open(w))
    && w.start <= end <= |h.log|
    && Entered(w) == Filtered(w.filter, h.log[w.start..end])
    && |w.buffer| <= w.capacity
    && (w.dropped ==> !Open(w) && end < |h.log| && Matches(w.filter, h.log[end].key) && |Entered(w)| >= w.capacity)
  }

  ghost predicate Inv<T>(h: Hub<T>) {
    && !h.panicked
    && h.registered <= h.chans.Keys
    && (forall id {:trigger Faithful(h, id)} :: id in h.chans ==> Faithful(h, id))
  }

  lemma FilteredSnoc<T>(filter: Option<GoString -> bool>, log: seq<Event<T>>, start: nat, ev: Event<T>)
    requires start <= |log|
    ensures Filtered(filter, (log + [ev])[start..]) ==
            Filtered(filter, log[start..]) + if Matches(filter, ev.key) then [ev] else []
  {
    var s := (log + [ev])[start..];
    assert s[..|s| - 1] == log[start..];
  }

  lemma DispatchKeepsFaithful<T>(h: Hub<T>, ev: Event<T>, waiting: set<nat>, id: nat)
    requires id in h.chans && Faithful(h, id)
    ensures Faithful(Fire(h, Dispatch(ev, waiting)), id)
  {
    var w, log' := h.chans[id], h.log + [ev];
    if id in h.registered {
      FilteredSnoc(w.filter, h.log, w.start, ev);
      assert log'[w.start..|h.log|] == h.log[w.start..];
      assert log'[w.start..|log'|] == log'[w.start..] && h.log[w.start..|h.log|] == h.log[w.start..];
      assert Filtered(w.filter, h.log[w.start..]) + [] == Filtered(w.filter, h.log[w.start..]);
      if Matches(w.filter, ev.key) && CanSend(w, id in waiting) {
        assert Entered(Sent(w, ev, id in waiting)) == Entered(w) + [ev];
      }
    } else {
      assert log'[w.start..w.end.value] == h.log[w.start..w.end.value];
    }
  }

  lemma OtherStepsKeepFaithful<T>(h: Hub<T>, step: Step<T>, id: nat)
    requires id in h.chans && Faithful(h, id) && !step.Dispatch?
    ensures Faithful(Fire(h, step), id)
  {
    var h' := Fire(h, step);
    if step.Consume? && step.id == id && h.chans[id].buffer != [] {
      assert Entered(h'.chans[id]) == Entered(h.chans[id]);
    }
  }

  lemma StepKeepsInv<T>(h: Hub<T>, step: Step<T>)
    requires Inv(h)
    ensures Inv(Fire(h, step))
  {
    var h' := Fire(h, step);
    forall id | id in h'.chans ensures Faithful(h', id) {
      if id in h.chans {
        assert Faithful(h, id);
        if step.Dispatch? {
          DispatchKeepsFaithful(h, step.ev, step.waiting, id);
        } else {
          OtherStepsKeepFaithful(h, step, id);
        }
      } else {
        assert h.log[|h.log|..|h.log|] == [];
      }
    }
    NoPanic(h, step);
  }

  lemma NoPanic<T>(h: Hub<T>, step: Step<T>)
    requires Inv(h)
    ensures !Fire(h, step).panicked && Fire(h, step).registered <= Fire(h, step).chans.Keys
  {
    assert forall id :: id in h.registered ==> id in h.chans && Faithful(h, id);
  }

  /** In every run nothing panics and every channel is faithful to the dispatch log. */
  lemma {:induction false} WatchersFaithful<T>(steps: seq<Step<T>>)
    ensures Inv(After(steps))
  {
    if steps != [] {
      WatchersFaithful(steps[..|steps| - 1]);
      StepKeepsInv(After(steps[..|steps| - 1]), steps[|steps| - 1]);
    }
  }

  lemma FaithfulPrefix<T>(h: Hub<T>, id: nat)
    requires id in h.chans && Faithful(h, id)
    ensures var w := h.chans[id];
            && w.start <= |h.log|
            && Entered(w) <= Filtered(w.filter, h.log[w.start..])
            && (Open(w) ==> Entered(w) == Filtered(w.filter, h.log[w.start..]))
            && (w.dropped ==> Entered(w) != Filtered(w.filter, h.log[w.start..]))
  {
    var w := h.chans[id];
    if Open(w) {
      assert h.log[w.start..|h.log|] == h.log[w.start..];
    } else {
      CutIsPrefix(w.filter, h.log, w.start, w.end.value);
    }
  }

  /** Cutting the log cuts what is filtered from it, to a strict prefix if it is cut at a match. */
  lemma CutIsPrefix<T>(filter: Option<GoString -> bool>, log: seq<Event<T>>, start: nat, end: nat)
    requires start <= end <= |log|
    ensures Filtered(filter, log[start..end]) <= Filtered(filter, log[start..])
    ensures end < |log| && Matches(filter, log[end].key) ==>
            Filtered(filter, log[start..end]) != Filtered(filter, log[start..])
  {
    var got, missed := log[start..end], log[end..];
    assert log[start..] == got + missed;
    FilteredConcat(filter, got, missed);
    if end < |log| && Matches(filter, log[end].key) {
      FirstMatches(filter, missed);
    }
  }

  lemma FirstMatches<T>(filter: Option<GoString -> bool>, events: seq<Event<T>>)
    requires events != [] && Matches(filter, events[0].key)
    ensures Filtered(filter, events) != []
  {
    var first := [events[0]];
    assert events == first + events[1..] && first[..0] == [];
    FilteredConcat(filter, first, events[1..]);
  }

  /** A watcher still registered has missed nothing; one that left got a prefix with no gap. */
  lemma DeliveryGuarantee<T>(steps: seq<Step<T>>, id: nat)
    requires id in After(steps).chans
    ensures var h := After(steps);
            var w := h.chans[id];
            && w.start <= |h.log| && !h.panicked
            && Entered(w) <= Filtered(w.filter, h.log[w.start..])
            && (id in h.registered ==> Entered(w) == Filtered(w.filter, h.log[w.start..]))
            && (w.dropped ==> Entered(w) != Filtered(w.filter, h.log[w.start..]) && id !in h.registered)
  {
    WatchersFaithful(steps);
    assert Faithful(After(steps), id);
    FaithfulPrefix(After(steps), id);
  }

  lemma {:induction false} FilteredConcat<T>(filter: Option<GoString -> bool>, a: seq<Event<T>>, b: seq<Event<T>>)
    ensures Filtered(filter, a + b) == Filtered(filter, a) + Filtered(filter, b)
  {
    if b == [] {
      assert a + b == a;
    } else {
      FilteredConcat(filter, a, b[..|b| - 1]);
      assert (a + b)[..|a + b| - 1] == a + b[..|b| - 1];
    }
  }

  lemma ClosedStays<T>(h: Hub<T>, step: Step<T>, id: nat)
    requires id in h.chans && id !in h.registered && !Open(h.chans[id])
    ensures id in Fire(h, step).chans
    ensures var w, w' := h.chans[id], Fire(h, step).chans[id];
            w'.end == w.end && w'.dropped == w.dropped && Entered(w') == Entered(w)
  {
    if step.Consume? && step.id == id && h.chans[id].buffer != [] {
      assert Entered(Fire(h, step).chans[id]) == Entered(h.chans[id]);
    }
  }

  /** The buffer is full, and no receiver waits on an empty one: the select takes its default. */
  predicate Full<T>(w: Watcher<T>, waiting: bool) {
    |w.buffer| >= w.capacity && !(waiting && w.buffer == [])
  }

  /**
   What one dispatch does to a registered watcher, on its fields. One that does not match is left alone. One that
   matches and has room, or a receiver waiting on an empty buffer, stays registered and receives the event, in
   the receiver's hands or at the end of the buffer. One that matches and has neither is unregistered, its
   channel is closed as dropped, and nothing enters it.
   */
  lemma DispatchExactly<T>(h: Hub<T>, ev: Event<T>, waiting: set<nat>, id: nat)
    requires id in h.registered && id in h.chans && Open(h.chans[id])
    ensures var h' := Fire(h, Dispatch(ev, waiting));
            && id in h'.chans && h'.log == h.log + [ev]
            && var w, w' := h.chans[id], h'.chans[id];
               var matches := w.filter.None? || w.filter.value(ev.key);
               && (id !in h'.registered <==> matches && Full(w, id in waiting))
               && (w'.end == Some(|h.log|) && w'.dropped <==> id !in h'.registered)
               && (id in h'.registered ==> Open(w') && w'.dropped == w.dropped)
               && Entered(w') == Entered(w) + (if matches && id in h'.registered then [ev] else [])
               && w'.buffer == w.buffer + (if matches && |w.buffer| < w.capacity && !(id in waiting && w.buffer == [])
                                           then [ev] else [])
               && (w'.filter, w'.capacity, w'.start) == (w.filter, w.capacity, w.start)
  {
    var w := h.chans[id];
    assert w.consumed + (w.buffer + [ev]) == (w.consumed + w.buffer) + [ev];
    assert w.buffer == [] ==> (w.consumed + [ev]) + w.buffer == (w.consumed + w.buffer) + [ev];
    assert Entered(w) + [] == Entered(w) && w.buffer + [] == w.buffer;
  }

  /** A consumer takes the oldest buffered event, from a closed channel too; an empty one gives it nothing. */
  lemma ConsumeTakesOldest<T>(h: Hub<T>, id: nat)
    requires id in h.chans
    ensures var h', w := Fire(h, Consume(id)), h.chans[id];
            && id in h'.chans && h'.registered == h.registered && h'.log == h.log
            && if w.buffer == [] then h' == h
               else
                 && Entered(h'.chans[id]) == Entered(w) && |h'.chans[id].consumed| == |w.consumed| + 1
                 && (h'.chans[id].end, h'.chans[id].dropped) == (w.end, w.dropped)
  {
    var w := h.chans[id];
    if w.buffer != [] {
      assert (w.consumed + [w.buffer[0]]) + w.buffer[1..] == w.consumed + w.buffer;
    }
  }

  /** A watcher that is no longer registered is not touched by a dispatch. */
  lemma DispatchSkipsUnregistered<T>(h: Hub<T>, ev: Event<T>, waiting: set<nat>, id: nat)
    requires id in h.chans && id !in h.registered
    ensures var h' := Fire(h, Dispatch(ev, waiting));
            id in h'.chans && h'.chans[id] == h.chans[id] && id !in h'.registered
  {
  }

  /** Once closed, a channel never takes another event: only its consumer changes it. */
  lemma ClosedIsFinal<T>(steps: seq<Step<T>>, step: Step<T>, id: nat)
    requires id in After(steps).chans && !Open(After(steps).chans[id])
    ensures id in Fire(After(steps), step).chans
    ensures var w, w' := After(steps).chans[id], Fire(After(steps), step).chans[id];
            w'.end == w.end && w'.dropped == w.dropped && Entered(w') == Entered(w)
  {
    WatchersFaithful(steps);
    var h := After(steps);
    assert Faithful(h, id);
    ClosedStays(h, step, id);
  }

  // ---------------------------------------------------------------- the fan-out code

  ghost function AfterSends<T>(chans: map<nat, Watcher<T>>, done: set<nat>, ev: Event<T>,
                               waiting: set<nat>): map<nat, Watcher<T>> {
    map id | id in chans ::
      if id in done && Matches(chans[id].filter, ev.key) && CanSend(chans[id], id in waiting)
      then Sent(chans[id], ev, id in waiting) else chans[id]
  }

  ghost function AfterDrops<T>(chans: map<nat, Watcher<T>>, done: set<nat>, now: nat): map<nat, Watcher<T>> {
    map id | id in chans :: if id in done then Closed(chans[id], now, true) else chans[id]
  }

  /** The registered watchers that match and have no room. */
  ghost function Slow<T>(registered: set<nat>, chans: map<nat, Watcher<T>>, ev: Event<T>, waiting: set<nat>): set<nat> {
    set id | id in registered && id in chans && Falls(chans[id], ev, id in waiting)
  }

  /** A dispatch is its send loop followed by its drop loop. */
  lemma DispatchIsTwoLoops<T>(h: Hub<T>, ev: Event<T>, waiting: set<nat>)
    requires Inv(h)
    ensures var toDrop := Slow(h.registered, h.chans, ev, waiting);
            var h' := Hub(h.registered - toDrop,
                          AfterDrops(AfterSends(h.chans, h.registered, ev, waiting), toDrop, |h.log|),
                          h.closed, h.log + [ev], false);
            h' == Fire(h, Dispatch(ev, waiting)) && Inv(h')
    ensures forall id :: id in h.registered ==>
            Open(h.chans[id]) && Open(AfterSends(h.chans, h.registered, ev, waiting)[id])
  {
    StepKeepsInv(h, Dispatch(ev, waiting));
    assert forall id :: id in h.registered ==> Faithful(h, id);
    var h', toDrop := Fire(h, Dispatch(ev, waiting)), Slow(h.registered, h.chans, ev, waiting);
    assert h'.registered == h.registered - toDrop;
    assert h'.chans == AfterDrops(AfterSends(h.chans, h.registered, ev, waiting), toDrop, |h.log|);
  }

  /** The store's watcher table, its methods being the critical sections of watchersMu. */
  class WatcherTable<T(!new)> {
    const capacity: nat
    var registered: set<nat>
    var chans: map<nat, Watcher<T>>
    var closed: bool
    var watchersDropped: nat
    var eventsDispatched: nat
    ghost var log: seq<Event<T>>

    ghost function State(): Hub<T>
      reads this
    {
      Hub(registered, chans, closed, log, false)
    }

    ghost predicate Valid()
      reads this
    {
      Inv(State()) && eventsDispatched == |log|
    }

    constructor (capacity: nat)
      ensures Valid() && State() == Init() && this.capacity == capacity && watchersDropped == 0
    {
      this.capacity := capacity;
      registered, chans, closed, log := {}, map[], false, [];
      watchersDropped, eventsDispatched := 0, 0;
    }

    method Watch(id: nat, filter: Option<GoString -> bool>)
      requires Valid() && id !in chans
      modifies this
      ensures Valid() && State() == Fire(old(State()), Step.Watch(id, filter, capacity))
      ensures watchersDropped == old(watchersDropped)
    {
      StepKeepsInv(State(), Step.Watch(id, filter, capacity));
      var w := Watcher(filter, capacity, [], [], eventsDispatched, None, false);
      if closed {
        chans := chans[id := w.(end := Some(eventsDispatched))];
        return;
      }
      chans := chans[id := w];
      registered := registered + {id};
    }

    method RemoveWatcher(id: nat)
      requires Valid()
      modifies this
      ensures Valid() && State() == Fire(old(State()), Remove(id))
      ensures watchersDropped == old(watchersDropped)
    {
      StepKeepsInv(State(), Remove(id));
      if id !in registered {
        return;
      }
      assert Faithful(State(), id);
      registered := registered - {id};
      chans := chans[id := Closed(chans[id], eventsDispatched, false)];
    }

    /** The send loop of dispatch, in map iteration order; returns the watchers whose buffer was full. */
    method SendToMatching(ev: Event<T>, waiting: set<nat>) returns (toDrop: set<nat>)
      requires registered <= chans.Keys && forall id :: id in registered ==> Open(chans[id])
      modifies this`chans
      ensures toDrop == Slow(registered, old(chans), ev, waiting)
      ensures chans == AfterSends(old(chans), registered, ev, waiting)
    {
      toDrop := {};
      var todo := registered;
      while todo != {}
        invariant todo <= registered
        invariant toDrop == Slow(registered - todo, old(chans), ev, waiting)
        invariant chans == AfterSends(old(chans), registered - todo, ev, waiting)
        decreases todo
      {
        var id :| id in todo;
        var w := chans[id];
        assert w == old(chans)[id];
        todo := todo - {id};
        if w.filter.Some? && !w.filter.value(ev.key) {
          continue;
        }
        if CanSend(w, id in waiting) {
          assert Open(w);
          chans := chans[id := Sent(w, ev, id in waiting)];
        } else {
          toDrop := toDrop + {id};
        }
      }
      assert registered - todo == registered;
    }

    /** The drop loop of dispatch. */
    method DropSlow(toDrop: set<nat>, now: nat)
      requires toDrop <= registered <= chans.Keys && forall id :: id in toDrop ==> Open(chans[id])
      modifies this`chans, this`registered, this`watchersDropped
      ensures registered == old(registered) - toDrop
      ensures chans == AfterDrops(old(chans), toDrop, now)
      ensures watchersDropped == old(watchersDropped) + |toDrop|
    {
      var todo := toDrop;
      while todo != {}
        invariant todo <= toDrop && registered == old(registered) - (toDrop - todo)
        invariant chans == AfterDrops(old(chans), toDrop - todo, now)
        invariant watchersDropped + |todo| == old(watchersDropped) + |toDrop|
        decreases todo
      {
        var id :| id in todo;
        assert chans[id] == old(chans)[id] && Open(chans[id]);
        registered := registered - {id};
        chans := chans[id := Closed(chans[id], now, true)];
        todo := todo - {id};
        watchersDropped := watchersDropped + 1;
      }
      assert toDrop - todo == toDrop;
    }

    /** dispatch: one non-blocking send per matching watcher, then the slow ones are dropped. */
    method Dispatch(ev: Event<T>, waiting: set<nat>)
      requires Valid()
      modifies this
      ensures Valid() && State() == Fire(old(State()), Step.Dispatch(ev, waiting))
      ensures watchersDropped == old(watchersDropped) + |old(registered) - registered|
    {
      DispatchIsTwoLoops(State(), ev, waiting);
      var now := eventsDispatched;
      eventsDispatched := eventsDispatched + 1;
      log := log + [ev];
      var toDrop := SendToMatching(ev, waiting);
      assert toDrop == Slow(old(registered), old(chans), ev, waiting) && toDrop <= old(registered);
      DropSlow(toDrop, now);
      assert old(registered) - registered == toDrop;
    }

    /** CloseWithContext's sweep over whatever the cleanup goroutines left registered. */
    method CloseAll()
      requires Valid()
      modifies this
      ensures Valid() && closed && registered == {} && log == old(log) && chans.Keys == old(chans).Keys
      ensures forall id :: id in chans ==> !Open(chans[id]) && Entered(chans[id]) == Entered(old(chans)[id])
    {
      StepKeepsInv(State(), Close);
      closed := true;
      while registered != {}
        invariant Valid() && closed && log == old(log) && chans.Keys == old(chans).Keys
        invariant forall id :: id in chans ==> Entered(chans[id]) == Entered(old(chans)[id])
        decreases registered
      {
        var id :| id in registered;
        RemoveWatcher(id);
      }
      assert forall id :: id in chans ==> Faithful(State(), id);
    }
  }
}
