/**
 When a watcher sees each key's changes in the order in which they were installed. Every installed event
 gets a number, in the order of the lock; what is dispatched and what is queued are then sequences of
 numbers, and order on a key is order of numbers.
 */
module Overtaking {
  import opened Order
  import opened Replica
  import opened History
  import opened Fanout

  // ---------------------------------------------------------------- numbers alone

  /** `count` numbers are given out; `queues` and `log` are those still to be dispatched and those dispatched. */
  datatype Tickets = Tickets(count: nat, queues: seq<seq<nat>>, log: seq<nat>)

  datatype Move =
    | Post             // install one event and dispatch it
    | Hold(n: nat)     // install and queue
    | Lose(n: nat)     // install without ever dispatching
    | Pop(i: nat)      // dispatch the head of a queue

  function Range(from: nat, n: nat): (r: seq<nat>)
    ensures |r| == n && forall i :: 0 <= i < n ==> r[i] == from + i
  {
    seq(n, i requires 0 <= i < n => from + i)
  }

  function Apply(t: Tickets, move: Move): Tickets {
    match move
    case Post => t.(count := t.count + 1, log := t.log + [t.count])
    case Hold(n) => t.(count := t.count + n, queues := t.queues + [Range(t.count, n)])
    case Lose(n) => t.(count := t.count + n)
    case Pop(i) =>
      if i >= |t.queues| || t.queues[i] == [] then t
      else t.(queues := t.queues[i := t.queues[i][1..]], log := t.log + [t.queues[i][0]])
  }

  function Play(moves: seq<Move>): Tickets {
    if moves == [] then Tickets(0, [], []) else Apply(Play(moves[..|moves| - 1]), moves[|moves| - 1])
  }

  /** Numbers that are dispatched or queued. */
  function Around(t: Tickets): multiset<nat> {
    multiset(t.log) + multiset(Flat(t.queues))
  }

  /** Each number is around once at most, and only if it was given out. */
  ghost predicate Once(t: Tickets) {
    forall x: nat :: Around(t)[x] <= if x < t.count then 1 else 0
  }

  lemma RangeOnce(from: nat, n: nat, x: nat)
    ensures multiset(Range(from, n))[x] == if from <= x < from + n then 1 else 0
    decreases n
  {
    if n > 0 {
      RangeOnce(from, n - 1, x);
      assert Range(from, n) == Range(from, n - 1) + [from + n - 1];
    }
  }

  lemma HoldAround(t: Tickets, n: nat)
    ensures Around(Apply(t, Hold(n))) == Around(t) + multiset(Range(t.count, n))
  {
    var queues := t.queues + [Range(t.count, n)];
    assert queues[..|t.queues|] == t.queues;
  }

  lemma PopAround(t: Tickets, i: nat)
    ensures Around(Apply(t, Pop(i))) == Around(t)
  {
    if i < |t.queues| && t.queues[i] != [] {
      FlatPops(t.queues, i);
    }
  }

  lemma MoveKeepsOnce(t: Tickets, move: Move)
    requires Once(t)
    ensures Once(Apply(t, move))
  {
    forall x: nat ensures Around(Apply(t, move))[x] <= if x < Apply(t, move).count then 1 else 0 {
      assert Around(t)[x] <= if x < t.count then 1 else 0;
      MoveOnce(t, move, x);
    }
  }

  lemma MoveOnce(t: Tickets, move: Move, x: nat)
    requires Around(t)[x] <= if x < t.count then 1 else 0
    ensures Around(Apply(t, move))[x] <= if x < Apply(t, move).count then 1 else 0
  {
    match move
    case Post => PostAround(t);
    case Hold(n) =>
      HoldAround(t, n);
      RangeOnce(t.count, n, x);
    case Lose(_) =>
    case Pop(i) => PopAround(t, i);
  }

  lemma PostAround(t: Tickets)
    ensures Around(Apply(t, Post)) == Around(t) + multiset{t.count}
  {
  }

  lemma {:induction false} PlayOnce(moves: seq<Move>)
    ensures Once(Play(moves))
  {
    if moves == [] {
      assert Flat(Play(moves).queues) == [];
    } else {
      PlayOnce(moves[..|moves| - 1]);
      MoveKeepsOnce(Play(moves[..|moves| - 1]), moves[|moves| - 1]);
    }
  }

  /** The dispatched numbers only grow, by one at a time, and numbers are not taken back. */
  lemma MoveGrows(t: Tickets, move: Move)
    ensures var t' := Apply(t, move); t.log <= t'.log && |t'.log| <= |t.log| + 1 && t.count <= t'.count
  {
  }

  lemma {:induction false} PlayGrows(moves: seq<Move>, m: nat)
    requires m <= |moves|
    ensures Play(moves[..m]).log <= Play(moves).log && Play(moves[..m]).count <= Play(moves).count
  {
    if m < |moves| {
      var init := moves[..|moves| - 1];
      assert init[..m] == moves[..m];
      PlayGrows(init, m);
      MoveGrows(Play(init), moves[|moves| - 1]);
    } else {
      assert moves[..m] == moves;
    }
  }

  /** What is queued stays around, and comes into the log behind what is there now. */
  ghost predicate Ahead(t: Tickets, len: nat, i: nat) {
    i in Flat(t.queues) || exists q :: len <= q < |t.log| && t.log[q] == i
  }

  lemma MoveKeepsAhead(t: Tickets, move: Move, len: nat, i: nat)
    requires Ahead(t, len, i) && len <= |t.log|
    ensures Ahead(Apply(t, move), len, i)
  {
    var t' := Apply(t, move);
    MoveGrows(t, move);
    if i in Flat(t.queues) {
      if move.Hold? {
        assert (t.queues + [Range(t.count, move.n)])[..|t.queues|] == t.queues;
      } else if move.Pop? && t' != t {
        FlatPops(t.queues, move.i);
        assert i in multiset(Flat(t.queues));
        if i !in multiset(Flat(t'.queues)) {
          assert t'.log[|t.log|] == i;
        }
      }
    } else {
      var q :| len <= q < |t.log| && t.log[q] == i;
      assert t'.log[q] == i;
    }
  }

  lemma {:induction false} PlayKeepsAhead(moves: seq<Move>, m: nat, i: nat)
    requires m <= |moves| && i in Flat(Play(moves[..m]).queues)
    ensures Ahead(Play(moves), |Play(moves[..m]).log|, i)
  {
    if m < |moves| {
      var init := moves[..|moves| - 1];
      assert init[..m] == moves[..m];
      PlayKeepsAhead(init, m, i);
      PlayGrows(init, m);
      MoveKeepsAhead(Play(init), moves[|moves| - 1], |Play(moves[..m]).log|, i);
    } else {
      assert moves[..m] == moves;
    }
  }

  /** A number that was given out and is around later was around all the time. */
  lemma MoveInvents(t: Tickets, move: Move, x: nat)
    requires x < t.count && x in Around(Apply(t, move))
    ensures x in Around(t)
  {
    match move
    case Post =>
    case Hold(n) =>
      HoldAround(t, n);
      RangeOnce(t.count, n, x);
    case Lose(_) =>
    case Pop(i) => PopAround(t, i);
  }

  lemma {:induction false} PlayInvents(moves: seq<Move>, m: nat, x: nat)
    requires m <= |moves| && x < Play(moves[..m]).count && x in Around(Play(moves))
    ensures x in Around(Play(moves[..m]))
  {
    if m < |moves| {
      var init := moves[..|moves| - 1];
      assert init[..m] == moves[..m];
      PlayGrows(init, m);
      MoveInvents(Play(init), moves[|moves| - 1], x);
      PlayInvents(init, m, x);
    } else {
      assert moves[..m] == moves;
    }
  }

  // ---------------------------------------------------------------- order and overtaking

  /** The numbers of `on` are dispatched in rising order. */
  predicate Rises(log: seq<nat>, on: set<nat>) {
    forall p, q :: 0 <= p < q < |log| && log[p] in on && log[q] in on ==> log[p] < log[q]
  }

  /** The m-th move dispatches a number of `on` while the smaller number `i` of `on` is queued. */
  ghost predicate OvertakesAt(moves: seq<Move>, on: set<nat>, m: nat, i: nat) {
    && m < |moves|
    && var t, t' := Play(moves[..m]), Play(moves[..m + 1]);
       |t.log| < |t'.log| && t'.log[|t.log|] in on && i in on && i in Flat(t.queues) && i < t'.log[|t.log|]
  }

  ghost predicate Overtakes(moves: seq<Move>, on: set<nat>) {
    exists m: nat, i: nat :: OvertakesAt(moves, on, m, i)
  }

  lemma PlayNext(moves: seq<Move>, m: nat)
    requires m < |moves|
    ensures Play(moves[..m + 1]) == Apply(Play(moves[..m]), moves[m])
  {
    assert moves[..m + 1][..m] == moves[..m];
  }

  /** What is overtaken ends up behind. */
  lemma OvertakingFalls(moves: seq<Move>, on: set<nat>, m: nat, i: nat)
    requires OvertakesAt(moves, on, m, i) && Flat(Play(moves).queues) == []
    ensures !Rises(Play(moves).log, on)
  {
    var t, t', log := Play(moves[..m]), Play(moves[..m + 1]), Play(moves).log;
    PlayNext(moves, m);
    StaysQueued(t, moves[m], i);
    PlayKeepsAhead(moves, m + 1, i);
    PlayGrows(moves, m + 1);
    var q :| |t'.log| <= q < |log| && log[q] == i;
    assert log[|t.log|] == t'.log[|t.log|];
    assert !(log[|t.log|] < log[q]);
  }

  /** A queued number stays queued when another one is dispatched. */
  lemma StaysQueued(t: Tickets, move: Move, i: nat)
    requires i in Flat(t.queues) && |t.log| < |Apply(t, move).log| && Apply(t, move).log[|t.log|] != i
    ensures i in Flat(Apply(t, move).queues)
  {
    MoveKeepsAhead(t, move, |t.log|, i);
    MoveGrows(t, move);
  }

  /** The move that filled a place of the log. */
  lemma {:induction false} FilledBy(moves: seq<Move>, p: nat) returns (m: nat)
    requires p < |Play(moves).log|
    ensures m < |moves| && |Play(moves[..m]).log| == p && |Play(moves[..m + 1]).log| == p + 1
  {
    var init := moves[..|moves| - 1];
    MoveGrows(Play(init), moves[|moves| - 1]);
    if p < |Play(init).log| {
      m := FilledBy(init, p);
      assert init[..m] == moves[..m] && init[..m + 1] == moves[..m + 1];
    } else {
      m := |init|;
      assert moves[..m + 1] == moves;
    }
  }

  /** A number that is dispatched is one that was queued, or the next one. */
  lemma DispatchedFrom(t: Tickets, move: Move)
    requires |t.log| < |Apply(t, move).log|
    ensures var j := Apply(t, move).log[|t.log|]; j == t.count || j in Around(t)
  {
    if move.Pop? {
      FlatPops(t.queues, move.i);
    }
  }

  lemma OnceInLog(t: Tickets, p: nat, q: nat)
    requires Once(t) && p < q < |t.log|
    ensures t.log[p] != t.log[q]
  {
    assert Around(t)[t.log[p]] <= 1;
    CountTwice(t.log, p, q);
  }

  lemma CountTwice(log: seq<nat>, p: nat, q: nat)
    requires p < q < |log|
    ensures log[p] == log[q] ==> multiset(log)[log[p]] >= 2
  {
    assert log == log[..q] + log[q..] && log[p] in log[..q] && log[q] in log[q..];
    assert log[p] in multiset(log[..q]) && log[q] in multiset(log[q..]);
  }

  /** What ends up behind was overtaken. */
  lemma FallingOvertakes(moves: seq<Move>, on: set<nat>, p: nat, q: nat)
    requires p < q < |Play(moves).log| && Play(moves).log[p] in on && Play(moves).log[q] in on
             && Play(moves).log[q] < Play(moves).log[p]
    ensures Overtakes(moves, on)
  {
    var end, j, i := Play(moves), Play(moves).log[p], Play(moves).log[q];
    var m := FilledBy(moves, p);
    var t, t' := Play(moves[..m]), Play(moves[..m + 1]);
    PlayNext(moves, m);
    PlayGrows(moves, m + 1);
    PlayGrows(moves, m);
    assert t'.log[p] == j;
    DispatchedFrom(t, moves[m]);
    PlayOnce(moves[..m]);
    assert j <= t.count by {
      assert j < t.count || Around(t)[j] <= 0 || j == t.count;
    }
    assert i in end.log && i in multiset(end.log);
    PlayInvents(moves, m, i);
    assert i !in t.log by {
      if i in t.log {
        var r :| 0 <= r < |t.log| && t.log[r] == i;
        PlayOnce(moves);
        OnceInLog(end, r, q);
        assert false;
      }
    }
    assert i in Flat(t.queues);
    assert OvertakesAt(moves, on, m, i);
  }

  /**
   Once everything is dispatched, the order on some numbers is kept exactly when none of them was overtaken while
   it was queued.
   */
  lemma RisesIffNotOvertaken(moves: seq<Move>, on: set<nat>)
    requires Flat(Play(moves).queues) == []
    ensures Rises(Play(moves).log, on) <==> !Overtakes(moves, on)
  {
    if Overtakes(moves, on) {
      var m: nat, i: nat :| OvertakesAt(moves, on, m, i);
      OvertakingFalls(moves, on, m, i);
    }
    if !Rises(Play(moves).log, on) {
      var p, q :| 0 <= p < q < |Play(moves).log| && Play(moves).log[p] in on && Play(moves).log[q] in on
          && Play(moves).log[p] >= Play(moves).log[q];
      PlayOnce(moves);
      OnceInLog(Play(moves), p, q);
      FallingOvertakes(moves, on, p, q);
    }
  }

  // ---------------------------------------------------------------- the numbers of a run's events

  function MoveOf<T>(cfg: Config<T>, start: Data<T>, s: Fan<T>, step: Step<T>): Move {
    match step
    case One(op) => if Due(cfg, Held(cfg, start, s), [op]) == [] then Lose(0) else Post
    case Batch(ops) => Hold(|Due(cfg, Held(cfg, start, s), ops)|)
    case Abort(ops) => Lose(|Due(cfg, Held(cfg, start, s), ops)|)
    case Send(i) => Pop(i)
  }

  function MovesOf<T>(cfg: Config<T>, start: Data<T>, steps: seq<Step<T>>): seq<Move> {
    if steps == [] then []
    else
      var init := steps[..|steps| - 1];
      MovesOf(cfg, start, init) + [MoveOf(cfg, start, After(cfg, start, init), steps[|steps| - 1])]
  }

  /** The numbers name these events. */
  ghost predicate Named<T>(due: seq<Event<T>>, nos: seq<nat>, events: seq<Event<T>>) {
    |nos| == |events| && forall p :: 0 <= p < |nos| ==> nos[p] < |due| && due[nos[p]] == events[p]
  }

  ghost predicate AllNamed<T>(due: seq<Event<T>>, t: Tickets, s: Fan<T>) {
    && t.count == |due| && Named(due, t.log, s.log) && |t.queues| == |s.queues|
    && forall i {:trigger s.queues[i]} :: 0 <= i < |s.queues| ==> Named(due, t.queues[i], s.queues[i])
  }

  lemma NamedRange<T>(due: seq<Event<T>>, events: seq<Event<T>>)
    ensures Named(due + events, Range(|due|, |events|), events)
  {
    var all, nos := due + events, Range(|due|, |events|);
    forall p | 0 <= p < |nos| ensures nos[p] < |all| && all[nos[p]] == events[p] {
      assert nos[p] == |due| + p;
    }
  }

  lemma AllNamedGrows<T>(due: seq<Event<T>>, more: seq<Event<T>>, t: Tickets, s: Fan<T>)
    requires AllNamed(due, t, s)
    ensures AllNamed(due + more, t.(count := |due| + |more|), s)
  {
  }

  lemma OneEvent<T>(cfg: Config<T>, data: Data<T>, op: Op<T>)
    ensures |Due(cfg, data, [op])| <= 1
  {
    var none: seq<Op<T>> := [];
    RunSnoc(cfg, data, none, op);
    assert none + [op] == [op];
  }

  lemma StepNamed<T>(cfg: Config<T>, start: Data<T>, s: Fan<T>, t: Tickets, step: Step<T>)
    requires AllNamed(Due(cfg, start, s.ops), t, s)
    ensures var s' := Fire(cfg, start, s, step);
            AllNamed(Due(cfg, start, s'.ops), Apply(t, MoveOf(cfg, start, s, step)), s')
  {
    var due := Due(cfg, start, s.ops);
    match step
    case One(op) =>
      DueConcat(cfg, start, s.ops, [op]);
      OneEvent(cfg, Held(cfg, start, s), op);
      OneNamed(due, t, s, s.ops + [op], Due(cfg, Held(cfg, start, s), [op]));
    case Batch(ops) =>
      DueConcat(cfg, start, s.ops, ops);
      BatchNamed(due, t, s, s.ops + ops, Due(cfg, Held(cfg, start, s), ops));
    case Abort(ops) =>
      DueConcat(cfg, start, s.ops, ops);
      AllNamedGrows(due, Due(cfg, Held(cfg, start, s), ops), t, s);
    case Send(i) => SendNamed(due, t, s, i);
  }

  lemma OneNamed<T>(due: seq<Event<T>>, t: Tickets, s: Fan<T>, ops: seq<Op<T>>, events: seq<Event<T>>)
    requires AllNamed(due, t, s) && |events| <= 1
    ensures AllNamed(due + events, Apply(t, if events == [] then Lose(0) else Post),
                     s.(ops := ops, log := s.log + events))
  {
    AllNamedGrows(due, events, t, s);
    if events == [] {
      assert s.log + events == s.log;
    } else {
      assert (due + events)[|due|] == events[0];
    }
  }

  lemma BatchNamed<T>(due: seq<Event<T>>, t: Tickets, s: Fan<T>, ops: seq<Op<T>>, events: seq<Event<T>>)
    requires AllNamed(due, t, s)
    ensures AllNamed(due + events, Apply(t, Hold(|events|)), s.(ops := ops, queues := s.queues + [events]))
  {
    AllNamedGrows(due, events, t, s);
    NamedRange(due, events);
  }

  lemma SendNamed<T>(due: seq<Event<T>>, t: Tickets, s: Fan<T>, i: nat)
    requires AllNamed(due, t, s)
    ensures i < |s.queues| && s.queues[i] != [] ==>
              AllNamed(due, Apply(t, Pop(i)),
                       s.(queues := s.queues[i := s.queues[i][1..]], log := s.log + [s.queues[i][0]]))
    ensures i >= |s.queues| || s.queues[i] == [] ==> Apply(t, Pop(i)) == t
  {
    if i < |s.queues| {
      assert Named(due, t.queues[i], s.queues[i]);
    }
  }

  lemma {:induction false} RunNamed<T>(cfg: Config<T>, start: Data<T>, steps: seq<Step<T>>)
    ensures AllNamed(Due(cfg, start, After(cfg, start, steps).ops), Play(MovesOf(cfg, start, steps)),
                     After(cfg, start, steps))
  {
    if steps != [] {
      var init, moves := steps[..|steps| - 1], MovesOf(cfg, start, steps);
      RunNamed(cfg, start, init);
      assert moves[..|moves| - 1] == MovesOf(cfg, start, init);
      StepNamed(cfg, start, After(cfg, start, init), Play(MovesOf(cfg, start, init)), steps[|steps| - 1]);
    }
  }

  lemma {:induction false} SameLengths<A, B>(xs: seq<seq<A>>, ys: seq<seq<B>>)
    requires |xs| == |ys| && forall i :: 0 <= i < |xs| ==> |xs[i]| == |ys[i]|
    ensures |Flat(xs)| == |Flat(ys)|
  {
    if xs != [] {
      SameLengths(xs[..|xs| - 1], ys[..|ys| - 1]);
    }
  }

  /** The numbers of the events on `k`. */
  ghost function On<T>(due: seq<Event<T>>, k: GoString): set<nat> {
    set no: nat | no < |due| && due[no].key == k
  }

  /**
   What the comment on Refresh promises, exactly. In every run, aborted batches included, once all
   queues are empty: watchers have seen a key's events in the order in which they were installed if
   and only if no event on the key was dispatched while an earlier one on it was queued. The
   dispatched events are those their numbers name.
   */
  lemma MonotonicIffNotOvertaken<T>(cfg: Config<T>, start: Data<T>, steps: seq<Step<T>>, k: GoString)
    requires Flat(After(cfg, start, steps).queues) == []
    ensures var s, moves := After(cfg, start, steps), MovesOf(cfg, start, steps);
            var due := Due(cfg, start, s.ops);
            && Named(due, Play(moves).log, s.log)
            && (Rises(Play(moves).log, On(due, k)) <==> !Overtakes(moves, On(due, k)))
  {
    var s, moves := After(cfg, start, steps), MovesOf(cfg, start, steps);
    RunNamed(cfg, start, steps);
    SameLengths(Play(moves).queues, s.queues);
    RisesIffNotOvertaken(moves, On(Due(cfg, start, s.ops), k));
  }

  /** Without collection passes, order of numbers on a key is order of time. */
  lemma RisingNumbersRisingTime<T>(cfg: Config<T>, start: Data<T>, steps: seq<Step<T>>, k: GoString, p: nat, q: nat)
    requires var ops := After(cfg, start, steps).ops; forall i :: 0 <= i < |ops| ==> !ops[i].Gc?
    requires Rises(Play(MovesOf(cfg, start, steps)).log, On(Due(cfg, start, After(cfg, start, steps).ops), k))
    requires p < q < |After(cfg, start, steps).log|
    requires After(cfg, start, steps).log[p].key == k == After(cfg, start, steps).log[q].key
    ensures After(cfg, start, steps).log[p].timestamp <= After(cfg, start, steps).log[q].timestamp
  {
    var s, nos := After(cfg, start, steps), Play(MovesOf(cfg, start, steps)).log;
    RunNamed(cfg, start, steps);
    InstallsIncrease(cfg, start, s.ops);
    var installs := Installs(cfg, start, s.ops);
    assert nos[p] < nos[q];
    assert installs[nos[p]].0 == k == installs[nos[q]].0;
    assert StampLess(installs[nos[p]].1.stamp, installs[nos[q]].1.stamp);
  }
}
