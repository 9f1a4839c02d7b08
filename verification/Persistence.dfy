/**
 The snapshotter: local writers mark the store dirty after they have applied and published, and one loop
 takes the token, waits out the debounce window, drains the token again, reads the map under the lock
 and hands the snapshot to the transport. Every channel operation and every critical section is one
 step; any other goroutine may run between two steps.
 */
module Persistence {
  import opened Order
  import opened Replica
  import opened History

  /** Where the snapshot loop is; `final` marks the flush on close. */
  datatype Pc<+T> =
    | Idle
    | Swept(collectedAny: bool)
    | Debouncing
    | Woken(final: bool)
    | Drained(final: bool)
    | Writing(snap: Data<T>, final: bool)
    | Done

  /**
   `applied` are the local writes that won, `marked` those whose markDirty has completed, `collected` the expired
   tombstones dropped so far, `touched` whether the map changed since it was last read for a snapshot, `failed`
   whether the last attempt at a snapshot failed to encode or to be stored. The transport holds one snapshot per
   topic, `stored`; `own` is the last one this store put there, `overwritten` whether a peer has replaced it
   since. `read` are the writes applied when the map was last read for a snapshot.
   */
  datatype Loop<T(==)> = Loop(
    data: Data<T>,
    dirty: bool,
    closed: bool,
    pc: Pc<T>,
    stored: Data<T>,
    own: Data<T>,
    overwritten: bool,
    collected: set<(GoString, Entry<T>)>,
    applied: set<Write<T>>,
    marked: set<Write<T>>,
    touched: bool,
    failed: bool,
    read: set<Write<T>>)

  datatype Step<T(==)> =
    | ApplyLocal(w: Write<T>)
    | MarkDirty(w: Write<T>)
    | ApplyPeer(op: Op<T>)
    | GcPass(cutoff: int)
    | GcMark
    | TakeToken
    | CloseStore
    | StartFlush
    | TimerFires
    | DrainToken
    | ReadMap(cutoff: int)
    | ReadFails(cutoff: int, reached: set<GoString>)
    | StoreOk
    | StoreFails
    | PeerStores(snap: Data<T>)

  function Gone<T(==)>(data: Data<T>, cutoff: int): set<(GoString, Entry<T>)> {
    set k | k in data && Expired(data[k], cutoff) :: (k, data[k])
  }

  /** A pass that is cut short has dropped only the expired tombstones it reached. */
  function Spared<T>(data: Data<T>, cutoff: int, reached: set<GoString>): Data<T> {
    map k | k in data && !(k in reached && Expired(data[k], cutoff)) :: data[k]
  }

  function GoneOf<T(==)>(data: Data<T>, cutoff: int, reached: set<GoString>): set<(GoString, Entry<T>)> {
    set k | k in data && k in reached && Expired(data[k], cutoff) :: (k, data[k])
  }

  function Rest<T>(final: bool): Pc<T> {
    if final then Done else Idle
  }

  function Fire<T(==)>(cfg: Config<T>, s: Loop<T>, step: Step<T>): Loop<T> {
    match step
    case ApplyLocal(w) =>
      if !LwwAccept(s.data, w.key, w.stamp) then s
      else s.(data := Apply(cfg, s.data, w), applied := s.applied + {w}, touched := true)
    case ApplyPeer(op) =>
      if !Wins(s.data, op) then s else s.(data := DoOp(cfg, s.data, op), touched := true)
    case GcPass(cutoff) =>
      if !s.pc.Idle? then s
      else s.(data := Collect(s.data, cutoff), collected := s.collected + Gone(s.data, cutoff),
              pc := Swept(Gone(s.data, cutoff) != {}), touched := true)
    case ReadMap(cutoff) =>
      if !s.pc.Drained? then s
      else
        var kept := Collect(s.data, cutoff);
        s.(data := kept, collected := s.collected + Gone(s.data, cutoff), pc := Writing(kept, s.pc.final),
           touched := false, read := s.applied)
    case ReadFails(cutoff, reached) =>
      if !s.pc.Drained? then s
      else s.(data := Spared(s.data, cutoff, reached), collected := s.collected + GoneOf(s.data, cutoff, reached),
              pc := Rest(s.pc.final), touched := true, failed := true, read := s.applied)
    case _ => Control(s, step)
  }

  /** The steps that leave the map alone. */
  function Control<T(==)>(s: Loop<T>, step: Step<T>): (s': Loop<T>)
    ensures s'.data == s.data && s'.collected == s.collected && s'.applied == s.applied
  {
    match step
    case MarkDirty(w) =>
      if w !in s.applied then s else s.(dirty := true, marked := s.marked + {w})
    case GcMark =>
      if !s.pc.Swept? then s else s.(dirty := s.dirty || s.pc.collectedAny, pc := Idle)
    case TakeToken =>
      if !s.pc.Idle? || !s.dirty then s else s.(dirty := false, pc := Debouncing)
    case CloseStore => s.(closed := true)
    case StartFlush =>
      if !s.closed || !(s.pc.Idle? || s.pc.Debouncing?) then s else s.(pc := Woken(true))
    case TimerFires =>
      if !s.pc.Debouncing? then s else s.(pc := Woken(false))
    case DrainToken =>
      if !s.pc.Woken? then s else s.(dirty := false, pc := Drained(s.pc.final))
    case StoreOk =>
      if !s.pc.Writing? then s
          else s.(stored := s.pc.snap, own := s.pc.snap, overwritten := false, failed := false, pc := Rest(s.pc.final))
    case StoreFails =>
      if !s.pc.Writing? then s else s.(pc := Rest(s.pc.final), failed := true)
    case PeerStores(snap) => s.(stored := snap, overwritten := true)
    case _ => s
  }

  /** A fresh store with the map it loaded and whatever the transport last stored. */
  function Init<T(==)>(data: Data<T>, stored: Data<T>): Loop<T> {
    Loop(data, false, false, Idle, stored, stored, false, {}, {}, {}, true, false, {})
  }

  function After<T(==)>(cfg: Config<T>, init: Loop<T>, steps: seq<Step<T>>): Loop<T> {
    if steps == [] then init
    else Fire(cfg, After(cfg, init, steps[..|steps| - 1]), steps[|steps| - 1])
  }

  // ---------------------------------------------------------------- coverage

  /** The map holds the write or a newer one on its key, or a tombstone at least as new was collected. */
  ghost predicate Covers<T(!new)>(data: Data<T>, collected: set<(GoString, Entry<T>)>, w: Write<T>) {
    || (w.key in data && StampLeq(w.stamp, data[w.key].stamp))
    || exists e :: (w.key, e) in collected && StampLeq(w.stamp, e.stamp)
  }

  /** What is promised about a marked write at each point of the loop. */
  ghost predicate Safe<T(!new)>(s: Loop<T>, w: Write<T>) {
    match s.pc
    case Idle => s.dirty || Covers(s.own, s.collected, w)
    case Swept(_) => s.dirty || Covers(s.own, s.collected, w)
    case Done => s.dirty || Covers(s.own, s.collected, w)
    case Writing(snap, _) => s.dirty || Covers(snap, s.collected, w)
    case _ => true
  }

  /** The last attempt did not fail, or the next one has read the map and is under way. */
  predicate Trusted<T>(s: Loop<T>) {
    !s.failed || s.pc.Writing?
  }

  ghost predicate Inv<T(!new)>(s: Loop<T>) {
    && s.marked <= s.applied && s.read <= s.applied
    && (forall w {:trigger Covers(s.data, s.collected, w)} :: w in s.applied ==> Covers(s.data, s.collected, w))
    && (Trusted(s) ==> forall w {:trigger Safe(s, w)} :: w in s.marked ==> Safe(s, w))
    && (forall w {:trigger Kept(s, w)} :: w in s.read ==> Kept(s, w))
    && Traceable(s)
  }

  /** A write that had been applied when the map was last read is in what was read, and in what was stored of it. */
  ghost predicate Kept<T(!new)>(s: Loop<T>, w: Write<T>) {
    if s.pc.Writing? then Covers(s.pc.snap, s.collected, w) else s.failed || Covers(s.own, s.collected, w)
  }

  /** The loop is flushing for the last time, or has ended. */
  predicate Closing<T>(pc: Pc<T>) {
    match pc
    case Woken(final) => final
    case Drained(final) => final
    case Writing(_, final) => final
    case Done => true
    case _ => false
  }

  /** What the snapshots on their way and on the transport were read from. */
  ghost predicate Traceable<T>(s: Loop<T>) {
    && (s.pc.Writing? && !s.touched ==> s.pc.snap == s.data)
    && (s.pc.Done? && !s.failed && !s.touched ==> s.own == s.data)
    && (!s.overwritten ==> s.stored == s.own)
    && (Closing(s.pc) ==> s.closed)
  }

  lemma StepKeepsTraceable<T(!new)>(cfg: Config<T>, s: Loop<T>, step: Step<T>)
    requires Traceable(s) && s.marked <= s.applied
    ensures Traceable(Fire(cfg, s, step)) && Fire(cfg, s, step).marked <= Fire(cfg, s, step).applied
  {
    match step
    case ApplyLocal(_) =>
    case ApplyPeer(_) =>
    case GcPass(_) =>
    case ReadMap(_) =>
    case ReadFails(_, _) =>
    case _ => ControlKeepsTraceable(s, step);
  }

  lemma ControlKeepsTraceable<T(!new)>(s: Loop<T>, step: Step<T>)
    requires Traceable(s) && s.marked <= s.applied
    ensures Traceable(Control(s, step)) && Control(s, step).marked <= Control(s, step).applied
  {
  }

  lemma CoversAfterOp<T(!new)>(cfg: Config<T>, data: Data<T>, collected: set<(GoString, Entry<T>)>, op: Op<T>,
                               w: Write<T>)
    requires Covers(data, collected, w) && !op.Gc?
    ensures Covers(DoOp(cfg, data, op), collected, w)
  {
    if Wins(data, op) && OpKey(op) == w.key && w.key in data && StampLeq(w.stamp, data[w.key].stamp) {
      if w.stamp != data[w.key].stamp {
        StampTransitive(w.stamp, data[w.key].stamp, OpStamp(op));
      }
      assert DoOp(cfg, data, op)[w.key].stamp == OpStamp(op);
    }
  }

  lemma CoversAfterGc<T(!new)>(data: Data<T>, collected: set<(GoString, Entry<T>)>, data': Data<T>,
                               more: set<(GoString, Entry<T>)>, w: Write<T>)
    requires Covers(data, collected, w) && collected <= more
    requires forall k :: k in data ==> (k in data' && data'[k] == data[k]) || (k, data[k]) in more
    ensures Covers(data', more, w)
  {
    if w.key !in data || !StampLeq(w.stamp, data[w.key].stamp) {
      var e :| (w.key, e) in collected && StampLeq(w.stamp, e.stamp);
      assert (w.key, e) in more;
    }
  }

  lemma CoversApplied<T(!new)>(cfg: Config<T>, data: Data<T>, collected: set<(GoString, Entry<T>)>, w: Write<T>)
    requires LwwAccept(data, w.key, w.stamp)
    ensures Covers(Apply(cfg, data, w), collected, w)
  {
  }

  lemma CollectedGrows<T(!new)>(data: Data<T>, collected: set<(GoString, Entry<T>)>, more: set<(GoString, Entry<T>)>,
                                w: Write<T>)
    requires Covers(data, collected, w) && collected <= more
    ensures Covers(data, more, w)
  {
    if !(w.key in data && StampLeq(w.stamp, data[w.key].stamp)) {
      var e :| (w.key, e) in collected && StampLeq(w.stamp, e.stamp);
      assert (w.key, e) in more;
    }
  }

  /** A pass keeps an entry or records it as collected. */
  lemma SweepCovers<T(!new)>(data: Data<T>, collected: set<(GoString, Entry<T>)>, cutoff: int, w: Write<T>)
    requires Covers(data, collected, w)
    ensures Covers(Collect(data, cutoff), collected + Gone(data, cutoff), w)
  {
    forall k | k in data ensures (k in Collect(data, cutoff) && Collect(data, cutoff)[k] == data[k])
        || (k, data[k]) in Gone(data, cutoff) {
    }
    CoversAfterGc(data, collected, Collect(data, cutoff), collected + Gone(data, cutoff), w);
  }

  lemma CutSweepCovers<T(!new)>(data: Data<T>, collected: set<(GoString, Entry<T>)>, cutoff: int,
                                reached: set<GoString>, w: Write<T>)
    requires Covers(data, collected, w)
    ensures Covers(Spared(data, cutoff, reached), collected + GoneOf(data, cutoff, reached), w)
  {
    var data', more := Spared(data, cutoff, reached), GoneOf(data, cutoff, reached);
    forall k | k in data ensures (k in data' && data'[k] == data[k]) || (k, data[k]) in more {
    }
    CoversAfterGc(data, collected, data', collected + more, w);
  }

  lemma PassKeepsCovers<T(!new)>(cfg: Config<T>, s: Loop<T>, step: Step<T>, w: Write<T>)
    requires (step.GcPass? || step.ReadMap? || step.ReadFails?) && Covers(s.data, s.collected, w)
    ensures Covers(Fire(cfg, s, step).data, Fire(cfg, s, step).collected, w)
  {
    if step.ReadFails? {
      CutSweepCovers(s.data, s.collected, step.cutoff, step.reached, w);
    } else {
      SweepCovers(s.data, s.collected, step.cutoff, w);
    }
  }

  lemma ApplyKeepsCovers<T(!new)>(cfg: Config<T>, s: Loop<T>, step: Step<T>, w: Write<T>)
    requires (step.ApplyLocal? || step.ApplyPeer?) && Covers(s.data, s.collected, w)
    ensures Covers(Fire(cfg, s, step).data, Fire(cfg, s, step).collected, w)
  {
    var op := if step.ApplyLocal? then Offer(step.w) else step.op;
    if Wins(s.data, op) {
      CoversAfterOp(cfg, s.data, s.collected, op, w);
      assert Fire(cfg, s, step).data == DoOp(cfg, s.data, op);
    }
  }

  lemma CoversStays<T(!new)>(cfg: Config<T>, s: Loop<T>, step: Step<T>, w: Write<T>)
    requires Covers(s.data, s.collected, w)
    ensures Covers(Fire(cfg, s, step).data, Fire(cfg, s, step).collected, w)
  {
    if step.GcPass? || step.ReadMap? || step.ReadFails? {
      PassKeepsCovers(cfg, s, step, w);
    } else if step.ApplyLocal? || step.ApplyPeer? {
      ApplyKeepsCovers(cfg, s, step, w);
    }
  }

  /** Every applied write stays covered by the map. */
  lemma StepKeepsApplied<T(!new)>(cfg: Config<T>, s: Loop<T>, step: Step<T>, w: Write<T>)
    requires Inv(s) && w in Fire(cfg, s, step).applied
    ensures Covers(Fire(cfg, s, step).data, Fire(cfg, s, step).collected, w)
  {
    if w in s.applied {
      assert Covers(s.data, s.collected, w);
      CoversStays(cfg, s, step, w);
    } else {
      CoversApplied(cfg, s.data, s.collected, w);
    }
  }

  /** What a step does to one marked write. */
  lemma SafeStays<T(!new)>(cfg: Config<T>, s: Loop<T>, step: Step<T>, w: Write<T>)
    requires Trusted(s) ==> Safe(s, w)
    requires Trusted(Fire(cfg, s, step)) && Covers(Fire(cfg, s, step).data, Fire(cfg, s, step).collected, w)
    ensures Safe(Fire(cfg, s, step), w)
  {
    if step.GcPass? && s.pc.Idle? && !s.dirty {
      CollectedGrows(s.own, s.collected, Fire(cfg, s, step).collected, w);
    }
  }

  /** Every marked write stays safe. */
  lemma StepKeepsSafe<T(!new)>(cfg: Config<T>, s: Loop<T>, step: Step<T>, w: Write<T>)
    requires Inv(s) && w in Fire(cfg, s, step).marked && Trusted(Fire(cfg, s, step))
    ensures Safe(Fire(cfg, s, step), w)
  {
    if w !in s.marked {
      Marks(cfg, s, step, w);
    } else {
      assert Trusted(s) ==> Safe(s, w);
      AppliedGrows(cfg, s, step);
      StepKeepsApplied(cfg, s, step, w);
      SafeStays(cfg, s, step, w);
    }
  }

  /** What a step does to one write of the last read. */
  lemma KeptStays<T(!new)>(cfg: Config<T>, s: Loop<T>, step: Step<T>, w: Write<T>)
    requires w in s.read ==> Kept(s, w)
    requires w in Fire(cfg, s, step).read && Covers(Fire(cfg, s, step).data, Fire(cfg, s, step).collected, w)
    ensures Kept(Fire(cfg, s, step), w)
  {
    if step.GcPass? && s.pc.Idle? && !s.failed {
      assert w in s.read;
      CollectedGrows(s.own, s.collected, Fire(cfg, s, step).collected, w);
    }
  }

  lemma StepKeepsKept<T(!new)>(cfg: Config<T>, s: Loop<T>, step: Step<T>, w: Write<T>)
    requires Inv(s) && s.read <= s.applied && w in Fire(cfg, s, step).read
    ensures Kept(Fire(cfg, s, step), w)
  {
    assert w in s.read ==> Kept(s, w);
    ReadApplied(cfg, s, step);
    StepKeepsApplied(cfg, s, step, w);
    KeptStays(cfg, s, step, w);
  }

  lemma ReadApplied<T(!new)>(cfg: Config<T>, s: Loop<T>, step: Step<T>)
    requires s.read <= s.applied
    ensures Fire(cfg, s, step).read <= Fire(cfg, s, step).applied
  {
    AppliedGrows(cfg, s, step);
  }

  /** A write becomes marked by markDirty alone, which leaves a token. */
  lemma Marks<T(!new)>(cfg: Config<T>, s: Loop<T>, step: Step<T>, w: Write<T>)
    requires w in Fire(cfg, s, step).marked && w !in s.marked
    ensures step == MarkDirty(w) && Safe(Fire(cfg, s, step), w)
  {
    assert step.MarkDirty?;
  }

  lemma AppliedGrows<T(!new)>(cfg: Config<T>, s: Loop<T>, step: Step<T>)
    ensures s.applied <= Fire(cfg, s, step).applied
  {
  }

  lemma StepKeepsInv<T(!new)>(cfg: Config<T>, s: Loop<T>, step: Step<T>)
    requires Inv(s)
    ensures Inv(Fire(cfg, s, step))
  {
    var s' := Fire(cfg, s, step);
    StepKeepsTraceable(cfg, s, step);
    ReadApplied(cfg, s, step);
    forall w | w in s'.read ensures Kept(s', w) {
      StepKeepsKept(cfg, s, step, w);
    }
    forall w | w in s'.applied ensures Covers(s'.data, s'.collected, w) {
      StepKeepsApplied(cfg, s, step, w);
    }
    if Trusted(s') {
      forall w | w in s'.marked ensures Safe(s', w) {
        StepKeepsSafe(cfg, s, step, w);
      }
    }
  }

  lemma {:induction false} RunsKeepInv<T(!new)>(cfg: Config<T>, data: Data<T>, stored: Data<T>, steps: seq<Step<T>>)
    ensures Inv(After(cfg, Init(data, stored), steps))
  {
    if steps != [] {
      RunsKeepInv(cfg, data, stored, steps[..|steps| - 1]);
      StepKeepsInv(cfg, After(cfg, Init(data, stored), steps[..|steps| - 1]), steps[|steps| - 1]);
    }
  }

  // ---------------------------------------------------------------- main theorems

  /**
   No lost persistence. In every run a local write whose markDirty has completed is still covered by the map.
   Unless the last attempt at a snapshot failed, it is also covered by the last snapshot this store put on
   the transport, or a token is pending, or the loop is past taking a token and will still store a snapshot
   that covers it. That snapshot is what the transport holds unless a peer has replaced it. A failed attempt
   is forgotten with the next one that succeeds.
   */
  lemma NoLostPersistence<T(!new)>(cfg: Config<T>, data: Data<T>, stored: Data<T>, steps: seq<Step<T>>, w: Write<T>)
    requires w in After(cfg, Init(data, stored), steps).marked
    ensures var s := After(cfg, Init(data, stored), steps);
            && Covers(s.data, s.collected, w)
            && (|| s.failed
                || (Covers(s.own, s.collected, w) && (!s.overwritten ==> Covers(s.stored, s.collected, w)))
                || s.dirty
                || s.pc.Debouncing? || s.pc.Woken? || s.pc.Drained?
                || s.pc.Writing?)
            && (s.pc.Writing? ==> s.dirty || Covers(s.pc.snap, s.collected, w))
  {
    RunsKeepInv(cfg, data, stored, steps);
    var s := After(cfg, Init(data, stored), steps);
    assert Trusted(s) ==> Safe(s, w);
    assert w in s.applied;
  }

  /** A clean final flush: once the loop has ended, what it stored last is the map it read, all of it. */
  lemma FinalFlushStoresAll<T(!new)>(cfg: Config<T>, data: Data<T>, stored: Data<T>, steps: seq<Step<T>>)
    requires var s := After(cfg, Init(data, stored), steps); s.pc.Done? && !s.failed && !s.touched
    ensures var s := After(cfg, Init(data, stored), steps); s.own == s.data && (!s.overwritten ==> s.stored == s.data)
  {
    RunsKeepInv(cfg, data, stored, steps);
  }

  /** The last read of the map before the loop ends, or before the last snapshot is handed over. */
  lemma {:induction false} LastRead<T(!new)>(cfg: Config<T>, data: Data<T>, stored: Data<T>, steps: seq<Step<T>>)
    returns (j: nat)
    requires var s := After(cfg, Init(data, stored), steps); s.pc.Done? || (s.pc.Writing? && s.pc.final)
    ensures j < |steps| && (steps[j].ReadMap? || steps[j].ReadFails?)
    ensures var s := After(cfg, Init(data, stored), steps[..j]);
            s.pc == Drained(true) && After(cfg, Init(data, stored), steps).read == s.applied
  {
    var init, step := steps[..|steps| - 1], steps[|steps| - 1];
    var s := After(cfg, Init(data, stored), init);
    if s.pc.Done? || (s.pc.Writing? && s.pc.final) {
      j := LastRead(cfg, data, stored, init);
      assert init[..j] == steps[..j];
      EndsInOrder(cfg, s, step);
    } else {
      j := |init|;
      EndsByReading(cfg, s, step);
    }
  }

  lemma EndsInOrder<T>(cfg: Config<T>, s: Loop<T>, step: Step<T>)
    requires s.pc.Done? || (s.pc.Writing? && s.pc.final)
    ensures Fire(cfg, s, step).read == s.read
  {
  }

  lemma EndsByReading<T>(cfg: Config<T>, s: Loop<T>, step: Step<T>)
    requires !(s.pc.Done? || (s.pc.Writing? && s.pc.final))
    requires var s' := Fire(cfg, s, step); s'.pc.Done? || (s'.pc.Writing? && s'.pc.final)
    ensures s.pc == Drained(true) && (step.ReadMap? || step.ReadFails?) && Fire(cfg, s, step).read == s.applied
  {
    match step
    case ReadMap(_) =>
    case ReadFails(_, _) =>
    case ApplyLocal(_) =>
    case ApplyPeer(_) =>
    case GcPass(_) =>
    case _ => ControlNeverReads(s, step);
  }

  lemma ControlNeverReads<T>(s: Loop<T>, step: Step<T>)
    requires var s' := Control(s, step); s'.pc.Done? || (s'.pc.Writing? && s'.pc.final)
    ensures s.pc.Done? || (s.pc.Writing? && s.pc.final)
  {
  }

  /**
   The loop flushes before it ends. In every run that has ended it, the store was closed, and after that the map
   was read once more; unless that last attempt failed, the last snapshot this store put on the transport covers
   every write that had been applied by then, marked or not.
   */
  lemma FlushedBeforeEnd<T(!new)>(cfg: Config<T>, data: Data<T>, stored: Data<T>, steps: seq<Step<T>>) returns (j: nat)
    requires After(cfg, Init(data, stored), steps).pc.Done?
    ensures j < |steps| && (steps[j].ReadMap? || steps[j].ReadFails?)
    ensures var s, end := After(cfg, Init(data, stored), steps[..j]), After(cfg, Init(data, stored), steps);
            && s.pc == Drained(true) && s.closed
            && (!end.failed ==> forall w :: w in s.applied ==> Covers(end.own, end.collected, w))
  {
    j := LastRead(cfg, data, stored, steps);
    RunsKeepInv(cfg, data, stored, steps);
    RunsKeepInv(cfg, data, stored, steps[..j]);
    var end := After(cfg, Init(data, stored), steps);
    forall w | w in end.read && !end.failed ensures Covers(end.own, end.collected, w) {
      assert Kept(end, w);
    }
  }

  /** One round of the loop with nothing in between, up to the transport's answer. */
  function Round<T(==)>(cfg: Config<T>, s: Loop<T>, cutoff: int, answer: Step<T>): Loop<T> {
    Fire(cfg, Fire(cfg, Fire(cfg, Fire(cfg, Fire(cfg, s, TakeToken), TimerFires), DrainToken), ReadMap(cutoff)), answer)
  }

  lemma RoundIs<T>(cfg: Config<T>, s: Loop<T>, cutoff: int)
    requires s.pc.Idle? && s.dirty
    ensures var kept := s.(data := Collect(s.data, cutoff), collected := s.collected + Gone(s.data, cutoff),
                           dirty := false, touched := false, read := s.applied);
            && Round(cfg, s, cutoff, StoreOk) ==
               kept.(stored := kept.data, own := kept.data, overwritten := false, failed := false)
            && Round(cfg, s, cutoff, StoreFails) == kept.(failed := true)
  {
    Wakes(cfg, s);
    Reads(cfg, s.(dirty := false, pc := Drained(false)), cutoff);
  }

  lemma Wakes<T>(cfg: Config<T>, s: Loop<T>)
    requires s.pc.Idle? && s.dirty
    ensures Fire(cfg, Fire(cfg, Fire(cfg, s, TakeToken), TimerFires), DrainToken) ==
            s.(dirty := false, pc := Drained(false))
  {
    var token := s.(dirty := false, pc := Debouncing);
    assert Control(s, TakeToken) == token;
    assert Control(token, TimerFires) == token.(pc := Woken(false));
  }

  lemma Reads<T>(cfg: Config<T>, s: Loop<T>, cutoff: int)
    requires s.pc == Drained(false)
    ensures var kept := s.(data := Collect(s.data, cutoff), collected := s.collected + Gone(s.data, cutoff),
                           touched := false, read := s.applied, pc := Idle);
            && Fire(cfg, Fire(cfg, s, ReadMap(cutoff)), StoreOk) ==
               kept.(stored := kept.data, own := kept.data, overwritten := false, failed := false)
            && Fire(cfg, Fire(cfg, s, ReadMap(cutoff)), StoreFails) == kept.(failed := true)
  {
    var s' := Fire(cfg, s, ReadMap(cutoff));
    assert s'.pc == Writing(s'.data, false);
  }

  /** Closing the store with nothing in between, up to the transport's answer. */
  function Shutdown<T(==)>(cfg: Config<T>, s: Loop<T>, cutoff: int, answer: Step<T>): Loop<T> {
    Fire(cfg, Fire(cfg, Fire(cfg, Fire(cfg, Fire(cfg, s, CloseStore), StartFlush), DrainToken), ReadMap(cutoff)),
         answer)
  }

  /**
   Closing flushes, wherever the loop waits and whether or not anything is marked: the loop ends with no token
   left, and the transport holds the whole map as it was read, minus its expired tombstones.
   */
  lemma ShutdownStoresAll<T>(cfg: Config<T>, s: Loop<T>, cutoff: int)
    requires s.pc.Idle? || s.pc.Debouncing?
    ensures var end := Shutdown(cfg, s, cutoff, StoreOk);
            && end.pc.Done? && end.closed && !end.dirty && !end.failed && !end.overwritten
            && end.stored == end.own == end.data == Collect(s.data, cutoff) && end.read == s.applied
  {
    var woken := s.(closed := true, pc := Woken(true));
    assert Control(Control(s, CloseStore), StartFlush) == woken;
    assert Control(woken, DrainToken) == woken.(dirty := false, pc := Drained(true));
    var read := Fire(cfg, woken.(dirty := false, pc := Drained(true)), ReadMap(cutoff));
    assert read.pc == Writing(Collect(s.data, cutoff), true);
  }

  /** A tick collects the expired tombstones and marks the store dirty exactly if there were any. */
  lemma TickCollects<T>(cfg: Config<T>, s: Loop<T>, cutoff: int)
    requires s.pc.Idle?
    ensures var s' := Fire(cfg, Fire(cfg, s, GcPass(cutoff)), GcMark);
            && s'.pc.Idle? && s'.data == Collect(s.data, cutoff) && s'.dirty == (s.dirty || s'.data != s.data)
            && s'.applied == s.applied && s'.stored == s.stored
  {
    var kept := Collect(s.data, cutoff);
    if kept == s.data {
      assert forall k :: k in s.data ==> k in kept;
      assert Gone(s.data, cutoff) == {};
    } else {
      assert exists k :: k in s.data && Expired(s.data[k], cutoff);
      var k :| k in s.data && Expired(s.data[k], cutoff);
      assert (k, s.data[k]) in Gone(s.data, cutoff);
    }
  }

  /** A store that has applied and marked its first write. */
  function FirstMark<T(==)>(cfg: Config<T>, w: Write<T>): Loop<T> {
    Fire(cfg, Fire(cfg, Init(map[], map[]), ApplyLocal(w)), MarkDirty(w))
  }

  lemma FirstMarkIs<T(!new)>(cfg: Config<T>, w: Write<T>)
    ensures var s := FirstMark(cfg, w);
            && s.pc.Idle? && s.dirty && w in s.marked && s.stored == map[] && s.collected == {} && Covers(s.data, {}, w)
            && Collect(s.data, w.stamp.timestamp) == s.data && Gone(s.data, w.stamp.timestamp) == {}
  {
    var data := Apply(cfg, map[], w);
    assert FirstMark(cfg, w).data == data;
    CoversApplied(cfg, map[], {}, w);
  }

  /**
   The loop can always catch up, after failures too: one undisturbed round from a pending token covers every
   applied write.
   */
  lemma RoundCatchesUp<T(!new)>(cfg: Config<T>, data: Data<T>, stored: Data<T>, steps: seq<Step<T>>, cutoff: int,
                                w: Write<T>)
    requires var s := After(cfg, Init(data, stored), steps); s.pc.Idle? && s.dirty && w in s.applied
    ensures var s := Round(cfg, After(cfg, Init(data, stored), steps), cutoff, StoreOk);
            s.pc.Idle? && !s.dirty && !s.failed && s.stored == s.data && Covers(s.stored, s.collected, w)
  {
    RunsKeepInv(cfg, data, stored, steps);
    var s := After(cfg, Init(data, stored), steps);
    RoundIs(cfg, s, cutoff);
    assert Covers(s.data, s.collected, w);
    SweepCovers(s.data, s.collected, cutoff, w);
  }

  /** Success matters: a failed store has already consumed the token, and the write is neither stored nor pending. */
  lemma FailedStoreForgets<T(!new)>(cfg: Config<T>, w: Write<T>)
    ensures var s := Round(cfg, FirstMark(cfg, w), w.stamp.timestamp, StoreFails);
            w in s.marked && s.pc.Idle? && !s.dirty && s.failed && !Covers(s.stored, s.collected, w)
  {
    FirstMarkIs(cfg, w);
    RoundIs(cfg, FirstMark(cfg, w), w.stamp.timestamp);
  }

  /**
   A shared topic has one snapshot, so a peer whose map has nothing on the key takes a stored
   write off the transport again: the write is applied, marked and stored, and after the peer's
   snapshot no longer stored, with no token pending.
   */
  lemma PeerOverwrites<T(!new)>(cfg: Config<T>, w: Write<T>, theirs: Data<T>)
    requires w.key !in theirs
    ensures var s := Round(cfg, FirstMark(cfg, w), w.stamp.timestamp, StoreOk);
            var s' := Fire(cfg, s, PeerStores(theirs));
            && Covers(s.stored, s.collected, w)
            && w in s'.marked && s'.pc.Idle? && !s'.dirty && !s'.failed && !Covers(s'.stored, s'.collected, w)
  {
    FirstMarkIs(cfg, w);
    RoundIs(cfg, FirstMark(cfg, w), w.stamp.timestamp);
  }
}
