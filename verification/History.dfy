/**
 Histories of one replica: any interleaving of applied writes, adopted snapshot entries and tombstone collection,
 the entries they install, and what a watcher that replays the resulting events sees. A batch is a run of Offer
 operations under one lock, a refresh a run of Adopt operations in map iteration order.
 */
module History {
  import opened Order
  import opened Replica

  datatype Op<+T> =
    | Offer(w: Write<T>)
    | Adopt(key: GoString, entry: Entry<T>)
    | Gc(cutoff: int)

  function OpStamp<T>(op: Op<T>): Stamp
    requires !op.Gc?
  {
    if op.Offer? then op.w.stamp else op.entry.stamp
  }

  function OpKey<T>(op: Op<T>): GoString
    requires !op.Gc?
  {
    if op.Offer? then op.w.key else op.key
  }

  /** The entry an operation installs if it wins; a refresh never merges values. */
  function OpEntry<T>(cfg: Config<T>, data: Data<T>, op: Op<T>): Entry<T>
    requires !op.Gc?
  {
    if op.Offer? then Installed(cfg, data, op.w) else op.entry
  }

  predicate Wins<T>(data: Data<T>, op: Op<T>) {
    !op.Gc? && LwwAccept(data, OpKey(op), OpStamp(op))
  }

  function DoOp<T>(cfg: Config<T>, data: Data<T>, op: Op<T>): Data<T> {
    if op.Gc? then Collect(data, op.cutoff)
    else if Wins(data, op) then data[OpKey(op) := OpEntry(cfg, data, op)]
    else data
  }

  function Run<T>(cfg: Config<T>, data: Data<T>, ops: seq<Op<T>>): Data<T> {
    if ops == [] then data
    else DoOp(cfg, Run(cfg, data, ops[..|ops| - 1]), ops[|ops| - 1])
  }

  /** The (key, entry) pairs written into the map, in order. */
  function Installs<T>(cfg: Config<T>, data: Data<T>, ops: seq<Op<T>>): seq<(GoString, Entry<T>)> {
    if ops == [] then []
    else
      var before := ops[..|ops| - 1];
      var op := ops[|ops| - 1];
      var mid := Run(cfg, data, before);
      Installs(cfg, data, before) + if Wins(mid, op) then [(OpKey(op), OpEntry(cfg, mid, op))] else []
  }

  function EventsOf<T>(installs: seq<(GoString, Entry<T>)>): (events: seq<Event<T>>)
    ensures |events| == |installs|
    ensures forall i :: 0 <= i < |events| ==> events[i] == EventOf(installs[i].0, installs[i].1)
  {
    seq(|installs|, i requires 0 <= i < |installs| => EventOf(installs[i].0, installs[i].1))
  }

  lemma EventsConcat<T>(xs: seq<(GoString, Entry<T>)>, ys: seq<(GoString, Entry<T>)>)
    ensures EventsOf(xs + ys) == EventsOf(xs) + EventsOf(ys)
  {
  }

  lemma RunSnoc<T>(cfg: Config<T>, data: Data<T>, ops: seq<Op<T>>, op: Op<T>)
    ensures Run(cfg, data, ops + [op]) == DoOp(cfg, Run(cfg, data, ops), op)
    ensures Installs(cfg, data, ops + [op]) ==
            Installs(cfg, data, ops) +
            if Wins(Run(cfg, data, ops), op) then [(OpKey(op), OpEntry(cfg, Run(cfg, data, ops), op))] else []
  {
    assert (ops + [op])[..|ops|] == ops;
  }

  lemma {:induction false} RunConcat<T>(cfg: Config<T>, data: Data<T>, xs: seq<Op<T>>, ys: seq<Op<T>>)
    ensures Run(cfg, data, xs + ys) == Run(cfg, Run(cfg, data, xs), ys)
    ensures Installs(cfg, data, xs + ys) == Installs(cfg, data, xs) + Installs(cfg, Run(cfg, data, xs), ys)
  {
    if ys == [] {
      assert xs + ys == xs;
    } else {
      var init := ys[..|ys| - 1];
      RunConcat(cfg, data, xs, init);
      assert (xs + ys)[..|xs + ys| - 1] == xs + init;
    }
  }

  // ---------------------------------------------------------------- refresh in any iteration order

  function AdoptAll<T>(order: seq<GoString>, snap: Data<T>): (ops: seq<Op<T>>)
    requires forall k :: k in order ==> k in snap
    ensures |ops| == |order|
    ensures forall i :: 0 <= i < |ops| ==> ops[i] == Adopt(order[i], snap[order[i]])
  {
    seq(|order|, i requires 0 <= i < |order| => Adopt(order[i], snap[order[i]]))
  }

  function Restrict<T>(snap: Data<T>, order: seq<GoString>): Data<T> {
    map k | k in snap && k in order :: snap[k]
  }

  lemma AdoptOne<T>(cfg: Config<T>, data: Data<T>, part: Data<T>, k: GoString, e: Entry<T>)
    requires k in part ==> part[k] == e
    ensures DoOp(cfg, Merge(data, part), Adopt(k, e)) == Merge(data, part[k := e])
  {
    StampTrichotomy(e.stamp, e.stamp);
  }

  lemma RestrictSnoc<T>(snap: Data<T>, init: seq<GoString>, k: GoString)
    requires k in snap
    ensures Restrict(snap, init + [k]) == Restrict(snap, init)[k := snap[k]]
    ensures k in Restrict(snap, init) ==> Restrict(snap, init)[k] == snap[k]
  {
  }

  /** Adopting entries one by one, in any order and even with repeats, is the per-key merge. */
  lemma {:induction false} AdoptAnyOrder<T>(cfg: Config<T>, data: Data<T>, snap: Data<T>, order: seq<GoString>)
    requires forall k :: k in order ==> k in snap
    ensures Run(cfg, data, AdoptAll(order, snap)) == Merge(data, Restrict(snap, order))
  {
    if order == [] {
      assert Merge(data, Restrict(snap, order)) == data;
    } else {
      var init := order[..|order| - 1];
      var last := order[|order| - 1];
      assert order == init + [last];
      AdoptAnyOrder(cfg, data, snap, init);
      AdoptNext(cfg, data, snap, init, last);
    }
  }

  lemma AdoptNext<T>(cfg: Config<T>, data: Data<T>, snap: Data<T>, init: seq<GoString>, last: GoString)
    requires last in snap && (forall k :: k in init ==> k in snap)
             && Run(cfg, data, AdoptAll(init, snap)) == Merge(data, Restrict(snap, init))
    ensures Run(cfg, data, AdoptAll(init + [last], snap)) == Merge(data, Restrict(snap, init + [last]))
  {
    RunSnoc(cfg, data, AdoptAll(init, snap), Adopt(last, snap[last]));
    assert AdoptAll(init + [last], snap) == AdoptAll(init, snap) + [Adopt(last, snap[last])];
    RestrictSnoc(snap, init, last);
    AdoptOne(cfg, data, Restrict(snap, init), last, snap[last]);
  }

  // ---------------------------------------------------------------- watch replay

  function ReplayOne<T>(view: map<GoString, T>, ev: Event<T>): map<GoString, T> {
    if ev.kind.EventSet? then view[ev.key := ev.value] else view - {ev.key}
  }

  function Replay<T>(view: map<GoString, T>, events: seq<Event<T>>): map<GoString, T> {
    if events == [] then view
    else ReplayOne(Replay(view, events[..|events| - 1]), events[|events| - 1])
  }

  /**
   Watch replay: replaying the events dispatched since any point over the live view at that point gives the
   current live view, whatever was applied, adopted or collected.
   */
  lemma {:induction false} ReplayReproduces<T>(cfg: Config<T>, data: Data<T>, ops: seq<Op<T>>)
    ensures Replay(View(data), EventsOf(Installs(cfg, data, ops))) == View(Run(cfg, data, ops))
  {
    if ops != [] {
      var before := ops[..|ops| - 1];
      var op := ops[|ops| - 1];
      var mid := Run(cfg, data, before);
      ReplayReproduces(cfg, data, before);
      if Wins(mid, op) {
        ReplaySnoc(View(data), Installs(cfg, data, before), OpKey(op), OpEntry(cfg, mid, op));
        InstallShows(mid, OpKey(op), OpEntry(cfg, mid, op));
      } else {
        assert View(DoOp(cfg, mid, op)) == View(mid);
        assert Installs(cfg, data, ops) == Installs(cfg, data, before);
      }
    }
  }

  lemma ReplaySnoc<T>(view: map<GoString, T>, installs: seq<(GoString, Entry<T>)>, k: GoString, e: Entry<T>)
    ensures Replay(view, EventsOf(installs + [(k, e)])) == ReplayOne(Replay(view, EventsOf(installs)), EventOf(k, e))
  {
    assert EventsOf(installs + [(k, e)])[..|installs|] == EventsOf(installs);
  }

  /** Putting an entry into the map shows as its event does. */
  lemma InstallShows<T>(data: Data<T>, k: GoString, e: Entry<T>)
    ensures View(data[k := e]) == ReplayOne(View(data), EventOf(k, e))
  {
  }

  /** The operation deletes: a Delete, or an adopted tombstone. */
  predicate Deletes<T>(op: Op<T>) {
    (op.Offer? && op.w.kind.KindDelete?) || (op.Adopt? && op.entry.tombstone)
  }

  /** The event says what the operation did: its key, its author, its time, whether it deleted, and the value stored. */
  predicate Tells<T(==)>(cfg: Config<T>, data: Data<T>, op: Op<T>, ev: Event<T>) {
    && !op.Gc? && ev.key == (if op.Offer? then op.w.key else op.key)
    && ev.origin == (if op.Offer? then op.w.stamp.origin else op.entry.stamp.origin)
    && ev.timestamp == (if op.Offer? then op.w.stamp.timestamp else op.entry.stamp.timestamp)
    && (ev.kind.EventDelete? <==> Deletes(op))
    && ev.value == if op.Offer? then Settled(cfg, data, op.w) else op.entry.value
  }

  /** Every event is that of an operation which won at that point of the history, and tells what it did. */
  lemma {:induction false} EventsTell<T>(cfg: Config<T>, data: Data<T>, ops: seq<Op<T>>, i: nat) returns (j: nat)
    requires i < |Installs(cfg, data, ops)|
    ensures j < |ops| && Wins(Run(cfg, data, ops[..j]), ops[j])
    ensures Tells(cfg, Run(cfg, data, ops[..j]), ops[j], EventsOf(Installs(cfg, data, ops))[i])
  {
    var before := ops[..|ops| - 1];
    if i < |Installs(cfg, data, before)| {
      j := EventsTell(cfg, data, before, i);
      assert before[..j] == ops[..j];
      assert Installs(cfg, data, ops)[i] == Installs(cfg, data, before)[i];
    } else {
      j := |before|;
    }
  }

  /** Stamps strictly increase along the installs of each key. */
  ghost predicate Increasing<T>(installs: seq<(GoString, Entry<T>)>) {
    forall i, j :: 0 <= i < j < |installs| && installs[i].0 == installs[j].0 ==>
      StampLess(installs[i].1.stamp, installs[j].1.stamp)
  }

  /** The map holds, for every installed pair, the same or a higher stamp. */
  ghost predicate Below<T>(installs: seq<(GoString, Entry<T>)>, data: Data<T>) {
    forall i :: 0 <= i < |installs| ==>
      installs[i].0 in data && StampLeq(installs[i].1.stamp, data[installs[i].0].stamp)
  }

  lemma {:induction false} InstallsIncrease<T>(cfg: Config<T>, data: Data<T>, ops: seq<Op<T>>)
    requires forall i :: 0 <= i < |ops| ==> !ops[i].Gc?
    ensures Increasing(Installs(cfg, data, ops)) && Below(Installs(cfg, data, ops), Run(cfg, data, ops))
    ensures Dominated(data, Run(cfg, data, ops))
  {
    StampLaws();
    if ops != [] {
      var before := ops[..|ops| - 1];
      InstallsIncrease(cfg, data, before);
      var installs := Installs(cfg, data, before);
      if !Wins(Run(cfg, data, before), ops[|ops| - 1]) {
        assert Installs(cfg, data, ops) == installs;
      } else {
        var installs' := Installs(cfg, data, ops);
        assert forall i :: 0 <= i < |installs| ==> installs'[i] == installs[i];
      }
    }
  }
}
