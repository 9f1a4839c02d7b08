/**
 Tombstone collection is invisible: a replica that drops expired tombstones at arbitrary points shows
 its readers and watchers exactly what a replica that keeps them all shows, as long as what arrives
 after a pass is not older than the pass's cutoff.
 */
module Collection {
  import opened Order
  import opened Replica
  import opened History

  /** Everything applied after a pass is at least as recent as that pass's cutoff. */
  ghost predicate Fresh<T>(ops: seq<Op<T>>) {
    forall i, j :: 0 <= i < j < |ops| && ops[i].Gc? && !ops[j].Gc? ==> OpStamp(ops[j]).timestamp >= ops[i].cutoff
  }

  /** The same history with every collection pass left out. */
  function WithoutGc<T>(ops: seq<Op<T>>): (rest: seq<Op<T>>)
    ensures forall i :: 0 <= i < |rest| ==> !rest[i].Gc?
  {
    if ops == [] then []
    else WithoutGc(ops[..|ops| - 1]) + if ops[|ops| - 1].Gc? then [] else [ops[|ops| - 1]]
  }

  /** Some pass of the history would collect a tombstone with this timestamp. */
  ghost predicate Swept<T>(ops: seq<Op<T>>, timestamp: int) {
    exists i :: 0 <= i < |ops| && ops[i].Gc? && timestamp < ops[i].cutoff
  }

  /** `lean` is `full` with some swept tombstones missing. */
  ghost predicate Lean<T>(full: Data<T>, lean: Data<T>, ops: seq<Op<T>>) {
    && (forall k :: k in lean ==> k in full && lean[k] == full[k])
    && (forall k :: k in full && k !in lean ==> full[k].tombstone && Swept(ops, full[k].stamp.timestamp))
  }

  lemma LeanStep<T>(cfg: Config<T>, full: Data<T>, lean: Data<T>, before: seq<Op<T>>, op: Op<T>)
    requires Lean(full, lean, before) && Fresh(before + [op])
    ensures op.Gc? ==> Lean(full, DoOp(cfg, lean, op), before + [op])
    ensures !op.Gc? ==>
              && Lean(DoOp(cfg, full, op), DoOp(cfg, lean, op), before + [op])
              && (Wins(full, op) <==> Wins(lean, op))
              && OpEntry(cfg, full, op) == OpEntry(cfg, lean, op)
  {
    var ops := before + [op];
    assert ops[|before|] == op;
    forall t | Swept(before, t) ensures Swept(ops, t) && (!op.Gc? ==> t < OpStamp(op).timestamp) {
      var i :| 0 <= i < |before| && before[i].Gc? && t < before[i].cutoff;
      assert ops[i] == before[i];
    }
  }

  lemma {:induction false} LeanRuns<T>(cfg: Config<T>, data: Data<T>, ops: seq<Op<T>>)
    requires Fresh(ops)
    ensures Lean(Run(cfg, data, WithoutGc(ops)), Run(cfg, data, ops), ops)
    ensures Installs(cfg, data, WithoutGc(ops)) == Installs(cfg, data, ops)
  {
    if ops != [] {
      var before, op := ops[..|ops| - 1], ops[|ops| - 1];
      assert ops == before + [op];
      LeanRuns(cfg, data, before);
      LeanStep(cfg, Run(cfg, data, WithoutGc(before)), Run(cfg, data, before), before, op);
      RunSnoc(cfg, data, before, op);
      if op.Gc? {
        assert WithoutGc(ops) == WithoutGc(before);
      } else {
        RunSnoc(cfg, data, WithoutGc(before), op);
      }
    }
  }

  /**
   Main theorem: a fresh history gives the same Get, Keys, Snapshot and Version results, and the same stream of
   watch events, with its collection passes as without them.
   */
  lemma GcInvisible<T>(cfg: Config<T>, data: Data<T>, ops: seq<Op<T>>)
    requires Fresh(ops)
    ensures View(Run(cfg, data, ops)) == View(Run(cfg, data, WithoutGc(ops)))
    ensures Versions(Run(cfg, data, ops)) == Versions(Run(cfg, data, WithoutGc(ops)))
    ensures EventsOf(Installs(cfg, data, ops)) == EventsOf(Installs(cfg, data, WithoutGc(ops)))
    ensures Increasing(Installs(cfg, data, ops))
  {
    LeanRuns(cfg, data, ops);
    LeanShows(Run(cfg, data, WithoutGc(ops)), Run(cfg, data, ops), ops);
    InstallsIncrease(cfg, data, WithoutGc(ops));
  }

  lemma LeanShows<T>(full: Data<T>, lean: Data<T>, ops: seq<Op<T>>)
    requires Lean(full, lean, ops)
    ensures View(lean) == View(full) && Versions(lean) == Versions(full)
  {
  }

  /**
   Exactly when a collected tombstone shows: a live write to its key is seen the same way with and without the
   pass if and only if it is newer than the tombstone.
   */
  lemma CollectedTombstoneShows<T>(cfg: Config<T>, data: Data<T>, cutoff: int, w: Write<T>)
    requires w.key in data && Expired(data[w.key], cutoff) && !w.kind.KindDelete?
    ensures View(Apply(cfg, Collect(data, cutoff), w)) == View(Apply(cfg, data, w))
            <==> StampLess(data[w.key].stamp, w.stamp)
  {
    var lean := Collect(data, cutoff);
    assert w.key in View(Apply(cfg, lean, w));
    if StampLess(data[w.key].stamp, w.stamp) {
      assert View(Apply(cfg, lean, w)) == View(Apply(cfg, data, w));
    } else {
      assert w.key !in View(Apply(cfg, data, w));
    }
  }

  /** The dropped tombstone would have removed a live entry. */
  predicate Misleads<T>(data: Data<T>, snap: Data<T>, cutoff: int, k: GoString) {
    k in snap && Expired(snap[k], cutoff) && k in View(data) && StampLess(data[k].stamp, snap[k].stamp)
  }

  /**
   Exactly when a snapshot without its expired tombstones misleads a refresh: the result reads as with them if and
   only if no live entry is older than a tombstone that was dropped from the snapshot.
   */
  lemma CollectedSnapshotShows<T>(data: Data<T>, snap: Data<T>, cutoff: int)
    ensures View(Merge(data, Collect(snap, cutoff))) == View(Merge(data, snap)) <==>
            forall k :: !Misleads(data, snap, cutoff, k)
  {
    var lean, full := View(Merge(data, Collect(snap, cutoff))), View(Merge(data, snap));
    forall k ensures (k in lean <==> k in full) && (k in lean ==> lean[k] == full[k]) <==>
        !Misleads(data, snap, cutoff, k) {
      SnapshotKey(data, snap, cutoff, k);
    }
    if forall k {:trigger Misleads(data, snap, cutoff, k)} :: !Misleads(data, snap, cutoff, k) {
      assert forall k :: (k in lean <==> k in full) && (k in lean ==> lean[k] == full[k]);
    }
  }

  lemma SnapshotKey<T>(data: Data<T>, snap: Data<T>, cutoff: int, k: GoString)
    ensures var lean, full := View(Merge(data, Collect(snap, cutoff))), View(Merge(data, snap));
            ((k in lean <==> k in full) && (k in lean ==> lean[k] == full[k])) <==> !Misleads(data, snap, cutoff, k)
  {
  }

  /** Freshness is needed: a late write older than a collected tombstone resurrects its key. */
  lemma StaleWriteResurrects()
    ensures var cfg := Config(Codec((v: int) => None, b => None), None, 0);
            var k: GoString := [107];
            var data: Data<int> := map[k := Entry(0, Stamp(10, [97], 1), true)];
            var late := Offer(Write(k, KindSet, 7, Stamp(5, [98], 1)));
            && k in View(Run(cfg, data, [Gc(20), late]))
            && k !in View(Run(cfg, data, WithoutGc([Gc(20), late])))
  {
    var cfg := Config(Codec((v: int) => None, b => None), None, 0);
    var k: GoString := [107];
    var data: Data<int> := map[k := Entry(0, Stamp(10, [97], 1), true)];
    var late := Offer(Write(k, KindSet, 7, Stamp(5, [98], 1)));
    var gc: Op<int> := Gc(20);
    var none: seq<Op<int>> := [];
    RunSnoc(cfg, data, none, gc);
    RunSnoc(cfg, data, [gc], late);
    RunSnoc(cfg, data, none, late);
    assert none + [gc] == [gc] && [gc] + [late] == [gc, late] && none + [late] == [late];
    var both := [gc, late];
    assert both[..|both| - 1] == [gc];
    assert WithoutGc([gc]) == none;
    assert WithoutGc(both) == WithoutGc([gc]) + [late] == [late];
  }
}
