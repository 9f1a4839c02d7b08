/**
 What the replicas of a cluster show. A replica that collects tombstones may bring a deleted key back to life;
 these theorems say exactly when none does, and that replicas which know the same writes then show the same.
 */
module Convergence {
  import opened Order
  import opened Replica
  import opened Cluster
  import Collection

  // ---------------------------------------------------------------- what a replica ought to show

  /** No other write on its key is newer. */
  ghost predicate Leads<T>(ws: set<Write<T>>, w: Write<T>) {
    w in ws && forall x :: x in ws && x.key == w.key ==> StampLeq(x.stamp, w.stamp)
  }

  /**
   The live keys and their stamps are those of the newest writes that are no Deletes; no order and no replica is
   involved.
   */
  ghost predicate ShowsNewest<T(!new)>(versions: map<GoString, Stamp>, ws: set<Write<T>>) {
    && (forall w {:trigger Leads(ws, w)} :: Leads(ws, w) && !w.kind.KindDelete? ==>
        w.key in versions && versions[w.key] == w.stamp)
    && (forall k :: k in versions ==> LedBy(ws, k, versions[k]))
  }

  ghost predicate LedBy<T(!new)>(ws: set<Write<T>>, k: GoString, stamp: Stamp) {
    exists w :: Leads(ws, w) && !w.kind.KindDelete? && w.key == k && w.stamp == stamp
  }

  /** A collected Delete is newer than the entry. */
  ghost predicate Beaten<T(!new)>(past: Past<T>, k: GoString, stamp: Stamp) {
    exists d :: d in past.buried && d.key == k && StampLess(stamp, d.stamp)
  }

  /** No live entry is older than a Delete collected on its key: nothing has come back to life. */
  ghost predicate Clean<T(!new)>(data: Data<T>, past: Past<T>) {
    forall k {:trigger Beaten(past, k, data[k].stamp)} :: k in data && !data[k].tombstone ==>
        !Beaten(past, k, data[k].stamp)
  }

  ghost predicate CleanNode<T(!new)>(s: Cluster<T>, n: GoString)
    requires n in s.nodes
  {
    Clean(s.nodes[n].data, s.nodes[n].past)
  }

  /** The accepted writes a replica knows. */
  ghost function Heard<T>(s: Cluster<T>, n: GoString): set<Write<T>>
    requires n in s.nodes
  {
    s.nodes[n].past.known * s.accepted
  }

  /** A collected Delete is a known, accepted Delete. */
  lemma BuriedIsHeard<T(!new)>(cfg: Config<T>, s: Cluster<T>, n: GoString, d: Write<T>)
    requires Inv(cfg, s) && n in s.nodes && d in s.nodes[n].past.buried
    ensures d in Heard(s, n) && d.kind.KindDelete? && d in s.writes
  {
    assert Dug(s.nodes[n].past, s.accepted, d);
  }

  /** The newest known write is shown unless it is a Delete, collected or not. */
  lemma NewestIsShown<T(!new)>(cfg: Config<T>, s: Cluster<T>, n: GoString, w: Write<T>)
    requires Inv(cfg, s) && n in s.nodes && Leads(Heard(s, n), w) && !w.kind.KindDelete?
    ensures w.key in Versions(s.nodes[n].data) && Versions(s.nodes[n].data)[w.key] == w.stamp
  {
    var node := s.nodes[n];
    assert Accounted(node.data, node.past, w);
    StampLaws();
    if Covered(node.data, w) {
      var root := RootOf(cfg, s, n, w.key);
      assert SameIdentity(root, w);
    } else {
      var d :| d in node.past.buried && d.key == w.key && StampLeq(w.stamp, d.stamp);
      BuriedIsHeard(cfg, s, n, d);
      assert SameIdentity(d, w);
      assert false;
    }
  }

  /** An entry no collected Delete beats is the newest known write. */
  lemma ShownIsNewest<T(!new)>(cfg: Config<T>, s: Cluster<T>, n: GoString, k: GoString)
    requires Inv(cfg, s) && n in s.nodes && k in Versions(s.nodes[n].data)
             && !Beaten(s.nodes[n].past, k, s.nodes[n].data[k].stamp)
    ensures LedBy(Heard(s, n), k, Versions(s.nodes[n].data)[k])
  {
    var node := s.nodes[n];
    var root := RootOf(cfg, s, n, k);
    forall x | x in Heard(s, n) && x.key == k ensures StampLeq(x.stamp, root.stamp) {
      assert Accounted(node.data, node.past, x);
      if !Covered(node.data, x) {
        var d :| d in node.past.buried && d.key == k && StampLeq(x.stamp, d.stamp);
        StampLaws();
      }
    }
    assert Leads(Heard(s, n), root);
  }

  lemma NewestIffClean<T(!new)>(cfg: Config<T>, s: Cluster<T>, n: GoString)
    requires Inv(cfg, s) && n in s.nodes
    ensures ShowsNewest(Versions(s.nodes[n].data), Heard(s, n)) <==> CleanNode(s, n)
  {
    var node := s.nodes[n];
    var versions := Versions(node.data);
    forall w | Leads(Heard(s, n), w) && !w.kind.KindDelete? ensures w.key in versions && versions[w.key] == w.stamp {
      NewestIsShown(cfg, s, n, w);
    }
    if CleanNode(s, n) {
      forall k | k in versions ensures LedBy(Heard(s, n), k, versions[k]) {
        ShownIsNewest(cfg, s, n, k);
      }
    } else {
      var k :| k in node.data && !node.data[k].tombstone && Beaten(node.past, k, node.data[k].stamp);
      var d :| d in node.past.buried && d.key == k && StampLess(node.data[k].stamp, d.stamp);
      BuriedIsHeard(cfg, s, n, d);
      StampLaws();
      assert !LedBy(Heard(s, n), k, versions[k]);
    }
  }

  /**
   In every run a replica shows the newest of the writes it knows if and only if nothing has come back to life in
   it.
   */
  lemma ShowsNewestIffClean<T(!new)>(cfg: Config<T>, steps: seq<Step<T>>, n: GoString)
    requires Lawful(cfg.codec) && n in After(cfg, steps).nodes
    ensures var s := After(cfg, steps); ShowsNewest(Versions(s.nodes[n].data), Heard(s, n)) <==> CleanNode(s, n)
  {
    RunsKeepInv(cfg, steps);
    NewestIffClean(cfg, After(cfg, steps), n);
  }

  lemma ShownOnce<T(!new)>(v: map<GoString, Stamp>, v': map<GoString, Stamp>, ws: set<Write<T>>)
    requires ShowsNewest(v, ws) && ShowsNewest(v', ws)
    ensures v == v'
  {
    forall k | k in v ensures k in v' && v'[k] == v[k] {
      assert LedBy(ws, k, v[k]);
    }
    forall k | k in v' ensures k in v {
      assert LedBy(ws, k, v'[k]);
    }
  }

  // ---------------------------------------------------------------- convergence

  /**
   Strong convergence, tombstone collection included. In every run, let two replicas have been offered the same
   accepted writes, in whatever order and however often. If nothing has come back to life in one, then they show
   the same live keys and versions exactly when nothing has come back to life in the other, and without a merger
   also the same values. Writes that lost at their author are never sent and need not be known.
   */
  lemma Convergence<T(!new)>(cfg: Config<T>, steps: seq<Step<T>>, a: GoString, b: GoString)
    requires Lawful(cfg.codec)
    requires var s := After(cfg, steps); a in s.nodes && b in s.nodes && Heard(s, a) == Heard(s, b)
    ensures var s := After(cfg, steps);
            var x, y := s.nodes[a].data, s.nodes[b].data;
            && (CleanNode(s, a) ==> (Versions(x) == Versions(y) <==> CleanNode(s, b)))
            && (CleanNode(s, a) && cfg.merger.None? ==>
                (View(x) == View(y) && Versions(x) == Versions(y) <==> CleanNode(s, b)))
  {
    RunsKeepInv(cfg, steps);
    var s := After(cfg, steps);
    var x, y := s.nodes[a].data, s.nodes[b].data;
    NewestIffClean(cfg, s, a);
    NewestIffClean(cfg, s, b);
    if CleanNode(s, a) && CleanNode(s, b) {
      ShownOnce(Versions(x), Versions(y), Heard(s, a));
      if cfg.merger.None? {
        ReplicasCoherent(cfg, steps, a, b);
        SameVersionsSameView(x, y);
      }
    }
  }

  lemma SameVersionsSameView<T>(x: Data<T>, y: Data<T>)
    requires Versions(x) == Versions(y) && Coherent(x, y)
    ensures View(x) == View(y)
  {
    forall k ensures (k in View(x) <==> k in View(y)) && (k in View(x) ==> View(x)[k] == View(y)[k]) {
      assert k in View(x) <==> k in Versions(x);
      assert k in View(y) <==> k in Versions(y);
      assert k in Versions(x) ==> Versions(x)[k] == Versions(y)[k];
    }
  }

  /** Stamps and deletion marks, the part of an entry no merger can touch. */
  function Skeleton<T>(data: Data<T>): map<GoString, (Stamp, bool)> {
    map k | k in data :: (data[k].stamp, data[k].tombstone)
  }

  lemma KnowingDominates<T(!new)>(cfg: Config<T>, s: Cluster<T>, a: GoString, b: GoString)
    requires Inv(cfg, s) && a in s.nodes && b in s.nodes && Heard(s, a) <= Heard(s, b) && s.nodes[b].past.buried == {}
    ensures Dominated(s.nodes[a].data, s.nodes[b].data)
  {
    var data := s.nodes[a].data;
    forall k | k in data ensures k in s.nodes[b].data && StampLeq(data[k].stamp, s.nodes[b].data[k].stamp) {
      var w := RootOf(cfg, s, a, k);
      assert w in Heard(s, a);
      assert Accounted(s.nodes[b].data, s.nodes[b].past, w);
    }
  }

  /**
   Where neither replica has collected anything, the maps agree entirely: the same keys, stamps and deletion marks
   whatever the merger does, and the same entries when there is no merger.
   */
  lemma FullConvergence<T(!new)>(cfg: Config<T>, steps: seq<Step<T>>, a: GoString, b: GoString)
    requires Lawful(cfg.codec)
    requires var s := After(cfg, steps);
             && a in s.nodes && b in s.nodes && Heard(s, a) == Heard(s, b)
             && s.nodes[a].past.buried == {} && s.nodes[b].past.buried == {}
    ensures var s := After(cfg, steps);
            && Skeleton(s.nodes[a].data) == Skeleton(s.nodes[b].data)
            && (cfg.merger.None? ==> s.nodes[a].data == s.nodes[b].data)
  {
    RunsKeepInv(cfg, steps);
    StampLaws();
    var s := After(cfg, steps);
    var x, y := s.nodes[a].data, s.nodes[b].data;
    KnowingDominates(cfg, s, a, b);
    KnowingDominates(cfg, s, b, a);
    forall k | k in x ensures x[k].stamp == y[k].stamp && x[k].tombstone == y[k].tombstone
        && (cfg.merger.None? ==> x[k] == y[k]) {
      var w := RootOf(cfg, s, a, k);
      var w' := RootOf(cfg, s, b, k);
      assert SameIdentity(w, w');
    }
  }

  // ---------------------------------------------------------------- when nothing comes back to life

  ghost predicate AllClean<T(!new)>(cfg: Config<T>, s: Cluster<T>) {
    && (forall n {:trigger CleanNode(s, n)} :: n in s.nodes ==> CleanNode(s, n))
    && (forall snap :: snap in s.snaps && Decodable(cfg, snap.wire) ==> Clean(DecodeEntries(cfg, snap.wire), snap.past))
  }

  /** The write is live, wins against the map, and is older than a Delete collected from it. */
  ghost predicate Revives<T(!new)>(data: Data<T>, past: Past<T>, w: Write<T>) {
    LwwAccept(data, w.key, w.stamp) && !w.kind.KindDelete? && Beaten(past, w.key, w.stamp)
  }

  /** Under `k`, the refresh adopts a live entry the replica has collected a newer Delete for. */
  ghost predicate AdoptsDead<T(!new)>(data: Data<T>, past: Past<T>, snap: Data<T>, k: GoString) {
    k in snap && !snap[k].tombstone && LwwAccept(data, k, snap[k].stamp) && Beaten(past, k, snap[k].stamp)
  }

  /** Under `k`, the replica keeps a live entry the snapshot's side has collected a newer Delete for. */
  ghost predicate KeepsDead<T(!new)>(data: Data<T>, snap: Data<T>, more: Past<T>, k: GoString) {
    k in data && !data[k].tombstone && !(k in snap && LwwAccept(data, k, snap[k].stamp))
        && Beaten(more, k, data[k].stamp)
  }

  ghost predicate RefreshIsCareful<T(!new)>(data: Data<T>, past: Past<T>, snap: Data<T>, more: Past<T>) {
    && (forall k {:trigger AdoptsDead(data, past, snap, k)} :: !AdoptsDead(data, past, snap, k))
    && (forall k {:trigger KeepsDead(data, snap, more, k)} :: !KeepsDead(data, snap, more, k))
  }

  ghost predicate Careful<T(!new)>(cfg: Config<T>, s: Cluster<T>, step: Step<T>)
    requires Enabled(cfg, s, step)
  {
    match step
    case ApplyDrawn(n, w) => !Revives(s.nodes[n].data, s.nodes[n].past, w)
    case Deliver(n, m) =>
      m.stamp.origin != n && Decode(cfg, m).Some? ==> !Revives(s.nodes[n].data, s.nodes[n].past, Decode(cfg, m).value)
    case Refresh(n, snap) => RefreshIsCareful(s.nodes[n].data, s.nodes[n].past, DecodeEntries(cfg, snap.wire),
                                              snap.past)
    case _ => true
  }

  /** Offering a write to a clean map leaves it clean exactly when the write revives nothing. */
  lemma ApplyClean<T(!new)>(cfg: Config<T>, data: Data<T>, past: Past<T>, w: Write<T>)
    requires Clean(data, past)
    ensures Clean(Apply(cfg, data, w), Learn(past, {w})) <==> !Revives(data, past, w)
  {
    var data', past' := Apply(cfg, data, w), Learn(past, {w});
    assert forall k, t {:trigger Beaten(past', k, t)} :: Beaten(past', k, t) <==> Beaten(past, k, t);
    if !Revives(data, past, w) {
      forall k | k in data' && !data'[k].tombstone ensures !Beaten(past', k, data'[k].stamp) {
        if !(k == w.key && LwwAccept(data, k, w.stamp)) {
          assert !Beaten(past, k, data[k].stamp);
        }
      }
    } else {
      assert data'[w.key].stamp == w.stamp && Beaten(past', w.key, data'[w.key].stamp);
    }
  }

  lemma BeatenByEither<T(!new)>(past: Past<T>, more: Past<T>, k: GoString, stamp: Stamp)
    ensures Beaten(Union(past, more), k, stamp) <==> Beaten(past, k, stamp) || Beaten(more, k, stamp)
  {
    if Beaten(past, k, stamp) {
      var d :| d in past.buried && d.key == k && StampLess(stamp, d.stamp);
      assert d in Union(past, more).buried;
    } else if Beaten(more, k, stamp) {
      var d :| d in more.buried && d.key == k && StampLess(stamp, d.stamp);
      assert d in Union(past, more).buried;
    }
  }

  /**
   Merging a clean snapshot into a clean map leaves it clean exactly when neither side loses a Delete to the
   other's collection.
   */
  lemma MergeClean<T(!new)>(data: Data<T>, past: Past<T>, snap: Data<T>, more: Past<T>)
    requires Clean(data, past) && Clean(snap, more)
    ensures Clean(Merge(data, snap), Union(past, more)) <==> RefreshIsCareful(data, past, snap, more)
  {
    var merged, all := Merge(data, snap), Union(past, more);
    forall k | k in merged && !merged[k].tombstone
      ensures Beaten(all, k, merged[k].stamp) <==> AdoptsDead(data, past, snap, k) || KeepsDead(data, snap, more, k)
    {
      BeatenByEither(past, more, k, merged[k].stamp);
      assert k in data && !data[k].tombstone ==> !Beaten(past, k, data[k].stamp);
      assert k in snap && !snap[k].tombstone ==> !Beaten(more, k, snap[k].stamp);
    }
    if Clean(merged, all) {
      forall k ensures !AdoptsDead(data, past, snap, k) && !KeepsDead(data, snap, more, k) {
        assert k in merged && !merged[k].tombstone ==> !Beaten(all, k, merged[k].stamp);
      }
    }
  }

  /** Collecting from a clean map leaves it clean: the Delete that goes was the entry. */
  lemma SweepClean<T(!new)>(node: Node<T>, accepted: set<Write<T>>, cutoff: int, reached: set<GoString>)
    requires Clean(node.data, node.past)
    ensures Clean(Sweep(node, accepted, cutoff, reached).data, Sweep(node, accepted, cutoff, reached).past)
  {
    var node' := Sweep(node, accepted, cutoff, reached);
    forall k | k in node'.data && !node'.data[k].tombstone ensures !Beaten(node'.past, k, node'.data[k].stamp) {
      assert !Beaten(node.past, k, node.data[k].stamp);
      assert forall d :: d in Graves(node, accepted, cutoff, reached) ==> d.key != k;
    }
  }

  /** Only the node a step is about can become unclean. */
  lemma OneNodeClean<T(!new)>(cfg: Config<T>, s: Cluster<T>, s': Cluster<T>, n: GoString)
    requires AllClean(cfg, s) && n in s'.nodes && s'.nodes == s.nodes[n := s'.nodes[n]] && s'.snaps == s.snaps
    ensures AllClean(cfg, s') <==> CleanNode(s', n)
  {
    forall m | m in s'.nodes && m != n ensures CleanNode(s', m) {
      assert CleanNode(s, m);
    }
  }

  lemma PersistClean<T(!new)>(cfg: Config<T>, s: Cluster<T>, n: GoString, cutoff: int)
    requires Lawful(cfg.codec) && Inv(cfg, s) && AllClean(cfg, s) && Enabled(cfg, s, Persist(n, cutoff))
    ensures AllClean(cfg, Fire(cfg, s, Persist(n, cutoff)))
  {
    var s' := Fire(cfg, s, Persist(n, cutoff));
    var node := SweepAll(s.nodes[n], s.accepted, cutoff);
    assert CleanNode(s, n);
    SweepClean(s.nodes[n], s.accepted, cutoff, s.nodes[n].data.Keys);
    ReflectsSweep(cfg, s.nodes[n], s.accepted, cutoff, s.nodes[n].data.Keys);
    SnapshotReads(cfg, node.data);
    forall m | m in s'.nodes ensures CleanNode(s', m) {
      assert m != n ==> CleanNode(s, m);
    }
  }

  /**
   From a state in which nothing has come back to life, a step brings something back exactly when it is not
   careful.
   */
  lemma StepCleanIffCareful<T(!new)>(cfg: Config<T>, s: Cluster<T>, step: Step<T>)
    requires Lawful(cfg.codec) && Inv(cfg, s) && AllClean(cfg, s) && Enabled(cfg, s, step)
    ensures AllClean(cfg, Fire(cfg, s, step)) <==> Careful(cfg, s, step)
  {
    var s' := Fire(cfg, s, step);
    match step
    case Publish(_) =>
      forall n | n in s'.nodes ensures CleanNode(s', n) {
        assert CleanNode(s, n);
      }
    case Persist(n, cutoff) => PersistClean(cfg, s, n, cutoff);
    case Boot(n, from) => OneNodeClean(cfg, s, s', n);
    case _ =>
      var n := step.n;
      assert CleanNode(s, n);
      OneNodeClean(cfg, s, s', n);
      ChangedClean(cfg, s, step);
  }

  lemma ChangedClean<T(!new)>(cfg: Config<T>, s: Cluster<T>, step: Step<T>)
    requires Lawful(cfg.codec) && Inv(cfg, s) && AllClean(cfg, s) && Enabled(cfg, s, step)
    requires step.Draw? || step.ApplyDrawn? || step.Deliver? || step.CollectSome? || step.Refresh?
    requires CleanNode(s, step.n)
    ensures CleanNode(Fire(cfg, s, step), step.n) <==> Careful(cfg, s, step)
  {
    var node := s.nodes[step.n];
    match step
    case Draw(_, _, _, _, _) =>
    case ApplyDrawn(n, w) => ApplyClean(cfg, node.data, node.past, w);
    case Deliver(n, m) =>
      var w := SentIsAccepted(cfg, s, m);
      if m.stamp.origin == n {
        assert node.past.known + {w} == node.past.known;
      } else {
        ApplyClean(cfg, node.data, node.past, w);
      }
    case CollectSome(n, cutoff, reached) => SweepClean(node, s.accepted, cutoff, reached);
    case Refresh(n, snap) => MergeClean(node.data, node.past, DecodeEntries(cfg, snap.wire), snap.past);
  }

  /** Every step of the run that was enabled was careful. */
  ghost predicate CarefulRun<T(!new)>(cfg: Config<T>, steps: seq<Step<T>>) {
    steps != [] ==>
      var s, step := After(cfg, steps[..|steps| - 1]), steps[|steps| - 1];
      CarefulRun(cfg, steps[..|steps| - 1]) && (Enabled(cfg, s, step) ==> Careful(cfg, s, step))
  }

  /** At no point of the run had anything come back to life anywhere. */
  ghost predicate AlwaysClean<T(!new)>(cfg: Config<T>, steps: seq<Step<T>>) {
    AllClean(cfg, After(cfg, steps)) && (steps != [] ==> AlwaysClean(cfg, steps[..|steps| - 1]))
  }

  /** A run never brings a deleted key back to life if and only if each of its steps is careful. */
  lemma {:induction false} CleanIffCareful<T(!new)>(cfg: Config<T>, steps: seq<Step<T>>)
    requires Lawful(cfg.codec)
    ensures AlwaysClean(cfg, steps) <==> CarefulRun(cfg, steps)
  {
    if steps != [] {
      var init, step := steps[..|steps| - 1], steps[|steps| - 1];
      CleanIffCareful(cfg, init);
      RunsKeepInv(cfg, init);
      if AlwaysClean(cfg, init) && Enabled(cfg, After(cfg, init), step) {
        StepCleanIffCareful(cfg, After(cfg, init), step);
      }
    }
  }

  // ---------------------------------------------------------------- a sufficient discipline

  /** Not older than any cutoff the map was collected with. */
  ghost predicate Fresh<T>(past: Past<T>, timestamp: int) {
    forall c :: c in past.cutoffs ==> c <= timestamp
  }

  /**
   No replica accepts a write older than a cutoff it has collected with, and a replica that refreshes already
   knows every Delete collected on the snapshot's side.
   */
  ghost predicate Timely<T(!new)>(cfg: Config<T>, s: Cluster<T>, step: Step<T>)
    requires Enabled(cfg, s, step)
  {
    match step
    case ApplyDrawn(n, w) => LwwAccept(s.nodes[n].data, w.key, w.stamp) ==> Fresh(s.nodes[n].past, w.stamp.timestamp)
    case Deliver(n, m) =>
      m.stamp.origin != n && LwwAccept(s.nodes[n].data, m.key, m.stamp) ==> Fresh(s.nodes[n].past, m.stamp.timestamp)
    case Refresh(n, snap) =>
      && snap.past.buried <= s.nodes[n].past.known
      && forall k :: k in snap.wire && LwwAccept(s.nodes[n].data, k, snap.wire[k].stamp) ==>
         Fresh(s.nodes[n].past, snap.wire[k].stamp.timestamp)
    case _ => true
  }

  lemma FreshUnbeaten<T(!new)>(cfg: Config<T>, data: Data<T>, past: Past<T>, accepted: set<Write<T>>, k: GoString,
                               stamp: Stamp)
    requires Reflects(cfg, data, past, accepted) && Fresh(past, stamp.timestamp)
    ensures !Beaten(past, k, stamp)
  {
    forall d | d in past.buried ensures !StampLess(stamp, d.stamp) {
      assert Dug(past, accepted, d);
    }
  }

  /** A Delete the replica knows does not beat its live entries, wherever it was collected. */
  lemma KnownUnbeaten<T(!new)>(cfg: Config<T>, data: Data<T>, past: Past<T>, accepted: set<Write<T>>, more: Past<T>,
                               k: GoString)
    requires Reflects(cfg, data, past, accepted) && Clean(data, past) && more.buried <= past.known
    requires k in data && !data[k].tombstone
    ensures !Beaten(more, k, data[k].stamp)
  {
    assert !Beaten(past, k, data[k].stamp);
    forall d | d in more.buried && d.key == k ensures !StampLess(data[k].stamp, d.stamp) {
      assert Accounted(data, past, d);
      StampLaws();
    }
  }

  lemma TimelyIsCareful<T(!new)>(cfg: Config<T>, s: Cluster<T>, step: Step<T>)
    requires Lawful(cfg.codec) && Inv(cfg, s) && AllClean(cfg, s) && Enabled(cfg, s, step) && Timely(cfg, s, step)
    ensures Careful(cfg, s, step)
  {
    match step
    case ApplyDrawn(n, w) =>
      if Fresh(s.nodes[n].past, w.stamp.timestamp) {
        FreshUnbeaten(cfg, s.nodes[n].data, s.nodes[n].past, s.accepted, w.key, w.stamp);
      }
    case Deliver(n, m) =>
      if Fresh(s.nodes[n].past, m.stamp.timestamp) {
        FreshUnbeaten(cfg, s.nodes[n].data, s.nodes[n].past, s.accepted, m.key, m.stamp);
      }
    case Refresh(n, snap) =>
      var node, read := s.nodes[n], DecodeEntries(cfg, snap.wire);
      assert CleanNode(s, n);
      forall k ensures !AdoptsDead(node.data, node.past, read, k) && !KeepsDead(node.data, read, snap.past, k) {
        if k in read && LwwAccept(node.data, k, read[k].stamp) {
          assert read[k].stamp == snap.wire[k].stamp;
          FreshUnbeaten(cfg, node.data, node.past, s.accepted, k, read[k].stamp);
        }
        if k in node.data && !node.data[k].tombstone {
          KnownUnbeaten(cfg, node.data, node.past, s.accepted, snap.past, k);
        }
      }
    case _ =>
  }

  ghost predicate TimelyRun<T(!new)>(cfg: Config<T>, steps: seq<Step<T>>) {
    steps != [] ==>
      var s, step := After(cfg, steps[..|steps| - 1]), steps[|steps| - 1];
      TimelyRun(cfg, steps[..|steps| - 1]) && (Enabled(cfg, s, step) ==> Timely(cfg, s, step))
  }

  lemma {:induction false} TimelyRunsClean<T(!new)>(cfg: Config<T>, steps: seq<Step<T>>)
    requires Lawful(cfg.codec) && TimelyRun(cfg, steps)
    ensures AlwaysClean(cfg, steps)
  {
    if steps != [] {
      var init, step := steps[..|steps| - 1], steps[|steps| - 1];
      TimelyRunsClean(cfg, init);
      RunsKeepInv(cfg, init);
      if Enabled(cfg, After(cfg, init), step) {
        TimelyIsCareful(cfg, After(cfg, init), step);
        StepCleanIffCareful(cfg, After(cfg, init), step);
      }
    }
  }

  /** With collection at arbitrary times, replicas of a timely run that know the same accepted writes show the same. */
  lemma TimelyConvergence<T(!new)>(cfg: Config<T>, steps: seq<Step<T>>, a: GoString, b: GoString)
    requires Lawful(cfg.codec) && TimelyRun(cfg, steps)
    requires var s := After(cfg, steps); a in s.nodes && b in s.nodes && Heard(s, a) == Heard(s, b)
    ensures var s := After(cfg, steps);
            && Versions(s.nodes[a].data) == Versions(s.nodes[b].data)
            && (cfg.merger.None? ==> View(s.nodes[a].data) == View(s.nodes[b].data))
  {
    TimelyRunsClean(cfg, steps);
    assert CleanNode(After(cfg, steps), a) && CleanNode(After(cfg, steps), b);
    Convergence(cfg, steps, a, b);
  }

  /** Replicas of a timely run that have been offered every accepted write agree, whatever else each has seen. */
  lemma QuiescentConvergence<T(!new)>(cfg: Config<T>, steps: seq<Step<T>>, a: GoString, b: GoString)
    requires Lawful(cfg.codec) && TimelyRun(cfg, steps)
    requires var s := After(cfg, steps);
             && a in s.nodes && s.accepted <= s.nodes[a].past.known
             && b in s.nodes && s.accepted <= s.nodes[b].past.known
    ensures var s := After(cfg, steps);
            && Versions(s.nodes[a].data) == Versions(s.nodes[b].data)
            && (cfg.merger.None? ==> View(s.nodes[a].data) == View(s.nodes[b].data))
  {
    var s := After(cfg, steps);
    assert Heard(s, a) == s.accepted && Heard(s, b) == s.accepted;
    TimelyConvergence(cfg, steps, a, b);
  }

  // ---------------------------------------------------------------- what a snapshot holds

  /** A known accepted write on the key is at least as new. */
  ghost predicate HeardOf<T(!new)>(known: set<Write<T>>, accepted: set<Write<T>>, w: Write<T>) {
    exists x :: x in known && x in accepted && x.key == w.key && StampLeq(w.stamp, x.stamp)
  }

  lemma AccountedIffHeard<T(!new)>(cfg: Config<T>, data: Data<T>, past: Past<T>, accepted: set<Write<T>>, w: Write<T>)
    requires Reflects(cfg, data, past, accepted)
    ensures Accounted(data, past, w) <==> HeardOf(past.known, accepted, w)
  {
    if Covered(data, w) {
      assert Rooted(cfg, data, past.known, accepted, w.key);
    } else if Outlived(past, w) {
      var d :| d in past.buried && d.key == w.key && StampLeq(w.stamp, d.stamp);
      assert Dug(past, accepted, d);
    }
    if HeardOf(past.known, accepted, w) {
      var x :| x in past.known && x in accepted && x.key == w.key && StampLeq(w.stamp, x.stamp);
      assert Accounted(data, past, x);
      StampLaws();
    }
  }

  /**
   Whether a write survives a peer's snapshot. In every run, a persisted snapshot covers a write, by an entry or
   by a Delete collected from it, if and only if its author had heard of an accepted write on the key that is at
   least as new: so a peer that has not heard of a store's writes takes them off a shared topic.
   */
  lemma SnapshotHoldsHeard<T(!new)>(cfg: Config<T>, steps: seq<Step<T>>, snap: Snap<T>, w: Write<T>)
    requires Lawful(cfg.codec) && snap in After(cfg, steps).snaps
    ensures Decodable(cfg, snap.wire)
    ensures Accounted(DecodeEntries(cfg, snap.wire), snap.past, w) <==>
            HeardOf(snap.past.known, After(cfg, steps).accepted, w)
  {
    RunsKeepInv(cfg, steps);
    AccountedIffHeard(cfg, DecodeEntries(cfg, snap.wire), snap.past, After(cfg, steps).accepted, w);
  }

  // ---------------------------------------------------------------- one refresh

  /**
   Refresh repairs loss. A replica that merges the snapshot a peer has just persisted knows every write either of
   them knew, whichever messages were lost on the way. Its map is the merge with what the peer kept, and it shows
   the merge with all the peer had if and only if it holds no live entry older than a tombstone the peer dropped.
   */
  lemma RefreshRepairs<T(!new)>(cfg: Config<T>, steps: seq<Step<T>>, a: GoString, peer: GoString, cutoff: int)
    requires Lawful(cfg.codec)
    requires var s := After(cfg, steps);
             a in s.nodes && peer in s.nodes && a != peer && Encodable(cfg, Collect(s.nodes[peer].data, cutoff))
    ensures var s := After(cfg, steps);
            var mine, theirs := s.nodes[a].data, s.nodes[peer].data;
            var snap := SnapOf(cfg, SweepAll(s.nodes[peer], s.accepted, cutoff));
            var s' := After(cfg, steps + [Persist(peer, cutoff), Refresh(a, snap)]);
            && a in s'.nodes
            && s'.nodes[a].past.known == s.nodes[a].past.known + s.nodes[peer].past.known
            && s'.nodes[a].data == Merge(mine, Collect(theirs, cutoff))
            && (View(s'.nodes[a].data) == View(Merge(mine, theirs)) <==>
                forall k :: !Collection.Misleads(mine, theirs, cutoff, k))
  {
    RunsKeepInv(cfg, steps);
    var s := After(cfg, steps);
    var snap := SnapOf(cfg, SweepAll(s.nodes[peer], s.accepted, cutoff));
    PersistRefresh(cfg, s, a, peer, cutoff);
    var one, mid := Grow(cfg, steps, s, Persist(peer, cutoff));
    var two, end := Grow(cfg, one, mid, Refresh(a, snap));
    assert two == steps + [Persist(peer, cutoff), Refresh(a, snap)];
    Collection.CollectedSnapshotShows(s.nodes[a].data, s.nodes[peer].data, cutoff);
  }

  /** A peer persists, then the replica refreshes from it. */
  lemma PersistRefresh<T(!new)>(cfg: Config<T>, s: Cluster<T>, a: GoString, peer: GoString, cutoff: int)
    requires Lawful(cfg.codec) && Inv(cfg, s) && a in s.nodes && peer in s.nodes && a != peer
    requires Encodable(cfg, Collect(s.nodes[peer].data, cutoff))
    ensures var snap := SnapOf(cfg, SweepAll(s.nodes[peer], s.accepted, cutoff));
            var mid := Fire(cfg, s, Persist(peer, cutoff));
            && Enabled(cfg, mid, Refresh(a, snap))
            && var node := Fire(cfg, mid, Refresh(a, snap)).nodes[a];
               && node.past.known == s.nodes[a].past.known + s.nodes[peer].past.known
               && node.data == Merge(s.nodes[a].data, Collect(s.nodes[peer].data, cutoff))
  {
    var node := SweepAll(s.nodes[peer], s.accepted, cutoff);
    ReflectsSweep(cfg, s.nodes[peer], s.accepted, cutoff, s.nodes[peer].data.Keys);
    SnapshotReads(cfg, node.data);
    assert Fire(cfg, s, Persist(peer, cutoff)).nodes[a] == s.nodes[a];
  }

  /**
   A local write that loses changes nothing a reader or peer sees: the map is as it was, and it cannot be
   published.
   */
  lemma LoserStaysHome<T(!new)>(cfg: Config<T>, s: Cluster<T>, n: GoString, w: Write<T>)
    requires Enabled(cfg, s, ApplyDrawn(n, w)) && w !in s.accepted
    ensures var s', wins := Fire(cfg, s, ApplyDrawn(n, w)), LwwAccept(s.nodes[n].data, w.key, w.stamp);
            && (s'.nodes[n].data != s.nodes[n].data <==> wins)
            && (Enabled(cfg, s', Publish(w)) <==> wins && Encode(cfg, w).Some?)
  {
    StampTrichotomy(w.stamp, w.stamp);
  }

  /** A tick at a node collects what Collect says, changes nothing a reader sees, and touches no other node. */
  lemma TickCollects<T(!new)>(cfg: Config<T>, s: Cluster<T>, n: GoString, cutoff: int)
    requires n in s.nodes
    ensures var s' := Fire(cfg, s, CollectSome(n, cutoff, s.nodes[n].data.Keys));
            && s'.nodes[n].data == Collect(s.nodes[n].data, cutoff) && s'.nodes[n].counter == s.nodes[n].counter
            && View(s'.nodes[n].data) == View(s.nodes[n].data)
               && Versions(s'.nodes[n].data) == Versions(s.nodes[n].data)
            && (forall m :: m in s.nodes && m != n ==> s'.nodes[m] == s.nodes[m])
            && (s'.accepted, s'.sent, s'.snaps) == (s.accepted, s.sent, s.snaps)
  {
  }

  // ---------------------------------------------------------------- a run that does not converge

  lemma Grow<T>(cfg: Config<T>, steps: seq<Step<T>>, s: Cluster<T>, step: Step<T>)
    returns (steps': seq<Step<T>>, s': Cluster<T>)
    requires s == After(cfg, steps) && Enabled(cfg, s, step)
    ensures steps' == steps + [step] && s' == After(cfg, steps') == Fire(cfg, s, step)
  {
    steps' := steps + [step];
    assert steps'[..|steps|] == steps;
    s' := Fire(cfg, s, step);
  }

  const A: GoString := [97]
  const B: GoString := [98]
  const K: GoString := [107]
  const SET := Write(K, KindSet, 7 as Byte, Stamp(1, A, 1))
  const DEL := Write(K, KindDelete, 0 as Byte, Stamp(2, A, 2))
  const LIVE: Data<Byte> := map[K := Entry(7, SET.stamp, false)]
  const DEAD: Data<Byte> := map[K := Entry(0, DEL.stamp, true)]
  const NOTHING: Past<Byte> := Past({}, {}, {})

  /** Replica A has written and published the key. */
  lemma FirstSet() returns (steps: seq<Step<Byte>>)
    ensures After(ByteConfig(), steps) ==
            Cluster(map[A := Node(LIVE, 1, {}, Past({SET}, {}, {})), B := Node(map[], 0, {}, NOTHING)],
                    {SET}, {SET}, {Encode(ByteConfig(), SET).value}, {})
  {
    var cfg := ByteConfig();
    var s := After(cfg, []);
    steps, s := Grow(cfg, [], s, Boot(A, None));
    steps, s := Grow(cfg, steps, s, Boot(B, None));
    steps, s := Grow(cfg, steps, s, Draw(A, K, KindSet, 7, 1));
    assert s.nodes[A].drawn == {SET};
    steps, s := Grow(cfg, steps, s, ApplyDrawn(A, SET));
    steps, s := Grow(cfg, steps, s, Publish(SET));
  }

  /** Replica B has heard of it and replica A has deleted it. */
  lemma ThenDelete() returns (steps: seq<Step<Byte>>)
    ensures After(ByteConfig(), steps) ==
            Cluster(map[A := Node(DEAD, 2, {}, Past({SET, DEL}, {}, {})), B := Node(LIVE, 0, {}, Past({SET}, {}, {}))],
                    {SET, DEL}, {SET, DEL}, {Encode(ByteConfig(), SET).value}, {})
  {
    var cfg := ByteConfig();
    steps := FirstSet();
    var s := After(cfg, steps);
    steps, s := Grow(cfg, steps, s, Deliver(B, Encode(cfg, SET).value));
    assert s.nodes[B] == Node(LIVE, 0, {}, Past({SET}, {}, {}));
    steps, s := Grow(cfg, steps, s, Draw(A, K, KindDelete, 0, 2));
    assert s.nodes[A] == Node(LIVE, 2, {DEL}, Past({SET}, {}, {}));
    steps, s := Grow(cfg, steps, s, ApplyDrawn(A, DEL));
    assert s.nodes[A] == Node(DEAD, 2, {}, Past({SET, DEL}, {}, {}));
    assert s.nodes.Keys == {A, B};
  }

  /**
   Collection can undo convergence. One replica sets a key, the other hears of it; the first deletes the key, the
   message is lost, and the tombstone is collected as the next snapshot is persisted. The other refreshes from
   that snapshot. Both now know every accepted write, yet one still shows the key.
   */
  lemma CollectedDeleteSurvives() returns (steps: seq<Step<Byte>>)
    ensures var s := After(ByteConfig(), steps);
            && A in s.nodes && s.accepted <= s.nodes[A].past.known && B in s.nodes
               && s.accepted <= s.nodes[B].past.known
            && View(s.nodes[A].data) == map[] && View(s.nodes[B].data) == map[K := 7]
  {
    var cfg := ByteConfig();
    steps := ThenDelete();
    var s := After(cfg, steps);
    assert Collect(s.nodes[A].data, 10) == map[];
    steps, s := Grow(cfg, steps, s, Persist(A, 10));
    assert s.nodes[A].data == map[] && s.nodes[B] == Node(LIVE, 0, {}, Past({SET}, {}, {})) && s.accepted == {SET, DEL};
    var snap := SnapOf(cfg, s.nodes[A]);
    assert snap.wire == map[] && DecodeEntries(cfg, snap.wire) == map[];
    steps, s := Grow(cfg, steps, s, Refresh(B, snap));
    assert Merge(LIVE, map[]) == LIVE && View(LIVE) == map[K := 7];
  }
}
