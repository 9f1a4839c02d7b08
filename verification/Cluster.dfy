/**
 A cluster of replicas over a network that may reorder, duplicate, delay and lose messages, with refreshes and
 late joiners served from any snapshot ever persisted, and with tombstones collected at any time. Time is whatever
 timestamp the writer's clock gave: no clock assumption is made.

 A write takes its timestamp and counter value in one step and is applied in another, so concurrent writes of one
 node may be applied in any order. Batches, Seed, failed broadcasts and aborted batches are all runs of Draw and
 ApplyDrawn steps with some, all or none of the matching Publish steps.
 */
module Cluster {
  import opened Order
  import opened Replica
  import LocalWrites

  /**
   What lies behind a map: the writes it has been offered, the Deletes whose tombstones were collected from it or
   from a snapshot it took in, and the cutoffs of those passes. It is history and influences nothing.
   */
  datatype Past<T(==)> = Past(known: set<Write<T>>, buried: set<Write<T>>, cutoffs: set<int>)

  /** `drawn` are the node's writes that have a stamp and are not applied yet. */
  datatype Node<T(==)> = Node(data: Data<T>, counter: nat, drawn: set<Write<T>>, past: Past<T>)

  /** A persisted snapshot with what lay behind the map when it was read. */
  datatype Snap<T(==)> = Snap(wire: map<GoString, WireEntry>, past: Past<T>)

  /** `writes` are all local writes ever attempted, `accepted` those that won at their author. */
  datatype Cluster<T(==)> = Cluster(
    nodes: map<GoString, Node<T>>,
    writes: set<Write<T>>,
    accepted: set<Write<T>>,
    sent: set<WireMessage>,
    snaps: set<Snap<T>>)

  datatype Step<T(==)> =
    | Draw(n: GoString, key: GoString, kind: Kind, value: T, now: int)
    | ApplyDrawn(n: GoString, w: Write<T>)
    | Publish(w: Write<T>)
    | Deliver(n: GoString, m: WireMessage)
    | CollectSome(n: GoString, cutoff: int, reached: set<GoString>)
    | Persist(n: GoString, cutoff: int)
    | Refresh(n: GoString, snap: Snap<T>)
    | Boot(n: GoString, from: Option<Snap<T>>)

  /** The write that Set or Delete builds from the clock and the incremented counter. */
  function NewWrite<T(==)>(cfg: Config<T>, node: Node<T>, step: Step<T>): Write<T>
    requires step.Draw?
  {
    Write(step.key, step.kind, if step.kind.KindDelete? then cfg.zero else step.value,
          Stamp(step.now, step.n, node.counter + 1))
  }

  /** The accepted Deletes whose tombstones a pass over the `reached` keys removes. */
  function Graves<T(==)>(node: Node<T>, accepted: set<Write<T>>, cutoff: int, reached: set<GoString>): set<Write<T>> {
    set w | && w in node.past.known && w in accepted && w.kind.KindDelete? && w.key in reached && w.key in node.data
            && Expired(node.data[w.key], cutoff) && node.data[w.key].stamp == w.stamp
  }

  /** A collecting pass. One that is cut short by a value that does not marshal has reached only some keys. */
  function Sweep<T(==)>(node: Node<T>, accepted: set<Write<T>>, cutoff: int, reached: set<GoString>): Node<T> {
    node.(data := map k | k in node.data && !(k in reached && Expired(node.data[k], cutoff)) :: node.data[k],
          past := Past(node.past.known, node.past.buried + Graves(node, accepted, cutoff, reached),
                       node.past.cutoffs + {cutoff}))
  }

  /** The full pass persistSnapshot makes while it encodes. */
  function SweepAll<T(==)>(node: Node<T>, accepted: set<Write<T>>, cutoff: int): (node': Node<T>)
    ensures node'.data == Collect(node.data, cutoff)
  {
    Sweep(node, accepted, cutoff, node.data.Keys)
  }

  ghost function SnapOf<T>(cfg: Config<T>, node: Node<T>): Snap<T>
    requires Encodable(cfg, node.data)
  {
    Snap(EncodeEntries(cfg, node.data), node.past)
  }

  function Union<T(==)>(a: Past<T>, b: Past<T>): Past<T> {
    Past(a.known + b.known, a.buried + b.buried, a.cutoffs + b.cutoffs)
  }

  function Learn<T(==)>(a: Past<T>, more: set<Write<T>>): Past<T> {
    a.(known := a.known + more)
  }

  ghost predicate Enabled<T>(cfg: Config<T>, s: Cluster<T>, step: Step<T>) {
    match step
    case Draw(n, _, kind, _, _) => n in s.nodes && !kind.KindOther?
    case ApplyDrawn(n, w) => n in s.nodes && w in s.nodes[n].drawn
    case Publish(w) => w in s.accepted && Encode(cfg, w).Some?
    case Deliver(n, m) => n in s.nodes && m in s.sent
    case CollectSome(n, _, _) => n in s.nodes
    case Persist(n, cutoff) => n in s.nodes && Encodable(cfg, Collect(s.nodes[n].data, cutoff))
    case Refresh(n, snap) => n in s.nodes && snap in s.snaps && Decodable(cfg, snap.wire)
    case Boot(n, from) => n !in s.nodes && (from.Some? ==> from.value in s.snaps && Decodable(cfg, from.value.wire))
  }

  ghost function Fire<T>(cfg: Config<T>, s: Cluster<T>, step: Step<T>): Cluster<T>
    requires Enabled(cfg, s, step)
  {
    match step
    case Draw(n, _, _, _, _) =>
      var node := s.nodes[n];
      var w := NewWrite(cfg, node, step);
      s.(nodes := s.nodes[n := node.(counter := node.counter + 1, drawn := node.drawn + {w})], writes := s.writes + {w})
    case ApplyDrawn(n, w) =>
      var node := s.nodes[n];
      s.(nodes := s.nodes[n := Node(Apply(cfg, node.data, w), node.counter, node.drawn - {w}, Learn(node.past, {w}))],
         accepted := s.accepted + if LwwAccept(node.data, w.key, w.stamp) then {w} else {})
    case Publish(w) =>
      s.(sent := s.sent + {Encode(cfg, w).value})
    case Deliver(n, m) =>
      var node := s.nodes[n];
      s.(nodes := s.nodes[n := node.(data := Receive(cfg, n, node.data, m), past := Learn(node.past, Carried(cfg, m)))])
    case CollectSome(n, cutoff, reached) =>
      s.(nodes := s.nodes[n := Sweep(s.nodes[n], s.accepted, cutoff, reached)])
    case Persist(n, cutoff) =>
      var node := SweepAll(s.nodes[n], s.accepted, cutoff);
      s.(nodes := s.nodes[n := node], snaps := s.snaps + {SnapOf(cfg, node)})
    case Refresh(n, snap) =>
      var node := s.nodes[n];
      s.(nodes := s.nodes[n := node.(data := Merge(node.data, DecodeEntries(cfg, snap.wire)),
                                     past := Union(node.past, snap.past))])
    case Boot(n, from) =>
      s.(nodes := s.nodes[n := match from
                               case None => Node(map[], 0, {}, Past({}, {}, {}))
                               case Some(snap) => Node(DecodeEntries(cfg, snap.wire), 0, {}, snap.past)])
  }

  /** What a delivered message tells its receiver, its own echo included. */
  function Carried<T(==)>(cfg: Config<T>, m: WireMessage): set<Write<T>> {
    match Decode(cfg, m)
    case None => {}
    case Some(w) => {w}
  }

  /** The cluster after any sequence of steps; a step that is not enabled changes nothing. */
  ghost function After<T>(cfg: Config<T>, steps: seq<Step<T>>): Cluster<T> {
    if steps == [] then Cluster(map[], {}, {}, {}, {})
    else
      var s := After(cfg, steps[..|steps| - 1]);
      var step := steps[|steps| - 1];
      if Enabled(cfg, s, step) then Fire(cfg, s, step) else s
  }

  // ---------------------------------------------------------------- invariants

  /** An entry that stems from this write; without a merger it also holds its value. */
  ghost predicate StemsFrom<T>(cfg: Config<T>, e: Entry<T>, w: Write<T>) {
    && w.stamp == e.stamp && (e.tombstone <==> w.kind.KindDelete?)
    && (cfg.merger.None? ==> e.value == w.value)
  }

  ghost predicate Covered<T>(data: Data<T>, w: Write<T>) {
    w.key in data && StampLeq(w.stamp, data[w.key].stamp)
  }

  /** A collected Delete is at least as new as the write. */
  ghost predicate Outlived<T(!new)>(past: Past<T>, w: Write<T>) {
    exists d :: d in past.buried && d.key == w.key && StampLeq(w.stamp, d.stamp)
  }

  ghost predicate Accounted<T(!new)>(data: Data<T>, past: Past<T>, w: Write<T>) {
    Covered(data, w) || Outlived(past, w)
  }

  ghost predicate Rooted<T(!new)>(cfg: Config<T>, data: Data<T>, known: set<Write<T>>, accepted: set<Write<T>>,
                                  k: GoString)
    requires k in data
  {
    exists w :: w in known && w in accepted && w.key == k && StemsFrom(cfg, data[k], w)
  }

  /** A collected Delete was known, had won at its author, and was older than a cutoff. */
  ghost predicate Dug<T(!new)>(past: Past<T>, accepted: set<Write<T>>, d: Write<T>) {
    d in past.known && d in accepted && d.kind.KindDelete? && exists c :: c in past.cutoffs && d.stamp.timestamp < c
  }

  /**
   Every known write is covered by the map or by a collected Delete, and every entry stems from a known write that
   its author accepted. With nothing collected, the map is per key the maximum of the known writes.
   */
  ghost predicate Reflects<T(!new)>(cfg: Config<T>, data: Data<T>, past: Past<T>, accepted: set<Write<T>>) {
    && (forall w {:trigger Accounted(data, past, w)} :: w in past.known ==> Accounted(data, past, w))
    && (forall k {:trigger Rooted(cfg, data, past.known, accepted, k)} :: k in data ==>
        Rooted(cfg, data, past.known, accepted, k))
    && (forall d {:trigger Dug(past, accepted, d)} :: d in past.buried ==> Dug(past, accepted, d))
    && ZeroTombstones(cfg, data)
  }

  /** The author of a write is a node, has counted up to it, and knows it if it accepted it. */
  ghost predicate Owned<T>(cfg: Config<T>, s: Cluster<T>, w: Write<T>) {
    && w.stamp.origin in s.nodes
    && w.stamp.seqno <= s.nodes[w.stamp.origin].counter
    && !w.kind.KindOther? && (w.kind.KindDelete? ==> w.value == cfg.zero)
    && (w in s.accepted ==> w in s.nodes[w.stamp.origin].past.known)
  }

  predicate SameIdentity<T>(w: Write<T>, w': Write<T>) {
    w.stamp.origin == w'.stamp.origin && w.stamp.seqno == w'.stamp.seqno
  }

  /** No two distinct writes share (origin, seqno). */
  ghost predicate StampsUnique<T(!new)>(cfg: Config<T>, s: Cluster<T>) {
    && (forall w {:trigger Owned(cfg, s, w)} :: w in s.writes ==> Owned(cfg, s, w))
    && (forall w, w' {:trigger SameIdentity(w, w')} :: w in s.writes && w' in s.writes && SameIdentity(w, w') ==>
        w == w')
  }

  ghost predicate Honest<T>(s: Cluster<T>, n: GoString)
    requires n in s.nodes
  {
    s.nodes[n].past.known <= s.writes && s.nodes[n].drawn <= s.writes && forall w :: w in s.nodes[n].drawn ==>
        w.stamp.origin == n
  }

  ghost predicate Authentic<T(!new)>(cfg: Config<T>, s: Cluster<T>) {
    && s.accepted <= s.writes
    && (forall n {:trigger Honest(s, n)} :: n in s.nodes ==> Honest(s, n))
    && (forall m :: m in s.sent ==> exists w :: w in s.accepted && Encode(cfg, w) == Some(m))
    && (forall snap :: snap in s.snaps ==> snap.past.known <= s.writes)
  }

  ghost predicate AllReflect<T(!new)>(cfg: Config<T>, s: Cluster<T>) {
    && (forall n :: n in s.nodes ==> Reflects(cfg, s.nodes[n].data, s.nodes[n].past, s.accepted))
    && (forall snap :: snap in s.snaps ==>
          Decodable(cfg, snap.wire) && Reflects(cfg, DecodeEntries(cfg, snap.wire), snap.past, s.accepted))
  }

  ghost predicate Inv<T(!new)>(cfg: Config<T>, s: Cluster<T>) {
    StampsUnique(cfg, s) && Authentic(cfg, s) && AllReflect(cfg, s)
  }

  lemma ReflectsGrow<T(!new)>(cfg: Config<T>, data: Data<T>, past: Past<T>, accepted: set<Write<T>>,
                              more: set<Write<T>>)
    requires Reflects(cfg, data, past, accepted) && accepted <= more
    ensures Reflects(cfg, data, past, more)
  {
    forall k | k in data ensures Rooted(cfg, data, past.known, more, k) {
      assert Rooted(cfg, data, past.known, accepted, k);
    }
    forall d | d in past.buried ensures Dug(past, more, d) {
      assert Dug(past, accepted, d);
    }
  }

  /** What accounts for a write still does when the map rises and more Deletes are collected. */
  lemma AccountedGrows<T(!new)>(data: Data<T>, past: Past<T>, data': Data<T>, past': Past<T>, w: Write<T>)
    requires Accounted(data, past, w) && past.buried <= past'.buried
    requires w.key in data ==> w.key in data' && StampLeq(data[w.key].stamp, data'[w.key].stamp)
    ensures Accounted(data', past', w)
  {
    if Covered(data, w) {
      StampLaws();
    } else {
      var d :| d in past.buried && d.key == w.key && StampLeq(w.stamp, d.stamp);
      assert d in past'.buried;
    }
  }

  /** Offering one write keeps what the map reflects. */
  lemma ReflectsApply<T(!new)>(cfg: Config<T>, data: Data<T>, past: Past<T>, accepted: set<Write<T>>, w: Write<T>)
    requires Reflects(cfg, data, past, accepted)
    requires w.kind.KindDelete? ==> w.value == cfg.zero
    requires LwwAccept(data, w.key, w.stamp) ==> w in accepted
    ensures Reflects(cfg, Apply(cfg, data, w), Learn(past, {w}), accepted)
  {
    var data', past' := Apply(cfg, data, w), Learn(past, {w});
    forall x | x in past'.known ensures Accounted(data', past', x) {
      if x in past.known {
        AccountedGrows(data, past, data', past', x);
      } else {
        StampTrichotomy(w.stamp, w.stamp);
        if w.key in data {
          StampTrichotomy(w.stamp, data[w.key].stamp);
        }
        assert Covered(data', w);
      }
    }
    forall k | k in data' ensures Rooted(cfg, data', past'.known, accepted, k) {
      if LwwAccept(data, w.key, w.stamp) && k == w.key {
        assert StemsFrom(cfg, data'[k], w);
      } else {
        assert Rooted(cfg, data, past.known, accepted, k);
      }
    }
    forall d | d in past'.buried ensures Dug(past', accepted, d) {
      assert Dug(past, accepted, d);
    }
  }

  /** Merging a snapshot keeps the map and what lies behind both. */
  lemma ReflectsMerge<T(!new)>(cfg: Config<T>, a: Data<T>, past: Past<T>, b: Data<T>, more: Past<T>,
                               accepted: set<Write<T>>)
    requires Reflects(cfg, a, past, accepted) && Reflects(cfg, b, more, accepted)
    ensures Reflects(cfg, Merge(a, b), Union(past, more), accepted)
  {
    var data, past' := Merge(a, b), Union(past, more);
    MergeDominates(a, b);
    forall w | w in past'.known ensures Accounted(data, past', w) {
      if w in past.known {
        AccountedGrows(a, past, data, past', w);
      } else {
        AccountedGrows(b, more, data, past', w);
      }
    }
    forall k | k in data ensures Rooted(cfg, data, past'.known, accepted, k) {
      if k in a && data[k] == a[k] {
        assert Rooted(cfg, a, past.known, accepted, k);
      } else {
        assert Rooted(cfg, b, more.known, accepted, k);
      }
    }
    forall d | d in past'.buried ensures Dug(past', accepted, d) {
      assert d in past.buried ==> Dug(past, accepted, d);
      assert d in more.buried ==> Dug(more, accepted, d);
    }
  }

  /** A tombstone that goes leaves its Delete among the collected ones. */
  lemma SweepAccounts<T(!new)>(cfg: Config<T>, node: Node<T>, accepted: set<Write<T>>, cutoff: int,
                               reached: set<GoString>, w: Write<T>)
    requires Reflects(cfg, node.data, node.past, accepted) && Accounted(node.data, node.past, w)
    ensures var node' := Sweep(node, accepted, cutoff, reached); Accounted(node'.data, node'.past, w)
  {
    var node' := Sweep(node, accepted, cutoff, reached);
    if w.key in node.data && w.key !in node'.data && Covered(node.data, w) {
      assert Rooted(cfg, node.data, node.past.known, accepted, w.key);
      var d :| d in node.past.known && d in accepted && d.key == w.key && StemsFrom(cfg, node.data[w.key], d);
      assert d in node'.past.buried;
    } else if Covered(node.data, w) {
      assert Covered(node'.data, w);
    } else {
      var d :| d in node.past.buried && d.key == w.key && StampLeq(w.stamp, d.stamp);
      assert d in node'.past.buried;
    }
  }

  lemma ReflectsSweep<T(!new)>(cfg: Config<T>, node: Node<T>, accepted: set<Write<T>>, cutoff: int,
                               reached: set<GoString>)
    requires Reflects(cfg, node.data, node.past, accepted)
    ensures var node' := Sweep(node, accepted, cutoff, reached); Reflects(cfg, node'.data, node'.past, accepted)
  {
    var node' := Sweep(node, accepted, cutoff, reached);
    forall w | w in node'.past.known ensures Accounted(node'.data, node'.past, w) {
      SweepAccounts(cfg, node, accepted, cutoff, reached, w);
    }
    forall k | k in node'.data ensures Rooted(cfg, node'.data, node'.past.known, accepted, k) {
      assert Rooted(cfg, node.data, node.past.known, accepted, k);
    }
    forall d | d in node'.past.buried ensures Dug(node'.past, accepted, d) {
      if d in node.past.buried {
        assert Dug(node.past, accepted, d);
      } else {
        assert cutoff in node'.past.cutoffs;
      }
    }
  }

  /** Replacing one node by one that reflects, with at most what was written, keeps the invariant. */
  lemma NodeReplaced<T(!new)>(cfg: Config<T>, s: Cluster<T>, n: GoString, node: Node<T>)
    requires Inv(cfg, s)
             && (n in s.nodes ==> s.nodes[n].counter <= node.counter && s.nodes[n].past.known <= node.past.known)
    requires Reflects(cfg, node.data, node.past, s.accepted)
    requires node.past.known <= s.writes && node.drawn <= s.writes && forall w :: w in node.drawn ==>
             w.stamp.origin == n
    ensures Inv(cfg, s.(nodes := s.nodes[n := node]))
  {
    var s' := s.(nodes := s.nodes[n := node]);
    forall x | x in s'.writes ensures Owned(cfg, s', x) {
      assert Owned(cfg, s, x);
    }
    forall m | m in s'.nodes ensures Honest(s', m) {
      if m != n {
        assert Honest(s, m);
      }
    }
  }

  lemma DrawKeepsInv<T(!new)>(cfg: Config<T>, s: Cluster<T>, step: Step<T>)
    requires Inv(cfg, s) && Enabled(cfg, s, step) && step.Draw?
    ensures Inv(cfg, Fire(cfg, s, step))
  {
    var s' := Fire(cfg, s, step);
    var w := NewWrite(cfg, s.nodes[step.n], step);
    assert w !in s.writes by {
      assert w in s.writes ==> Owned(cfg, s, w);
    }
    forall x | x in s'.writes ensures Owned(cfg, s', x) && (SameIdentity(x, w) ==> x == w) {
      assert x in s.writes ==> Owned(cfg, s, x);
    }
    forall n | n in s'.nodes ensures Honest(s', n) {
      assert Honest(s, n);
    }
  }

  lemma ApplyKeepsInv<T(!new)>(cfg: Config<T>, s: Cluster<T>, n: GoString, w: Write<T>)
    requires Inv(cfg, s) && Enabled(cfg, s, ApplyDrawn(n, w))
    ensures Inv(cfg, Fire(cfg, s, ApplyDrawn(n, w)))
  {
    var s' := Fire(cfg, s, ApplyDrawn(n, w));
    var node := s.nodes[n];
    assert Honest(s, n) && Owned(cfg, s, w);
    forall x | x in s'.writes ensures Owned(cfg, s', x) {
      assert Owned(cfg, s, x);
    }
    forall m | m in s'.nodes ensures Honest(s', m) && Reflects(cfg, s'.nodes[m].data, s'.nodes[m].past, s'.accepted) {
      assert Honest(s, m);
      ReflectsGrow(cfg, s.nodes[m].data, s.nodes[m].past, s.accepted, s'.accepted);
      if m == n {
        ReflectsApply(cfg, node.data, node.past, s'.accepted, w);
      }
    }
    forall snap | snap in s'.snaps ensures Reflects(cfg, DecodeEntries(cfg, snap.wire), snap.past, s'.accepted) {
      ReflectsGrow(cfg, DecodeEntries(cfg, snap.wire), snap.past, s.accepted, s'.accepted);
    }
  }

  /** Decoding a sent message gives the accepted write it was made from. */
  lemma SentIsAccepted<T(!new)>(cfg: Config<T>, s: Cluster<T>, m: WireMessage) returns (w: Write<T>)
    requires Lawful(cfg.codec) && Inv(cfg, s) && m in s.sent
    ensures w in s.accepted && Owned(cfg, s, w) && Decode(cfg, m) == Some(w) && m.stamp == w.stamp
  {
    w :| w in s.accepted && Encode(cfg, w) == Some(m);
    assert Owned(cfg, s, w);
    DecodeEncode(cfg, w);
  }

  lemma DeliverKeepsInv<T(!new)>(cfg: Config<T>, s: Cluster<T>, n: GoString, m: WireMessage)
    requires Lawful(cfg.codec)
    requires Inv(cfg, s) && Enabled(cfg, s, Deliver(n, m))
    ensures Inv(cfg, Fire(cfg, s, Deliver(n, m)))
  {
    var w := SentIsAccepted(cfg, s, m);
    var node := s.nodes[n];
    assert Honest(s, n);
    if m.stamp.origin == n {
      assert node.past.known + {w} == node.past.known;
    } else {
      ReflectsApply(cfg, node.data, node.past, s.accepted, w);
    }
    NodeReplaced(cfg, s, n, Fire(cfg, s, Deliver(n, m)).nodes[n]);
  }

  lemma SnapshotReads<T(!new)>(cfg: Config<T>, data: Data<T>)
    requires Lawful(cfg.codec) && ZeroTombstones(cfg, data) && Encodable(cfg, data)
    ensures Decodable(cfg, EncodeEntries(cfg, data)) && DecodeEntries(cfg, EncodeEntries(cfg, data)) == data
  {
    forall k | k in data ensures DecodeEntry(cfg, EncodeEntry(cfg, data[k]).value) == Some(data[k]) {
      if !data[k].tombstone {
        assert cfg.codec.marshal(data[k].value).Some?;
      }
    }
  }

  lemma PersistKeepsInv<T(!new)>(cfg: Config<T>, s: Cluster<T>, n: GoString, cutoff: int)
    requires Lawful(cfg.codec)
    requires Inv(cfg, s) && Enabled(cfg, s, Persist(n, cutoff))
    ensures Inv(cfg, Fire(cfg, s, Persist(n, cutoff)))
  {
    var s' := Fire(cfg, s, Persist(n, cutoff));
    var node := SweepAll(s.nodes[n], s.accepted, cutoff);
    ReflectsSweep(cfg, s.nodes[n], s.accepted, cutoff, s.nodes[n].data.Keys);
    assert Honest(s, n);
    var mid := s.(nodes := s.nodes[n := node]);
    NodeReplaced(cfg, s, n, node);
    SnapshotReads(cfg, node.data);
    forall x | x in s'.writes ensures Owned(cfg, s', x) {
      assert Owned(cfg, mid, x);
    }
    forall m | m in s'.nodes ensures Honest(s', m) {
      assert Honest(mid, m);
    }
  }

  lemma PublishKeepsInv<T(!new)>(cfg: Config<T>, s: Cluster<T>, w: Write<T>)
    requires Inv(cfg, s) && Enabled(cfg, s, Publish(w))
    ensures Inv(cfg, Fire(cfg, s, Publish(w)))
  {
    var s' := Fire(cfg, s, Publish(w));
    forall x | x in s'.writes ensures Owned(cfg, s', x) {
      assert Owned(cfg, s, x);
    }
    forall n | n in s'.nodes ensures Honest(s', n) {
      assert Honest(s, n);
    }
  }

  /** Every step keeps the invariant. */
  lemma StepKeepsInv<T(!new)>(cfg: Config<T>, s: Cluster<T>, step: Step<T>)
    requires Lawful(cfg.codec)
    requires Inv(cfg, s) && Enabled(cfg, s, step)
    ensures Inv(cfg, Fire(cfg, s, step))
  {
    match step
    case Draw(_, _, _, _, _) => DrawKeepsInv(cfg, s, step);
    case ApplyDrawn(n, w) => ApplyKeepsInv(cfg, s, n, w);
    case Publish(w) => PublishKeepsInv(cfg, s, w);
    case Deliver(n, m) => DeliverKeepsInv(cfg, s, n, m);
    case CollectSome(n, cutoff, reached) =>
      assert Honest(s, n);
      ReflectsSweep(cfg, s.nodes[n], s.accepted, cutoff, reached);
      NodeReplaced(cfg, s, n, Sweep(s.nodes[n], s.accepted, cutoff, reached));
    case Persist(n, cutoff) => PersistKeepsInv(cfg, s, n, cutoff);
    case Refresh(n, snap) =>
      assert Honest(s, n);
      ReflectsMerge(cfg, s.nodes[n].data, s.nodes[n].past, DecodeEntries(cfg, snap.wire), snap.past, s.accepted);
      NodeReplaced(cfg, s, n, Fire(cfg, s, step).nodes[n]);
    case Boot(n, from) =>
      NodeReplaced(cfg, s, n, Fire(cfg, s, step).nodes[n]);
  }

  lemma {:induction false} RunsKeepInv<T(!new)>(cfg: Config<T>, steps: seq<Step<T>>)
    requires Lawful(cfg.codec)
    ensures Inv(cfg, After(cfg, steps))
  {
    if steps != [] {
      RunsKeepInv(cfg, steps[..|steps| - 1]);
      var s := After(cfg, steps[..|steps| - 1]);
      if Enabled(cfg, s, steps[|steps| - 1]) {
        StepKeepsInv(cfg, s, steps[|steps| - 1]);
      }
    }
  }

  // ---------------------------------------------------------------- identities

  /** Equal stamps mean equal writes, in every run: the maximum per key is well defined. */
  lemma StampUniqueness<T(!new)>(cfg: Config<T>, steps: seq<Step<T>>, w: Write<T>, w': Write<T>)
    requires Lawful(cfg.codec)
    requires w in After(cfg, steps).writes && w' in After(cfg, steps).writes
    ensures w.stamp.origin == w'.stamp.origin && w.stamp.seqno == w'.stamp.seqno ==> w == w'
    ensures w.stamp.origin in After(cfg, steps).nodes
    ensures w.stamp.seqno <= After(cfg, steps).nodes[w.stamp.origin].counter
  {
    RunsKeepInv(cfg, steps);
    assert Owned(cfg, After(cfg, steps), w) && (SameIdentity(w, w') ==> w == w');
  }

  /** The accepted write behind an entry. */
  lemma RootOf<T(!new)>(cfg: Config<T>, s: Cluster<T>, n: GoString, k: GoString) returns (w: Write<T>)
    requires Inv(cfg, s) && n in s.nodes && k in s.nodes[n].data
    ensures w in s.nodes[n].past.known && w in s.accepted && w in s.writes && w.key == k
            && StemsFrom(cfg, s.nodes[n].data[k], w)
  {
    assert Rooted(cfg, s.nodes[n].data, s.nodes[n].past.known, s.accepted, k);
    w :| w in s.nodes[n].past.known && w in s.accepted && w.key == k && StemsFrom(cfg, s.nodes[n].data[k], w);
  }

  /**
   In every run the entries a node authored, wherever they are held, are within its counter: what local batches
   rely on.
   */
  lemma OwnEntriesCounted<T(!new)>(cfg: Config<T>, steps: seq<Step<T>>, holder: GoString, author: GoString)
    requires Lawful(cfg.codec)
    requires holder in After(cfg, steps).nodes && author in After(cfg, steps).nodes
    ensures LocalWrites.OwnCounted(After(cfg, steps).nodes[holder].data, author,
                                   After(cfg, steps).nodes[author].counter)
  {
    RunsKeepInv(cfg, steps);
    var s := After(cfg, steps);
    var data := s.nodes[holder].data;
    forall k | k in data && data[k].stamp.origin == author ensures data[k].stamp.seqno <= s.nodes[author].counter {
      var w := RootOf(cfg, s, holder, k);
      assert Owned(cfg, s, w);
    }
  }

  /** Without a merger, maps of different replicas never hold different entries under one stamp. */
  lemma ReplicasCoherent<T(!new)>(cfg: Config<T>, steps: seq<Step<T>>, a: GoString, b: GoString)
    requires Lawful(cfg.codec) && cfg.merger.None?
    requires a in After(cfg, steps).nodes && b in After(cfg, steps).nodes
    ensures Coherent(After(cfg, steps).nodes[a].data, After(cfg, steps).nodes[b].data)
  {
    RunsKeepInv(cfg, steps);
    var s := After(cfg, steps);
    var x, y := s.nodes[a].data, s.nodes[b].data;
    forall k | k in x && k in y && x[k].stamp == y[k].stamp ensures x[k] == y[k] {
      var w := RootOf(cfg, s, a, k);
      var w' := RootOf(cfg, s, b, k);
      assert SameIdentity(w, w');
    }
  }
}
