/**
 One replica of the store as a value: the entry map, the last-write-wins rule, wire messages and snapshots with an
 abstract codec, and the effect of every operation on the map. The Store class is proved against these functions
 and the cluster, collection, merging and replay theorems are about them.
 */
module Replica {
  import opened Order

  const PROTOCOL_VERSION: nat := 1

  /** A stored entry. `stamp` groups the source's Timestamp, Origin and Seq fields. */
  datatype Entry<+T> = Entry(value: T, stamp: Stamp, tombstone: bool)

  type Data<+T> = map<GoString, Entry<T>>

  /** The wire kind is a string in the source: "set", "delete" or anything else. */
  datatype Kind = KindSet | KindDelete | KindOther

  /** A decoded write as it is offered to a replica. */
  datatype Write<+T> = Write(key: GoString, kind: Kind, value: T, stamp: Stamp)

  datatype WireMessage =
    WireMessage(v: nat, kind: Kind, key: GoString, payload: Bytes, stamp: Stamp)

  datatype WireEntry = WireEntry(payload: Bytes, stamp: Stamp, tombstone: bool)

  datatype WireSnapshot = WireSnapshot(v: nat, entries: map<GoString, WireEntry>)

  /** A value codec: a partial printer and a partial parser. */
  datatype Codec<!T> = Codec(marshal: T -> Option<Bytes>, unmarshal: Bytes -> Option<T>)

  /** What a Store is configured with; `zero` is Go's zero value of T. */
  datatype Config<!T> = Config(codec: Codec<T>, merger: Option<(T, T) -> T>, zero: T)

  /** The round-trip law a codec is expected to satisfy. */
  ghost predicate Lawful<T(!new)>(codec: Codec<T>) {
    forall v: T :: codec.marshal(v).Some? ==> codec.unmarshal(codec.marshal(v).value) == Some(v)
  }

  /** A store of single bytes without a merger, for runs that show what can happen. */
  function ByteConfig(): Config<Byte> {
    Config(Codec((v: Byte) => Some([v]), (b: Bytes) => if |b| == 1 then Some(b[0]) else None), None, 0)
  }

  // ---------------------------------------------------------------- last-write-wins

  /** The comparison of lwwAccept and of applyMessage, branch by branch. */
  predicate LwwAccept<T>(data: Data<T>, key: GoString, stamp: Stamp)
    ensures LwwAccept(data, key, stamp) <==> key !in data || StampLess(data[key].stamp, stamp)
  {
    if key !in data then true
    else
      var existing := data[key].stamp;
      StampTrichotomy(existing, stamp);
      StrTrichotomy(existing.origin, stamp.origin);
      if existing.timestamp > stamp.timestamp then false
      else if existing.timestamp == stamp.timestamp then
        if StrLess(stamp.origin, existing.origin) then false
        else !(existing.origin == stamp.origin && existing.seqno >= stamp.seqno)
      else true
  }

  /** The value an accepted write leaves behind: merged only over a live value, only for a Set. */
  function Settled<T>(cfg: Config<T>, data: Data<T>, w: Write<T>): T {
    if cfg.merger.Some? && w.kind.KindSet? && w.key in data && !data[w.key].tombstone
    then cfg.merger.value(data[w.key].value, w.value)
    else w.value
  }

  function Installed<T>(cfg: Config<T>, data: Data<T>, w: Write<T>): Entry<T> {
    Entry(Settled(cfg, data, w), w.stamp, w.kind.KindDelete?)
  }

  /** The effect of applyMessage on the map. */
  function Apply<T>(cfg: Config<T>, data: Data<T>, w: Write<T>): Data<T> {
    if LwwAccept(data, w.key, w.stamp) then data[w.key := Installed(cfg, data, w)] else data
  }

  // ---------------------------------------------------------------- the reader's view

  /** What Get, Keys and Snapshot show: the live keys and their values. */
  function View<T>(data: Data<T>): map<GoString, T> {
    map k | k in data && !data[k].tombstone :: data[k].value
  }

  /** What Version shows. */
  function Versions<T>(data: Data<T>): map<GoString, Stamp> {
    map k | k in data && !data[k].tombstone :: data[k].stamp
  }

  // ---------------------------------------------------------------- events

  datatype EventKind = EventSet | EventDelete

  datatype Event<+T> = Event(kind: EventKind, key: GoString, value: T, origin: GoString, timestamp: int)

  function EventOf<T>(key: GoString, e: Entry<T>): Event<T> {
    Event(if e.tombstone then EventDelete else EventSet, key, e.value, e.stamp.origin, e.stamp.timestamp)
  }

  // ---------------------------------------------------------------- messages

  /** The message Set and Delete publish; None when the value cannot be marshalled. */
  function Encode<T>(cfg: Config<T>, w: Write<T>): Option<WireMessage> {
    if w.kind.KindSet? then
      match cfg.codec.marshal(w.value)
      case None => None
      case Some(payload) => Some(WireMessage(PROTOCOL_VERSION, KindSet, w.key, payload, w.stamp))
    else Some(WireMessage(PROTOCOL_VERSION, w.kind, w.key, [], w.stamp))
  }

  /** handleRaw's version check and value decoding. */
  function Decode<T>(cfg: Config<T>, m: WireMessage): Option<Write<T>> {
    if m.v > PROTOCOL_VERSION then None
    else if m.kind.KindSet? then
      match cfg.codec.unmarshal(m.payload)
      case None => None
      case Some(value) => Some(Write(m.key, m.kind, value, m.stamp))
    else Some(Write(m.key, m.kind, cfg.zero, m.stamp))
  }

  lemma DecodeEncode<T(!new)>(cfg: Config<T>, w: Write<T>)
    requires Lawful(cfg.codec)
    requires Encode(cfg, w).Some?
    requires !w.kind.KindSet? ==> w.value == cfg.zero
    ensures Decode(cfg, Encode(cfg, w).value) == Some(w)
  {
    if w.kind.KindSet? {
      assert cfg.codec.marshal(w.value).Some?;
    }
  }

  /** Messages are sent as version 1, and a message of any later version is not understood. */
  lemma SpeaksVersionOne<T>(cfg: Config<T>, w: Write<T>, m: WireMessage)
    ensures Encode(cfg, w).Some? ==> Encode(cfg, w).value.v == 1
    ensures m.v > 1 ==> Decode(cfg, m).None?
    ensures m.v <= 1 && !m.kind.KindSet? ==> Decode(cfg, m).Some?
  {
  }

  /** The effect of handleRaw on the map: own echoes and undecodable messages change nothing. */
  function Receive<T>(cfg: Config<T>, self: GoString, data: Data<T>, m: WireMessage): Data<T> {
    if m.stamp.origin == self || Decode(cfg, m).None? then data
    else Apply(cfg, data, Decode(cfg, m).value)
  }

  // ---------------------------------------------------------------- snapshots

  function EncodeEntry<T>(cfg: Config<T>, e: Entry<T>): Option<WireEntry> {
    if e.tombstone then Some(WireEntry([], e.stamp, true))
    else
      match cfg.codec.marshal(e.value)
      case None => None
      case Some(payload) => Some(WireEntry(payload, e.stamp, false))
  }

  function DecodeEntry<T>(cfg: Config<T>, we: WireEntry): Option<Entry<T>> {
    if we.tombstone then Some(Entry(cfg.zero, we.stamp, true))
    else
      match cfg.codec.unmarshal(we.payload)
      case None => None
      case Some(value) => Some(Entry(value, we.stamp, false))
  }

  ghost predicate Encodable<T>(cfg: Config<T>, data: Data<T>) {
    forall k :: k in data ==> EncodeEntry(cfg, data[k]).Some?
  }

  ghost predicate Decodable<T>(cfg: Config<T>, entries: map<GoString, WireEntry>) {
    forall k :: k in entries ==> DecodeEntry(cfg, entries[k]).Some?
  }

  ghost function EncodeEntries<T>(cfg: Config<T>, data: Data<T>): map<GoString, WireEntry>
    requires Encodable(cfg, data)
  {
    map k | k in data :: EncodeEntry(cfg, data[k]).value
  }

  ghost function DecodeEntries<T>(cfg: Config<T>, entries: map<GoString, WireEntry>): Data<T>
    requires Decodable(cfg, entries)
  {
    map k | k in entries :: DecodeEntry(cfg, entries[k]).value
  }

  /** Every tombstone holds the zero value: the reason a snapshot may drop its payload. */
  ghost predicate ZeroTombstones<T>(cfg: Config<T>, data: Data<T>) {
    forall k :: k in data && data[k].tombstone ==> data[k].value == cfg.zero
  }

  /** A tombstone that a pass with this cutoff collects. */
  predicate Expired<T>(e: Entry<T>, cutoff: int) {
    e.tombstone && e.stamp.timestamp < cutoff
  }

  function Collect<T>(data: Data<T>, cutoff: int): Data<T> {
    map k | k in data && !Expired(data[k], cutoff) :: data[k]
  }

  /** mergeSnapshot on decoded entries: a per-key choice of the higher stamp. */
  function Merge<T>(data: Data<T>, snap: Data<T>): Data<T> {
    map k | k in data.Keys + snap.Keys ::
      if k in snap && LwwAccept(data, k, snap[k].stamp) then snap[k] else data[k]
  }

  /** Loading what was persisted restores the map, stamps included. */
  lemma SnapshotRoundTrip<T(!new)>(cfg: Config<T>, data: Data<T>, cutoff: int)
    requires Lawful(cfg.codec) && ZeroTombstones(cfg, data) && Encodable(cfg, Collect(data, cutoff))
    ensures var wire := EncodeEntries(cfg, Collect(data, cutoff));
            && Decodable(cfg, wire)
            && Merge(map[], DecodeEntries(cfg, wire)) == DecodeEntries(cfg, wire) == Collect(data, cutoff)
            && Merge(data, DecodeEntries(cfg, wire)) == data
  {
    var kept := Collect(data, cutoff);
    var wire := EncodeEntries(cfg, kept);
    forall k | k in wire ensures DecodeEntry(cfg, wire[k]) == Some(kept[k]) {
      assert EncodeEntry(cfg, kept[k]).Some?;
      if !kept[k].tombstone {
        assert cfg.codec.marshal(kept[k].value).Some?;
      }
    }
    assert DecodeEntries(cfg, wire) == kept;
    StampLaws();
  }

  // ---------------------------------------------------------------- the join algebra

  /** Entries of the two maps that carry the same stamp for a key are the same entry. */
  ghost predicate Coherent<T>(a: Data<T>, b: Data<T>) {
    forall k :: k in a && k in b && a[k].stamp == b[k].stamp ==> a[k] == b[k]
  }

  /** `b` knows every key of `a` at the same or a higher stamp. */
  ghost predicate Dominated<T>(a: Data<T>, b: Data<T>) {
    forall k :: k in a ==> k in b && StampLeq(a[k].stamp, b[k].stamp)
  }

  lemma MergeDominates<T>(a: Data<T>, b: Data<T>)
    ensures Dominated(a, Merge(a, b)) && Dominated(b, Merge(a, b))
    ensures forall k :: k in Merge(a, b) ==>
              (k in a && Merge(a, b)[k] == a[k]) || (k in b && Merge(a, b)[k] == b[k])
  {
    StampLaws();
  }

  /** The merge is the least map above both: what lies above it is exactly what lies above each. */
  lemma MergeIsJoin<T>(a: Data<T>, b: Data<T>, c: Data<T>)
    ensures Dominated(Merge(a, b), c) <==> Dominated(a, c) && Dominated(b, c)
  {
    MergeDominates(a, b);
    StampLaws();
    if Dominated(Merge(a, b), c) {
      forall k | k in a ensures k in c && StampLeq(a[k].stamp, c[k].stamp) {
        assert StampLeq(a[k].stamp, Merge(a, b)[k].stamp) && StampLeq(Merge(a, b)[k].stamp, c[k].stamp);
      }
      forall k | k in b ensures k in c && StampLeq(b[k].stamp, c[k].stamp) {
        assert StampLeq(b[k].stamp, Merge(a, b)[k].stamp) && StampLeq(Merge(a, b)[k].stamp, c[k].stamp);
      }
    }
  }

  lemma MergeIdempotent<T>(a: Data<T>, b: Data<T>)
    ensures Merge(a, a) == a
    ensures Merge(Merge(a, b), b) == Merge(a, b)
  {
    StampLaws();
  }

  lemma MergeCommutative<T>(a: Data<T>, b: Data<T>)
    ensures Merge(a, b) == Merge(b, a) <==> Coherent(a, b)
  {
    StampLaws();
    if Merge(a, b) == Merge(b, a) {
      forall k | k in a && k in b && a[k].stamp == b[k].stamp ensures a[k] == b[k] {
        assert Merge(a, b)[k] == a[k] && Merge(b, a)[k] == b[k];
      }
    } else {
      assert !Coherent(a, b) by {
        var k :| k in Merge(a, b) && Merge(a, b)[k] != Merge(b, a)[k];
        assert k in a && k in b && a[k].stamp == b[k].stamp && a[k] != b[k];
      }
    }
  }

  lemma MergeAssociative<T>(a: Data<T>, b: Data<T>, c: Data<T>)
    ensures Merge(Merge(a, b), c) == Merge(a, Merge(b, c))
  {
    StampLaws();
    assert Merge(Merge(a, b), c).Keys == Merge(a, Merge(b, c)).Keys;
    forall k | k in Merge(Merge(a, b), c)
      ensures Merge(Merge(a, b), c)[k] == Merge(a, Merge(b, c))[k]
    {
    }
  }

  /** The one-entry map of a write as it is stored without a merger. */
  function Singleton<T>(w: Write<T>): Data<T> {
    map[w.key := Entry(w.value, w.stamp, w.kind.KindDelete?)]
  }

  /** Without a merger, applying a message is merging a one-entry snapshot. */
  lemma ApplyIsMerge<T>(cfg: Config<T>, data: Data<T>, w: Write<T>)
    requires cfg.merger.None?
    ensures Apply(cfg, data, w) == Merge(data, Singleton(w))
  {
  }

  /** A refresh and a message delivery commute. */
  lemma MergeApplyInterchange<T>(cfg: Config<T>, data: Data<T>, snap: Data<T>, w: Write<T>)
    requires cfg.merger.None? && Coherent(snap, Singleton(w))
    ensures Apply(cfg, Merge(data, snap), w) == Merge(Apply(cfg, data, w), snap)
  {
    var one := Singleton(w);
    calc {
      Apply(cfg, Merge(data, snap), w);
      { ApplyIsMerge(cfg, Merge(data, snap), w); MergeAssociative(data, snap, one); }
      Merge(data, Merge(snap, one));
      { MergeCommutative(snap, one); }
      Merge(data, Merge(one, snap));
      { MergeAssociative(data, one, snap); ApplyIsMerge(cfg, data, w); }
      Merge(Apply(cfg, data, w), snap);
    }
  }
}
