/**
 The Store: its map, counters and dirty token, changed in place by local writes, peer messages, snapshots and
 tombstone collection. Each method is one critical section of the source or a sequence of them, and is proved
 against the functions of Replica, History and LocalWrites. Clock readings and transport outcomes are parameters;
 `dispatched` and `published` record what dispatch and the transport were handed.
 */
module Store {
  import opened Order
  import opened Replica
  import opened History
  import opened LocalWrites

  datatype Error =
    | NoError | ErrClosed | ErrMarshal | ErrBroadcast | ErrSeedNonEmpty | ErrMalformed | ErrVersion | ErrDecode

  datatype Version = Version(stamp: Stamp, present: bool)

  /** Go's zero Version; its zero time is the instant 0 here. */
  const NO_VERSION := Version(Stamp(0, [], 0), false)

  function VersionOf<T>(data: Data<T>, key: GoString): Version {
    if key in data && !data[key].tombstone then Version(data[key].stamp, true) else NO_VERSION
  }

  // ---------------------------------------------------------------- counting

  function LiveKeys<T>(data: Data<T>): set<GoString> {
    set k | k in data && !data[k].tombstone
  }

  function TombKeys<T>(data: Data<T>): set<GoString> {
    set k | k in data && data[k].tombstone
  }

  /** The counters agree with the map, `owed` collected tombstones still being counted. */
  ghost predicate Counted<T>(data: Data<T>, keysLive: int, tombstones: int, owed: nat) {
    keysLive == |LiveKeys(data)| && tombstones == |TombKeys(data)| + owed
  }

  lemma AddRemoveSize(s: set<GoString>, k: GoString)
    ensures |s + {k}| == |s| + if k in s then 0 else 1
    ensures |s - {k}| == |s| - if k in s then 1 else 0
  {
    if k in s {
      assert s + {k} == s;
    } else {
      assert s - {k} == s;
    }
  }

  lemma LiveAfterInstall<T>(data: Data<T>, k: GoString, e: Entry<T>)
    ensures |LiveKeys(data[k := e])| == |LiveKeys(data) - {k}| + if e.tombstone then 0 else 1
  {
    assert LiveKeys(data[k := e]) == (LiveKeys(data) - {k}) + if e.tombstone then {} else {k};
  }

  lemma TombAfterInstall<T>(data: Data<T>, k: GoString, e: Entry<T>)
    ensures |TombKeys(data[k := e])| == |TombKeys(data) - {k}| + if e.tombstone then 1 else 0
  {
    assert TombKeys(data[k := e]) == (TombKeys(data) - {k}) + if e.tombstone then {k} else {};
  }

  lemma CountInstall<T>(data: Data<T>, k: GoString, e: Entry<T>)
    ensures |LiveKeys(data[k := e])| ==
            |LiveKeys(data)| + (if e.tombstone then 0 else 1) - (if k in LiveKeys(data) then 1 else 0)
    ensures |TombKeys(data[k := e])| ==
            |TombKeys(data)| + (if e.tombstone then 1 else 0) - (if k in TombKeys(data) then 1 else 0)
    ensures |data[k := e]| == |data| + if k in data then 0 else 1
  {
    AddRemoveSize(LiveKeys(data), k);
    AddRemoveSize(TombKeys(data), k);
    AddRemoveSize(data.Keys, k);
    LiveAfterInstall(data, k, e);
    TombAfterInstall(data, k, e);
    assert data[k := e].Keys == data.Keys + {k};
  }

  lemma CountRemove<T>(data: Data<T>, k: GoString)
    requires k in data && data[k].tombstone
    ensures |LiveKeys(data - {k})| == |LiveKeys(data)| && |TombKeys(data - {k})| == |TombKeys(data)| - 1
    ensures |data - {k}| == |data| - 1
  {
    assert LiveKeys(data - {k}) == LiveKeys(data);
    assert TombKeys(data - {k}) == TombKeys(data) - {k};
    assert (data - {k}).Keys == data.Keys - {k};
  }

  // ---------------------------------------------------------------- what batches send

  /** The messages of the winning writes, in order. */
  function Posts<T>(cfg: Config<T>, data: Data<T>, ops: seq<Op<T>>): seq<WireMessage> {
    if ops == [] then []
    else
      var before, op := ops[..|ops| - 1], ops[|ops| - 1];
      Posts(cfg, data, before) +
      if op.Offer? && Wins(Run(cfg, data, before), op) && Encode(cfg, op.w).Some? then [Encode(cfg, op.w).value] else []
  }

  /** The message decodes to a write of the list that was put into the map as this entry. */
  ghost predicate Carries<T(!new)>(cfg: Config<T>, ops: seq<Op<T>>, m: WireMessage, k: GoString, e: Entry<T>) {
    exists w :: && Decode(cfg, m) == Some(w) && Offer(w) in ops
                && w.key == k && w.stamp == e.stamp && (w.kind.KindDelete? <==> e.tombstone)
  }

  /** A write that reads back from its message. */
  ghost predicate Sendable<T>(cfg: Config<T>, op: Op<T>) {
    op.Offer? && Encode(cfg, op.w).Some? && (!op.w.kind.KindSet? ==> op.w.value == cfg.zero)
  }

  /** A batch posts one message per install, in order, each of which tells a peer the caller's write behind it. */
  lemma {:induction false} PostsCarry<T(!new)>(cfg: Config<T>, data: Data<T>, ops: seq<Op<T>>)
    requires Lawful(cfg.codec) && forall i :: 0 <= i < |ops| ==> Sendable(cfg, ops[i])
    ensures |Posts(cfg, data, ops)| == |Installs(cfg, data, ops)|
    ensures forall i :: 0 <= i < |Posts(cfg, data, ops)| ==>
              Carries(cfg, ops, Posts(cfg, data, ops)[i], Installs(cfg, data, ops)[i].0, Installs(cfg, data, ops)[i].1)
  {
    if ops != [] {
      var before, op := ops[..|ops| - 1], ops[|ops| - 1];
      PostsCarry(cfg, data, before);
      assert Sendable(cfg, op);
      DecodeEncode(cfg, op.w);
      var posts, installs := Posts(cfg, data, ops), Installs(cfg, data, ops);
      forall i | 0 <= i < |posts| ensures Carries(cfg, ops, posts[i], installs[i].0, installs[i].1) {
        if i < |Posts(cfg, data, before)| {
          assert posts[i] == Posts(cfg, data, before)[i] && installs[i] == Installs(cfg, data, before)[i];
          assert Carries(cfg, before, posts[i], installs[i].0, installs[i].1);
          var w :| && Decode(cfg, posts[i]) == Some(w) && Offer(w) in before && w.key == installs[i].0
                   && w.stamp == installs[i].1.stamp && (w.kind.KindDelete? <==> installs[i].1.tombstone);
          assert Offer(w) in ops;
        } else {
          assert Decode(cfg, posts[i]) == Some(op.w) && op in ops;
        }
      }
    }
  }

  lemma PostsSnoc<T>(cfg: Config<T>, data: Data<T>, ops: seq<Op<T>>, w: Write<T>)
    requires Encode(cfg, w).Some?
    ensures Posts(cfg, data, ops + [Offer(w)]) ==
            Posts(cfg, data, ops) + if Wins(Run(cfg, data, ops), Offer(w)) then [Encode(cfg, w).value] else []
  {
    assert (ops + [Offer(w)])[..|ops|] == ops;
  }

  /**
   The items list the map: each key once, with its value. This is what Go's range over a map yields, in some
   order.
   */
  ghost predicate Lists<T>(items: seq<(GoString, T)>, m: map<GoString, T>) {
    && (forall i, j :: 0 <= i < j < |items| ==> items[i].0 != items[j].0)
    && (forall i :: 0 <= i < |items| ==> items[i].0 in m && m[items[i].0] == items[i].1)
    && (forall k {:trigger Listed(items, k)} :: k in m ==> Listed(items, k))
  }

  ghost predicate Listed<T>(items: seq<(GoString, T)>, k: GoString) {
    exists i :: 0 <= i < |items| && items[i].0 == k
  }

  lemma ListsSnoc<T>(items: seq<(GoString, T)>, m: map<GoString, T>, k: GoString, v: T)
    requires Lists(items, m) && k !in m
    ensures Lists(items + [(k, v)], m[k := v])
  {
    var items' := items + [(k, v)];
    forall x | x in m[k := v] ensures Listed(items', x) {
      if x == k {
        assert items'[|items|].0 == k;
      } else {
        assert Listed(items, x);
        var i :| 0 <= i < |items| && items[i].0 == x;
        assert items'[i].0 == x;
      }
    }
  }

  lemma ListsSome<T>(items: seq<(GoString, T)>, m: map<GoString, T>)
    requires Lists(items, m) && m != map[]
    ensures items != []
  {
    var k :| k in m;
    assert Listed(items, k);
  }

  /** `part` agrees with `kvs` on the keys outside `todo` and holds no others. */
  ghost predicate Visited<T>(part: map<GoString, T>, kvs: map<GoString, T>, todo: set<GoString>) {
    part.Keys == kvs.Keys - todo && forall k :: k in part ==> part[k] == kvs[k]
  }

  /** A batch that got through `part` and stopped at a value that does not marshal. */
  ghost predicate Blocked<T>(cfg: Config<T>, part: map<GoString, T>, kvs: map<GoString, T>) {
    && (forall k :: k in part ==> k in kvs && part[k] == kvs[k] && cfg.codec.marshal(kvs[k]).Some?)
    && Unmarshallable(cfg, kvs)
  }

  ghost predicate Unmarshallable<T>(cfg: Config<T>, kvs: map<GoString, T>) {
    exists k :: k in kvs && cfg.codec.marshal(kvs[k]).None?
  }

  lemma AllVisited<T>(cfg: Config<T>, part: map<GoString, T>, kvs: map<GoString, T>)
    requires Visited(part, kvs, {}) && forall k :: k in part ==> cfg.codec.marshal(kvs[k]).Some?
    ensures part == kvs && !Unmarshallable(cfg, kvs)
  {
    assert forall k :: k in kvs ==> k in part;
  }

  /** SetMany's calls when range yields these items. */
  function SetCalls<T>(items: seq<(GoString, T)>, now: int): (calls: seq<Call<T>>)
    ensures |calls| == |items| && forall i :: 0 <= i < |items| ==>
            calls[i] == Call(items[i].0, KindSet, items[i].1, now)
  {
    seq(|items|, i requires 0 <= i < |items| => Call(items[i].0, KindSet, items[i].1, now))
  }

  function DeleteCalls<T>(keys: seq<GoString>, zero: T, now: int): (calls: seq<Call<T>>)
    ensures |calls| == |keys| && forall i :: 0 <= i < |keys| ==> calls[i] == Call(keys[i], KindDelete, zero, now)
  {
    seq(|keys|, i requires 0 <= i < |keys| => Call(keys[i], KindDelete, zero, now))
  }

  function Offers<T>(ws: seq<Write<T>>): (ops: seq<Op<T>>)
    ensures |ops| == |ws| && forall i :: 0 <= i < |ws| ==> ops[i] == Offer(ws[i])
  {
    seq(|ws|, i requires 0 <= i < |ws| => Offer(ws[i]))
  }

  ghost predicate Distinct(order: seq<GoString>) {
    forall i, j :: 0 <= i < j < |order| ==> order[i] != order[j]
  }

  /** Every dispatched event so far, replayed, leads from one live view to the next. */
  ghost predicate Replays<T>(before: Data<T>, events: seq<Event<T>>, after: Data<T>, events': seq<Event<T>>) {
    events <= events' && Replay(View(before), events'[|events|..]) == View(after)
  }

  lemma InstallsReplay<T>(cfg: Config<T>, data: Data<T>, ops: seq<Op<T>>, events: seq<Event<T>>)
    ensures Replays(data, events, Run(cfg, data, ops), events + EventsOf(Installs(cfg, data, ops)))
  {
    ReplayReproduces(cfg, data, ops);
    assert (events + EventsOf(Installs(cfg, data, ops)))[|events|..] == EventsOf(Installs(cfg, data, ops));
  }

  // ---------------------------------------------------------------- refresh

  /** The snapshot entries that win and decode. */
  ghost function Winners<T>(cfg: Config<T>, data: Data<T>, entries: map<GoString, WireEntry>): Data<T> {
    map k | k in entries && LwwAccept(data, k, entries[k].stamp) && DecodeEntry(cfg, entries[k]).Some? ::
      DecodeEntry(cfg, entries[k]).value
  }

  /** For a decodable snapshot, adopting the winners is the full merge. */
  lemma WinnersMerge<T>(cfg: Config<T>, data: Data<T>, entries: map<GoString, WireEntry>)
    requires Decodable(cfg, entries)
    ensures Merge(data, Winners(cfg, data, entries)) == Merge(data, DecodeEntries(cfg, entries))
  {
    forall k | k in entries ensures DecodeEntry(cfg, entries[k]).value.stamp == entries[k].stamp {
    }
  }

  /** The keys of the snapshot entries that beat the map. */
  ghost function Winning<T>(data: Data<T>, entries: map<GoString, WireEntry>): set<GoString> {
    set k | k in entries && LwwAccept(data, k, entries[k].stamp)
  }

  /** A snapshot entry that beats the map does not decode. */
  ghost predicate Spoiled<T>(cfg: Config<T>, data: Data<T>, entries: map<GoString, WireEntry>) {
    exists k :: k in Winning(data, entries) && DecodeEntry(cfg, entries[k]).None?
  }

  /** A merge in progress: the winners adopted so far, in the order the snapshot is iterated. */
  ghost predicate Adopting<T>(cfg: Config<T>, start: Data<T>, winners: Data<T>, order: seq<GoString>, data: Data<T>,
                              events: seq<Event<T>>) {
    && (forall k :: k in order ==> k in winners)
    && data == Run(cfg, start, AdoptAll(order, winners))
    && events == EventsOf(Installs(cfg, start, AdoptAll(order, winners)))
  }

  /** Keys not yet adopted are as they were at the start. */
  ghost predicate Untouched<T>(start: Data<T>, order: seq<GoString>, data: Data<T>) {
    forall k :: k !in order ==> (k in data <==> k in start) && (k in start ==> data[k] == start[k])
  }

  /** One event per adopted entry, each adopted once. */
  ghost predicate Announces<T>(order: seq<GoString>, winners: Data<T>, events: seq<Event<T>>) {
    && Distinct(order) && |events| == |order|
    && forall i :: 0 <= i < |order| ==> order[i] in winners && events[i] == EventOf(order[i], winners[order[i]])
  }

  /** What was dispatched since announces the adopted entries, which are all that win. */
  ghost predicate Announced<T>(cfg: Config<T>, data: Data<T>, entries: map<GoString, WireEntry>, order: seq<GoString>,
                               before: seq<Event<T>>, after: seq<Event<T>>)
  {
    && before <= after && Announces(order, Winners(cfg, data, entries), after[|before|..])
    && forall k :: k in Winning(data, entries) ==> k in order
  }

  /**
   What a refresh has done to the map: it is the merge with the entries adopted, which are all that win unless one
   of those does not decode; for a decodable snapshot this is the per-key merge with all of it.
   */
  ghost predicate Merged<T>(cfg: Config<T>, entries: map<GoString, WireEntry>, order: seq<GoString>,
                            before: Data<T>, after: Data<T>, err: Error)
  {
    && Dominated(before, after)
    && after == Merge(before, Restrict(Winners(cfg, before, entries), order))
    && (err == NoError ==> after == Merge(before, Winners(cfg, before, entries)))
    && (Decodable(cfg, entries) ==> err == NoError && after == Merge(before, DecodeEntries(cfg, entries)))
  }

  lemma AnnouncesOne<T>(order: seq<GoString>, winners: Data<T>, events: seq<Event<T>>, k: GoString)
    requires Announces(order, winners, events) && k in winners && k !in order
    ensures Announces(order + [k], winners, events + [EventOf(k, winners[k])])
  {
  }

  lemma AdoptingOne<T>(cfg: Config<T>, start: Data<T>, winners: Data<T>, order: seq<GoString>, data: Data<T>,
                       events: seq<Event<T>>, k: GoString)
    requires Adopting(cfg, start, winners, order, data, events)
    requires k in winners && LwwAccept(data, k, winners[k].stamp)
    ensures Adopting(cfg, start, winners, order + [k], data[k := winners[k]], events + [EventOf(k, winners[k])])
  {
    var ops := AdoptAll(order, winners);
    RunSnoc(cfg, start, ops, Adopt(k, winners[k]));
    assert AdoptAll(order + [k], winners) == ops + [Adopt(k, winners[k])];
    EventsConcat(Installs(cfg, start, ops), [(k, winners[k])]);
    assert EventsOf([(k, winners[k])]) == [EventOf(k, winners[k])];
  }

  lemma DecodedStamp<T>(cfg: Config<T>, data: Data<T>, entries: map<GoString, WireEntry>, k: GoString)
    requires k in Winning(data, entries) && DecodeEntry(cfg, entries[k]).Some?
    ensures k in Winners(cfg, data, entries) && Winners(cfg, data, entries)[k] == DecodeEntry(cfg, entries[k]).value
    ensures DecodeEntry(cfg, entries[k]).value.stamp == entries[k].stamp
    ensures DecodeEntry(cfg, entries[k]).value.tombstone ==> DecodeEntry(cfg, entries[k]).value.value == cfg.zero
  {
  }

  /** A merge that adopted all winners is the per-key merge; one cut short still lowers nothing. */
  lemma AdoptingDone<T>(cfg: Config<T>, start: Data<T>, entries: map<GoString, WireEntry>, order: seq<GoString>,
                        data: Data<T>, events: seq<Event<T>>, dispatched: seq<Event<T>>)
    requires Adopting(cfg, start, Winners(cfg, start, entries), order, data, events)
    ensures Dominated(start, data) && Replays(start, dispatched, data, dispatched + events)
    ensures data == Merge(start, Restrict(Winners(cfg, start, entries), order))
    ensures (forall k :: k in Winning(start, entries) ==> k in order) ==>
            data == Merge(start, Winners(cfg, start, entries))
    ensures Decodable(cfg, entries) ==>
              Merge(start, Winners(cfg, start, entries)) == Merge(start, DecodeEntries(cfg, entries))
  {
    var winners := Winners(cfg, start, entries);
    AdoptAnyOrder(cfg, start, winners, order);
    MergeDominates(start, Restrict(winners, order));
    InstallsReplay(cfg, start, AdoptAll(order, winners), dispatched);
    if forall k :: k in Winning(start, entries) ==> k in order {
      AllAdopted(cfg, start, entries, order);
    }
    if Decodable(cfg, entries) {
      WinnersMerge(cfg, start, entries);
    }
  }

  lemma AllAdopted<T>(cfg: Config<T>, start: Data<T>, entries: map<GoString, WireEntry>, order: seq<GoString>)
    requires forall k :: k in Winning(start, entries) ==> k in order
    ensures Restrict(Winners(cfg, start, entries), order) == Winners(cfg, start, entries)
  {
    forall k | k in Winners(cfg, start, entries) ensures k in order {
      assert k in Winning(start, entries);
    }
  }

  // ---------------------------------------------------------------- seeding and loading

  /** The entries Seed puts into the empty map when range yields these items. */
  function SeedData<T>(self: GoString, counter: nat, items: seq<(GoString, T)>, now: int): Data<T> {
    if items == [] then map[]
    else
      var (k, v) := items[|items| - 1];
      SeedData(self, counter, items[..|items| - 1], now)[k := Entry(v, Stamp(now, self, counter + |items|), false)]
  }

  /** Seed's locked loop, in map iteration order. */
  method SeedEntries<T>(self: GoString, counter: nat, initial: map<GoString, T>, now: int)
    returns (data: Data<T>, seqno: nat, ghost items: seq<(GoString, T)>)
    ensures Lists(items, initial) && seqno == counter + |items| && data == SeedData(self, counter, items, now)
  {
    data, seqno, items := map[], counter, [];
    var todo := initial.Keys;
    ghost var part: map<GoString, T> := map[];
    while todo != {}
      invariant todo <= initial.Keys && Visited(part, initial, todo) && Lists(items, part)
      invariant seqno == counter + |items| && data == SeedData(self, counter, items, now)
      decreases todo
    {
      var k :| k in todo;
      todo := todo - {k};
      ListsSnoc(items, part, k, initial[k]);
      assert (items + [(k, initial[k])])[..|items|] == items;
      items, part := items + [(k, initial[k])], part[k := initial[k]];
      seqno := seqno + 1;
      data := data[k := Entry(initial[k], Stamp(now, self, seqno), false)];
    }
    assert part == initial;
  }

  lemma {:induction false} SeedDataKeys<T>(self: GoString, counter: nat, items: seq<(GoString, T)>, now: int,
                                           k: GoString)
    requires k in SeedData(self, counter, items, now)
    ensures exists i :: 0 <= i < |items| && items[i].0 == k
  {
    var init := items[..|items| - 1];
    if items[|items| - 1].0 != k {
      SeedDataKeys(self, counter, init, now, k);
      var i :| 0 <= i < |init| && init[i].0 == k;
      assert items[i].0 == k;
    }
  }

  /** A Set on a new key just adds its entry. */
  lemma SetOnNewKey<T>(cfg: Config<T>, self: GoString, counter: nat, calls: seq<Call<T>>, c: Call<T>, data: Data<T>)
    requires Run(cfg, map[], LocalOps(cfg, self, counter, calls)) == data && c.key !in data && c.kind.KindSet?
    ensures Run(cfg, map[], LocalOps(cfg, self, counter, calls + [c])) ==
            data[c.key := Entry(c.value, Stamp(c.now, self, counter + 1 + |calls|), false)]
  {
    BatchStep(cfg, self, counter, map[], calls, c);
  }

  /** Seeding the empty map is what single Sets would have made of it. */
  lemma {:induction false} SeedIsSets<T>(cfg: Config<T>, self: GoString, counter: nat, items: seq<(GoString, T)>,
                                         now: int)
    requires forall i, j :: 0 <= i < j < |items| ==> items[i].0 != items[j].0
    ensures Run(cfg, map[], LocalOps(cfg, self, counter, SetCalls(items, now))) == SeedData(self, counter, items, now)
  {
    if items != [] {
      var init, last := items[..|items| - 1], items[|items| - 1];
      var data := SeedData(self, counter, init, now);
      SeedIsSets(cfg, self, counter, init, now);
      if last.0 in data {
        SeedDataKeys(self, counter, init, now, last.0);
      }
      SetOnNewKey(cfg, self, counter, SetCalls(init, now), Call(last.0, KindSet, last.1, now), data);
      assert SetCalls(items, now) == SetCalls(init, now) + [Call(last.0, KindSet, last.1, now)];
    }
  }

  /** Seeding shows exactly the initial values. */
  lemma SeedView<T>(cfg: Config<T>, self: GoString, counter: nat, items: seq<(GoString, T)>,
                    initial: map<GoString, T>, now: int)
    requires Lists(items, initial)
    ensures View(SeedData(self, counter, items, now)) == initial
            && SeedData(self, counter, items, now).Keys == initial.Keys
  {
    var none: Data<T> := map[];
    SeedIsSets(cfg, self, counter, items, now);
    SetManyView(cfg, none, self, counter, items, initial, now);
    assert BatchView(cfg, none, self, now, map k | k in initial :: (KindSet, initial[k])) == initial;
    forall k | k in SeedData(self, counter, items, now) ensures k in initial {
      SeedDataKeys(self, counter, items, now, k);
    }
    forall k | k in initial ensures k in SeedData(self, counter, items, now) {
      assert k in View(SeedData(self, counter, items, now));
    }
  }

  lemma SizesOf<T>(data: Data<T>, initial: map<GoString, T>)
    requires data.Keys == initial.Keys && forall k :: k in data ==> !data[k].tombstone
    ensures |LiveKeys(data)| == |data| == |initial| && |TombKeys(data)| == 0
  {
    assert LiveKeys(data) == data.Keys && TombKeys(data) == {};
    assert |data.Keys| == |data| && |initial.Keys| == |initial|;
  }

  /**
   loadSnapshot's locked loop, in map iteration order: the entries it puts into the empty map, and how many are
   live.
   */
  method DecodeAll<T>(cfg: Config<T>, entries: map<GoString, WireEntry>) returns (ok: bool, data: Data<T>, live: nat)
    ensures ok <==> Decodable(cfg, entries)
    ensures ok ==> data == DecodeEntries(cfg, entries) && live == |LiveKeys(data)|
  {
    data, live := map[], 0;
    var todo := entries.Keys;
    while todo != {}
      invariant todo <= entries.Keys && data.Keys == entries.Keys - todo && live == |LiveKeys(data)|
      invariant forall k :: k in data ==> DecodeEntry(cfg, entries[k]) == Some(data[k])
      decreases todo
    {
      var k :| k in todo;
      var decoded := DecodeEntry(cfg, entries[k]);
      if decoded.None? {
        return false, data, live;
      }
      todo := todo - {k};
      CountInstall(data, k, decoded.value);
      data := data[k := decoded.value];
      if !decoded.value.tombstone {
        live := live + 1;
      }
    }
    ok := true;
    assert data == DecodeEntries(cfg, entries);
  }

  lemma PartitionSize<T>(data: Data<T>)
    ensures |LiveKeys(data)| + |TombKeys(data)| == |data|
  {
    assert LiveKeys(data) + TombKeys(data) == data.Keys && LiveKeys(data) !! TombKeys(data);
    assert |data.Keys| == |data|;
  }

  /** The map during a collecting pass, with `todo` still to visit. */
  ghost function Sweeping<T>(data: Data<T>, todo: set<GoString>, cutoff: int): Data<T> {
    map k | k in data && (k in todo || !Expired(data[k], cutoff)) :: data[k]
  }

  /** What an encoding pass has put into the snapshot so far. */
  ghost predicate Encoding<T>(cfg: Config<T>, data: Data<T>, todo: set<GoString>, entries: map<GoString, WireEntry>) {
    && entries.Keys == data.Keys - todo
    && forall k :: k in entries ==> EncodeEntry(cfg, data[k]) == Some(entries[k])
  }

  /** Readers do not miss expired tombstones. */
  lemma DroppedUnseen<T>(before: Data<T>, after: Data<T>, cutoff: int)
    requires forall k :: k in after ==> k in before && after[k] == before[k]
    requires forall k :: k in before && k !in after ==> Expired(before[k], cutoff)
    ensures View(after) == View(before) && Versions(after) == Versions(before)
  {
  }

  lemma SweepOne<T>(data: Data<T>, todo: set<GoString>, cutoff: int, k: GoString)
    requires k in todo && k in data
    ensures Sweeping(data, todo - {k}, cutoff) ==
            if Expired(data[k], cutoff) then Sweeping(data, todo, cutoff) - {k} else Sweeping(data, todo, cutoff)
  {
  }

  lemma EncodingOne<T>(cfg: Config<T>, data: Data<T>, todo: set<GoString>, entries: map<GoString, WireEntry>,
                       k: GoString)
    requires Encoding(cfg, data, todo, entries) && k in todo && k in data
    ensures Encoding(cfg, data - {k}, todo - {k}, entries)
    ensures EncodeEntry(cfg, data[k]).Some? ==>
            Encoding(cfg, data, todo - {k}, entries[k := EncodeEntry(cfg, data[k]).value])
  {
  }

  lemma EncodingDone<T>(cfg: Config<T>, data: Data<T>, entries: map<GoString, WireEntry>)
    requires Encoding(cfg, data, {}, entries)
    ensures Encodable(cfg, data) && entries == EncodeEntries(cfg, data)
  {
    assert forall k :: k in data ==> k in entries;
  }

  lemma SameSizeSameMap<T>(data: Data<T>, cutoff: int)
    requires |Collect(data, cutoff)| == |data|
    ensures Collect(data, cutoff) == data
  {
    var kept := Collect(data, cutoff);
    if k :| k in data && k !in kept {
      assert kept.Keys <= data.Keys - {k};
      SubsetSize(kept.Keys, data.Keys - {k});
    }
  }

  // ---------------------------------------------------------------- one step of a batch

  lemma OneOffer<T>(cfg: Config<T>, data: Data<T>, w: Write<T>)
    ensures Run(cfg, data, [Offer(w)]) == Apply(cfg, data, w)
    ensures Installs(cfg, data, [Offer(w)]) ==
            if LwwAccept(data, w.key, w.stamp) then [(w.key, Installed(cfg, data, w))] else []
  {
    RunSnoc(cfg, data, [], Offer(w));
    assert [] + [Offer(w)] == [Offer(w)];
  }

  lemma OneOfferReplays<T>(cfg: Config<T>, data: Data<T>, w: Write<T>, events: seq<Event<T>>)
    ensures var data' := Apply(cfg, data, w);
            Replays(data, events, data',
                    events + if LwwAccept(data, w.key, w.stamp) then [EventOf(w.key, Installed(cfg, data, w))] else [])
  {
    OneOffer(cfg, data, w);
    InstallsReplay(cfg, data, [Offer(w)], events);
    assert EventsOf(Installs(cfg, data, [Offer(w)])) ==
           if LwwAccept(data, w.key, w.stamp) then [EventOf(w.key, Installed(cfg, data, w))] else [];
  }

  /** How a batch grows by one call. */
  lemma BatchStep<T>(cfg: Config<T>, self: GoString, counter: nat, data: Data<T>, calls: seq<Call<T>>, c: Call<T>)
    ensures var ops := LocalOps(cfg, self, counter, calls);
            var op := LocalOp(cfg, self, counter, |calls|, c);
            var mid := Run(cfg, data, ops);
            var ops' := LocalOps(cfg, self, counter, calls + [c]);
            && Run(cfg, data, ops') == Apply(cfg, mid, op.w)
            && EventsOf(Installs(cfg, data, ops')) ==
               EventsOf(Installs(cfg, data, ops)) +
                   (if Wins(mid, op) then [EventOf(c.key, Installed(cfg, mid, op.w))] else [])
            && (Encode(cfg, op.w).Some? ==>
                  Posts(cfg, data, ops') ==
                  Posts(cfg, data, ops) + if Wins(mid, op) then [Encode(cfg, op.w).value] else [])
  {
    var ops := LocalOps(cfg, self, counter, calls);
    var op := LocalOp(cfg, self, counter, |calls|, c);
    assert LocalOps(cfg, self, counter, calls + [c]) == ops + [op];
    RunSnoc(cfg, data, ops, op);
    if Encode(cfg, op.w).Some? {
      PostsSnoc(cfg, data, ops, op.w);
    }
  }

  /** A batch in progress: the calls made so far, and what they did, dispatch and publish. */
  ghost predicate InBatch<T>(cfg: Config<T>, self: GoString, counter: nat, start: Data<T>, calls: seq<Call<T>>,
                             data: Data<T>, seqno: nat, events: seq<Event<T>>, posts: seq<WireMessage>)
  {
    var ops := LocalOps(cfg, self, counter, calls);
    && seqno == counter + |calls|
    && data == Run(cfg, start, ops)
    && events == EventsOf(Installs(cfg, start, ops))
    && posts == Posts(cfg, start, ops)
  }

  lemma InBatchSnoc<T>(cfg: Config<T>, self: GoString, counter: nat, start: Data<T>, calls: seq<Call<T>>, c: Call<T>,
                       data: Data<T>, seqno: nat, events: seq<Event<T>>, posts: seq<WireMessage>, w: Write<T>,
                       m: WireMessage)
    requires InBatch(cfg, self, counter, start, calls, data, seqno, events, posts)
    requires Offer(w) == LocalOp(cfg, self, counter, |calls|, c) && Encode(cfg, w) == Some(m)
    ensures var wins := LwwAccept(data, w.key, w.stamp);
            InBatch(cfg, self, counter, start, calls + [c], Apply(cfg, data, w), seqno + 1,
                    if wins then events + [EventOf(w.key, Installed(cfg, data, w))] else events,
                    if wins then posts + [m] else posts)
  {
    BatchStep(cfg, self, counter, start, calls, c);
  }

  lemma EventsFit<T>(cfg: Config<T>, self: GoString, counter: nat, start: Data<T>, calls: seq<Call<T>>,
                     data: Data<T>, seqno: nat, events: seq<Event<T>>, posts: seq<WireMessage>)
    requires InBatch(cfg, self, counter, start, calls, data, seqno, events, posts)
    ensures |events| <= |calls|
  {
    WinsAndLosses(cfg, start, LocalOps(cfg, self, counter, calls));
  }

  /** A full pass over the map in any order is the batch of BatchRefinesSingles. */
  lemma SetCallsCarryOut<T>(items: seq<(GoString, T)>, kvs: map<GoString, T>, now: int)
    requires Lists(items, kvs)
    ensures CarryOut(SetCalls(items, now), map k | k in kvs :: (KindSet, kvs[k]), now)
  {
    var calls := SetCalls(items, now);
    forall k | k in kvs ensures LastCall(calls, k) >= 0 {
      assert Listed(items, k);
      var i :| 0 <= i < |items| && items[i].0 == k;
      assert calls[i].key == k;
    }
  }

  lemma DeleteCallsCarryOut<T>(keys: seq<GoString>, zero: T, now: int)
    ensures CarryOut(DeleteCalls(keys, zero, now), map k | k in keys :: (KindDelete, zero), now)
  {
    var calls := DeleteCalls(keys, zero, now);
    forall k | k in keys ensures LastCall(calls, k) >= 0 {
      var i :| 0 <= i < |keys| && keys[i] == k;
      assert calls[i].key == k;
    }
  }

  // ---------------------------------------------------------------- the store

  /**
   What the outside can observe of a store: its map, its event and message streams, the dirty token, and
   how many writes it has applied and rejected.
   */
  datatype Face<T> = Face(data: Data<T>, dispatched: seq<Event<T>>, published: seq<WireMessage>, dirty: bool,
                          applied: nat, rejected: nat)

  /** How many of the operations lost. */
  function Losses<T>(cfg: Config<T>, data: Data<T>, ops: seq<Op<T>>): nat {
    if ops == [] then 0
    else
      var before := ops[..|ops| - 1];
      Losses(cfg, data, before) + if Wins(Run(cfg, data, before), ops[|ops| - 1]) then 0 else 1
  }

  lemma {:induction false} WinsAndLosses<T>(cfg: Config<T>, data: Data<T>, ops: seq<Op<T>>)
    ensures |Installs(cfg, data, ops)| + Losses(cfg, data, ops) == |ops|
  {
    if ops != [] {
      WinsAndLosses(cfg, data, ops[..|ops| - 1]);
    }
  }

  /** The face after these operations were reconciled one by one, with nothing published. */
  function Reconciled<T>(cfg: Config<T>, f: Face<T>, ops: seq<Op<T>>): Face<T> {
    var installs := Installs(cfg, f.data, ops);
    f.(data := Run(cfg, f.data, ops), dispatched := f.dispatched + EventsOf(installs),
       applied := f.applied + |installs|, rejected := f.rejected + Losses(cfg, f.data, ops))
  }

  /** The face after one write was offered: rejected, or put into the map with one event. */
  function Offered<T>(cfg: Config<T>, w: Write<T>, f: Face<T>): Face<T> {
    if !LwwAccept(f.data, w.key, w.stamp) then f.(rejected := f.rejected + 1)
    else
      f.(data := f.data[w.key := Installed(cfg, f.data, w)],
         dispatched := f.dispatched + [EventOf(w.key, Installed(cfg, f.data, w))], applied := f.applied + 1)
  }

  lemma ReconciledSnoc<T>(cfg: Config<T>, f: Face<T>, ops: seq<Op<T>>, w: Write<T>)
    ensures Reconciled(cfg, f, ops + [Offer(w)]) == Offered(cfg, w, Reconciled(cfg, f, ops))
  {
    RunSnoc(cfg, f.data, ops, Offer(w));
    assert (ops + [Offer(w)])[..|ops|] == ops;
    var installs, mid := Installs(cfg, f.data, ops), Run(cfg, f.data, ops);
    if LwwAccept(mid, w.key, w.stamp) {
      EventsSnoc(f.dispatched, installs, w.key, Installed(cfg, mid, w));
    } else {
      assert installs + [] == installs;
    }
  }

  lemma EventsSnoc<T>(events: seq<Event<T>>, installs: seq<(GoString, Entry<T>)>, k: GoString, e: Entry<T>)
    ensures events + EventsOf(installs + [(k, e)]) == (events + EventsOf(installs)) + [EventOf(k, e)]
  {
    EventsConcat(installs, [(k, e)]);
    assert EventsOf([(k, e)]) == [EventOf(k, e)];
  }

  /** How a batch ends: what its caller is told, where `posts` is what it has to publish. */
  function BatchError(closed: bool, cut: bool, failAt: nat, posts: nat): Error {
    if closed then ErrClosed else if cut then ErrMarshal else if failAt < posts then ErrBroadcast else NoError
  }

  /**
   A batch: the map is that of the single calls in order. Unless it was cut short by a value that does not
   marshal, there is one event per install, in order, the winning writes are published in order up to the first
   failure, and it is marked dirty when none failed. A closed store makes no calls, and its callers are told.
   */
  ghost predicate BatchDone<T>(cfg: Config<T>, self: GoString, counter: nat, counter': nat, calls: seq<Call<T>>,
                               closed: bool, cut: bool, failAt: nat, before: Face<T>, after: Face<T>, err: Error)
  {
    var ops := LocalOps(cfg, self, counter, calls);
    var posts := Posts(cfg, before.data, ops);
    && err == BatchError(closed, cut, failAt, |posts|)
    && (closed ==> calls == [])
    && counter' == counter + |calls|
    && after == BatchFace(Reconciled(cfg, before, ops), before, posts, calls != [], closed || cut, failAt)
  }

  /** The face a batch leaves, where `done` is that of its reconciled calls. */
  function BatchFace<T>(done: Face<T>, before: Face<T>, posts: seq<WireMessage>, any: bool, cut: bool,
                        failAt: nat): Face<T> {
    if cut then done.(dispatched := before.dispatched)
    else done.(published := before.published + posts[..if failAt < |posts| then failAt else |posts|],
               dirty := before.dirty || (any && failAt >= |posts|))
  }

  /** What a batch that was not cut short dispatched replays it. */
  lemma BatchReplays<T>(cfg: Config<T>, self: GoString, counter: nat, counter': nat, calls: seq<Call<T>>, failAt: nat,
                        before: Face<T>, after: Face<T>, err: Error)
    requires BatchDone(cfg, self, counter, counter', calls, false, false, failAt, before, after, err)
    ensures Replays(before.data, before.dispatched, after.data, after.dispatched)
  {
    InstallsReplay(cfg, before.data, LocalOps(cfg, self, counter, calls), before.dispatched);
  }

  /** Releasing the lock, dispatching and publishing completes a batch. */
  lemma BatchFinishes<T>(cfg: Config<T>, self: GoString, counter: nat, counter': nat, calls: seq<Call<T>>, failAt: nat,
                         before: Face<T>, data: Data<T>, events: seq<Event<T>>, posts: seq<WireMessage>)
    requires InBatch(cfg, self, counter, before.data, calls, data, counter', events, posts) && calls != []
    requires |events| <= |calls|
    ensures var err := if failAt < |posts| then ErrBroadcast else NoError;
            var after := Face(data, before.dispatched + events,
                              before.published + posts[..if failAt < |posts| then failAt else |posts|],
                              before.dirty || err == NoError, before.applied + |events|,
                              before.rejected + |calls| - |events|);
            BatchDone(cfg, self, counter, counter', calls, false, false, failAt, before, after, err)
  {
    WinsAndLosses(cfg, before.data, LocalOps(cfg, self, counter, calls));
  }

  lemma BatchCut<T>(cfg: Config<T>, self: GoString, counter: nat, counter': nat, calls: seq<Call<T>>, failAt: nat,
                    before: Face<T>, data: Data<T>, events: seq<Event<T>>, posts: seq<WireMessage>)
    requires InBatch(cfg, self, counter, before.data, calls, data, counter', events, posts)
    requires |events| <= |calls|
    ensures BatchDone(cfg, self, counter, counter', calls, false, true, failAt, before,
                      before.(data := data, applied := before.applied + |events|,
                              rejected := before.rejected + |calls| - |events|), ErrMarshal)
  {
    WinsAndLosses(cfg, before.data, LocalOps(cfg, self, counter, calls));
  }

  lemma NoCalls<T>(cfg: Config<T>, self: GoString, counter: nat, face: Face<T>, failAt: nat)
    ensures BatchDone(cfg, self, counter, counter, [], false, false, failAt, face, face, NoError)
    ensures forall cut :: BatchDone(cfg, self, counter, counter, [], true, cut, failAt, face, face, ErrClosed)
  {
    var none: seq<Op<T>> := [];
    assert LocalOps<T>(cfg, self, counter, []) == none && Installs(cfg, face.data, none) == [];
    assert face.dispatched + [] == face.dispatched && face.published + [] == face.published;
  }

  lemma SetManyView<T>(cfg: Config<T>, data: Data<T>, self: GoString, counter: nat, items: seq<(GoString, T)>,
                       kvs: map<GoString, T>, now: int)
    requires Lists(items, kvs)
    ensures OwnCounted(data, self, counter) ==>
              View(Run(cfg, data, LocalOps(cfg, self, counter, SetCalls(items, now)))) ==
              BatchView(cfg, data, self, now, map k | k in kvs :: (KindSet, kvs[k]))
  {
    if OwnCounted(data, self, counter) {
      SetCallsCarryOut(items, kvs, now);
      BatchRefinesSingles(cfg, data, self, counter, SetCalls(items, now), map k | k in kvs :: (KindSet, kvs[k]), now);
    }
  }

  /** Setting this item would leave the live view as it is: it loses, or it stores what is shown already. */
  ghost predicate Idle<T>(cfg: Config<T>, data: Data<T>, self: GoString, now: int, k: GoString, v: T) {
    Admits(data, self, now, k) ==>
      k in View(data) && View(data)[k] == if cfg.merger.Some? then cfg.merger.value(View(data)[k], v) else v
  }

  function SetBatch<T>(kvs: map<GoString, T>): map<GoString, (Kind, T)> {
    map k | k in kvs :: (KindSet, kvs[k])
  }

  /** Both views show the same under `k`. */
  predicate SameAt<T(==)>(v: map<GoString, T>, v': map<GoString, T>, k: GoString) {
    (k in v <==> k in v') && (k in v ==> v[k] == v'[k])
  }

  lemma SameEverywhere<T>(v: map<GoString, T>, v': map<GoString, T>)
    requires forall k {:trigger SameAt(v, v', k)} :: SameAt(v, v', k)
    ensures v == v'
  {
    forall k ensures (k in v <==> k in v') && (k in v ==> v[k] == v'[k]) {
      assert SameAt(v, v', k);
    }
  }

  /** Under each key a batch shows the old view exactly when it has no item there or an idle one. */
  lemma BatchAt<T>(cfg: Config<T>, data: Data<T>, self: GoString, now: int, part: map<GoString, T>, k: GoString)
    ensures SameAt(BatchView(cfg, data, self, now, SetBatch(part)), View(data), k) <==>
            (k in part ==> Idle(cfg, data, self, now, k, part[k]))
  {
  }

  /** Under a shared item two batches show the same. */
  lemma BatchesAgreeAt<T>(cfg: Config<T>, data: Data<T>, self: GoString, now: int, part: map<GoString, T>,
                          kvs: map<GoString, T>, k: GoString)
    requires k in part && k in kvs && part[k] == kvs[k]
    ensures SameAt(BatchView(cfg, data, self, now, SetBatch(part)), BatchView(cfg, data, self, now, SetBatch(kvs)), k)
  {
  }

  /** The item would change the live view. */
  ghost predicate Changes<T>(cfg: Config<T>, data: Data<T>, self: GoString, now: int, kvs: map<GoString, T>,
                             k: GoString) {
    k in kvs && !Idle(cfg, data, self, now, k, kvs[k])
  }

  /** No item that marshals changes the view besides another that does. */
  ghost predicate OneChange<T>(cfg: Config<T>, data: Data<T>, self: GoString, now: int, kvs: map<GoString, T>) {
    forall j, k ::
      && Changes(cfg, data, self, now, kvs, j) && cfg.codec.marshal(kvs[j]).Some?
      && Changes(cfg, data, self, now, kvs, k)
      ==> j == k
  }

  /** A batch cut short at `part` shows readers the view before it, or the view the whole batch would show. */
  ghost predicate ShowsAllOrNone<T>(cfg: Config<T>, data: Data<T>, self: GoString, now: int, part: map<GoString, T>,
                                    kvs: map<GoString, T>) {
    var shown := BatchView(cfg, data, self, now, SetBatch(part));
    shown == View(data) || shown == BatchView(cfg, data, self, now, SetBatch(kvs))
  }

  lemma OneChangeIsWhole<T>(cfg: Config<T>, data: Data<T>, self: GoString, now: int, part: map<GoString, T>,
                            kvs: map<GoString, T>)
    requires Blocked(cfg, part, kvs) && OneChange(cfg, data, self, now, kvs)
    ensures ShowsAllOrNone(cfg, data, self, now, part, kvs)
  {
    var shown, whole := BatchView(cfg, data, self, now, SetBatch(part)), BatchView(cfg, data, self, now, SetBatch(kvs));
    if j :| j in part && Changes(cfg, data, self, now, kvs, j) {
      forall k ensures SameAt(shown, whole, k) {
        if k in part {
          BatchesAgreeAt(cfg, data, self, now, part, kvs, k);
        } else {
          assert Changes(cfg, data, self, now, kvs, k) ==> j == k;
          BatchAt(cfg, data, self, now, part, k);
          BatchAt(cfg, data, self, now, kvs, k);
        }
      }
      SameEverywhere(shown, whole);
    } else {
      forall k ensures SameAt(shown, View(data), k) {
        assert k in part ==> !Changes(cfg, data, self, now, kvs, k);
        BatchAt(cfg, data, self, now, part, k);
      }
      SameEverywhere(shown, View(data));
    }
  }

  /** Two changes, one of which marshals, can be separated. */
  lemma TwoChangesShow<T>(cfg: Config<T>, data: Data<T>, self: GoString, now: int, kvs: map<GoString, T>, j: GoString,
                          k: GoString)
    requires Changes(cfg, data, self, now, kvs, j) && Changes(cfg, data, self, now, kvs, k) && j != k
    ensures !ShowsAllOrNone(cfg, data, self, now, map[j := kvs[j]], kvs)
  {
    var part := map[j := kvs[j]];
    BatchAt(cfg, data, self, now, part, j);
    BatchAt(cfg, data, self, now, part, k);
    BatchAt(cfg, data, self, now, kvs, k);
    assert !SameAt(BatchView(cfg, data, self, now, SetBatch(part)), View(data), j);
  }

  /**
   When SetMany keeps its all-or-none promise to readers, whatever order the items are visited in: exactly when
   every value marshals, or no item that marshals changes the view besides another item that does.
   */
  lemma AllOrNone<T(!new)>(cfg: Config<T>, data: Data<T>, self: GoString, now: int, kvs: map<GoString, T>)
    ensures (forall part {:trigger Blocked(cfg, part, kvs)} :: Blocked(cfg, part, kvs) ==>
             ShowsAllOrNone(cfg, data, self, now, part, kvs)) <==>
            !Unmarshallable(cfg, kvs) || OneChange(cfg, data, self, now, kvs)
  {
    if OneChange(cfg, data, self, now, kvs) {
      forall part | Blocked(cfg, part, kvs) ensures ShowsAllOrNone(cfg, data, self, now, part, kvs) {
        OneChangeIsWhole(cfg, data, self, now, part, kvs);
      }
    } else if Unmarshallable(cfg, kvs) {
      var j, k :| Changes(cfg, data, self, now, kvs, j) && Changes(cfg, data, self, now, kvs, k)
          && cfg.codec.marshal(kvs[j]).Some? && j != k;
      assert Blocked(cfg, map[j := kvs[j]], kvs);
      TwoChangesShow(cfg, data, self, now, kvs, j, k);
    }
  }

  /** A batch of two, one of which does not marshal, visited last: readers see neither the old view nor the batch's. */
  lemma HalfABatch<T>(cfg: Config<T>, self: GoString, good: T, bad: T)
    requires cfg.codec.marshal(good).Some? && cfg.codec.marshal(bad).None?
    ensures var kvs: map<GoString, T> := map[[97] := good, [98] := bad];
            var part: map<GoString, T> := map[[97] := good];
            var after := View(Run(cfg, map[], LocalOps(cfg, self, 0, SetCalls([([97], good)], 1))));
            && Lists([([97], good)], part) && Blocked(cfg, part, kvs)
            && after == part && after != View<T>(map[]) && after != BatchView(cfg, map[], self, 1, SetBatch(kvs))
  {
    var a: GoString, b: GoString := [97], [98];
    var kvs, part := map[a := good, b := bad], map[a := good];
    var items, none: Data<T> := [(a, good)], map[];
    assert items[0].0 == a && Listed(items, a);
    assert kvs[b] == bad;
    SetManyView(cfg, none, self, 0, items, part, 1);
    assert BatchView(cfg, none, self, 1, SetBatch(part)) == part;
    assert SetBatch(part) == map k | k in part :: (KindSet, part[k]);
    assert b in BatchView(cfg, none, self, 1, SetBatch(kvs)) && b !in part && a !in View(none);
  }

  lemma DeleteManyView<T>(cfg: Config<T>, data: Data<T>, self: GoString, counter: nat, keys: seq<GoString>, now: int)
    ensures OwnCounted(data, self, counter) ==>
              View(Run(cfg, data, LocalOps(cfg, self, counter, DeleteCalls(keys, cfg.zero, now)))) ==
              BatchView(cfg, data, self, now, map k | k in keys :: (KindDelete, cfg.zero))
  {
    if OwnCounted(data, self, counter) {
      DeleteCallsCarryOut(keys, cfg.zero, now);
      BatchRefinesSingles(cfg, data, self, counter, DeleteCalls(keys, cfg.zero, now),
                          map k | k in keys :: (KindDelete, cfg.zero), now);
    }
  }

  /**
   The face after a single local write. It is reconciled, with one event if it won; and it is
   published and marked dirty exactly when it won and the transport took it. A losing write
   is silent and an unpublished one not marked.
   */
  function Written<T>(cfg: Config<T>, w: Write<T>, m: WireMessage, publishOk: bool, f: Face<T>): Face<T> {
    var offered := Offered(cfg, w, f);
    if LwwAccept(f.data, w.key, w.stamp) && publishOk then
      offered.(published := offered.published + [m], dirty := true)
    else offered
  }

  /** What a single local write with its message does, and what its caller is told. */
  ghost predicate Wrote<T>(cfg: Config<T>, w: Write<T>, publishOk: bool, before: Face<T>, after: Face<T>, err: Error) {
    && Encode(cfg, w).Some?
    && after == Written(cfg, w, Encode(cfg, w).value, publishOk, before)
    && err == if LwwAccept(before.data, w.key, w.stamp) && !publishOk then ErrBroadcast else NoError
  }

  /** A local write is reconciled like any other, and what it dispatched replays it. */
  lemma WroteReplays<T>(cfg: Config<T>, w: Write<T>, publishOk: bool, before: Face<T>, after: Face<T>, err: Error)
    requires Wrote(cfg, w, publishOk, before, after, err)
    ensures after.data == Apply(cfg, before.data, w)
            && Replays(before.data, before.dispatched, after.data, after.dispatched)
  {
    OneOfferReplays(cfg, before.data, w, before.dispatched);
    assert before.dispatched + [] == before.dispatched;
  }

  /**
   What a TrySet whose version matched has done to the store it found after the check. If the store was closed by
   then or the value does not marshal it is as it was; otherwise this is a single local write.
   */
  ghost predicate TriedSet<T>(cfg: Config<T>, w: Write<T>, closed: bool, publishOk: bool, counter: nat, counter': nat,
                              mid: Face<T>, after: Face<T>, err: Error)
  {
    if closed || cfg.codec.marshal(w.value).None? then
      err == (if closed then ErrClosed else ErrMarshal) && after == mid && counter' == counter
    else Wrote(cfg, w, publishOk, mid, after, err) && counter' == counter + 1
  }

  /**
   The map changes exactly when the store is still open, the value marshals and the write beats what the map holds
   after the check; without a merger the value is then readable.
   */
  lemma TriedSetChanges<T>(cfg: Config<T>, w: Write<T>, closed: bool, publishOk: bool, counter: nat, counter': nat,
                           mid: Face<T>, after: Face<T>, err: Error)
    requires w.kind.KindSet? && TriedSet(cfg, w, closed, publishOk, counter, counter', mid, after, err)
    ensures var wins := !closed && cfg.codec.marshal(w.value).Some? && LwwAccept(mid.data, w.key, w.stamp);
            && (after.data != mid.data <==> wins)
            && (wins && cfg.merger.None? ==> w.key in View(after.data) && View(after.data)[w.key] == w.value)
  {
    StampTrichotomy(w.stamp, w.stamp);
  }

  class Store<T(!new)> {
    const self: GoString
    const cfg: Config<T>
    var seqno: nat
    var data: Data<T>
    var closed: bool
    var dirty: bool
    var writesLocal: nat
    var writesApplied: nat
    var writesRejected: nat
    var keysLive: int
    var tombstones: int
    var tombstonesGCed: nat
    var snapshotsStored: nat
    ghost var owed: nat        // collected tombstones whose decrement is pending or was skipped
    ghost var removed: nat     // tombstones collected so far
    ghost var loaded: nat      // entries loaded from a snapshot at start
    ghost var dispatched: seq<Event<T>>
    ghost var published: seq<WireMessage>

    /** Holds whenever the store's lock is free. */
    ghost predicate Valid()
      reads this
    {
      && Counted(data, keysLive, tombstones, owed)
      && ZeroTombstones(cfg, data)
      && writesApplied + loaded >= |data| + removed
    }

    ghost function Shown(): Face<T>
      reads this
    {
      Face(data, dispatched, published, dirty, writesApplied, writesRejected)
    }

    constructor (self: GoString, cfg: Config<T>)
      ensures Valid() && this.self == self && this.cfg == cfg && data == map[] && seqno == 0 && !closed && !dirty
      ensures dispatched == [] && published == [] && owed == 0 && removed == 0 && loaded == 0
      ensures writesLocal == 0 && writesApplied == 0 && writesRejected == 0 && tombstonesGCed == 0
              && snapshotsStored == 0
    {
      this.self, this.cfg := self, cfg;
      seqno, data, closed, dirty := 0, map[], false, false;
      writesLocal, writesApplied, writesRejected, snapshotsStored := 0, 0, 0, 0;
      keysLive, tombstones, tombstonesGCed := 0, 0, 0;
      owed, removed, loaded, dispatched, published := 0, 0, 0, [], [];
    }

    // -------------------------------------------------------------- readers

    method Get(key: GoString) returns (value: T, ok: bool)
      ensures ok <==> key in View(data)
      ensures value == if ok then View(data)[key] else cfg.zero
    {
      if key !in data || data[key].tombstone {
        return cfg.zero, false;
      }
      return data[key].value, true;
    }

    method Keys() returns (out: seq<GoString>)
      ensures Distinct(out) && forall k :: k in out <==> k in View(data)
    {
      out := [];
      var todo := data.Keys;
      while todo != {}
        invariant todo <= data.Keys && Distinct(out)
        invariant forall k :: k in out <==> k in View(data) && k !in todo
        decreases todo
      {
        var k :| k in todo;
        todo := todo - {k};
        if !data[k].tombstone {
          out := out + [k];
        }
      }
    }

    method Version(key: GoString) returns (v: Version)
      ensures v.present <==> key in Versions(data)
      ensures v.present ==> v.stamp == Versions(data)[key]
      ensures !v.present ==> v == NO_VERSION
    {
      v := VersionOf(data, key);
    }

    // -------------------------------------------------------------- applying writes

    method TrackTransition(prevLive: bool, prevTomb: bool, nowLive: bool, nowTomb: bool)
      modifies this`keysLive, this`tombstones
      ensures keysLive == old(keysLive) + (if nowLive then 1 else 0) - (if prevLive then 1 else 0)
      ensures tombstones == old(tombstones) + (if nowTomb then 1 else 0) - (if prevTomb then 1 else 0)
    {
      if prevLive && !nowLive {
        keysLive := keysLive - 1;
      }
      if !prevLive && nowLive {
        keysLive := keysLive + 1;
      }
      if prevTomb && !nowTomb {
        tombstones := tombstones - 1;
      }
      if !prevTomb && nowTomb {
        tombstones := tombstones + 1;
      }
    }

    /** Put an entry into the map and keep the counters in step. */
    method Install(key: GoString, e: Entry<T>)
      requires Valid() && (e.tombstone ==> e.value == cfg.zero)
      modifies this`data, this`writesApplied, this`keysLive, this`tombstones
      ensures Valid() && data == old(data)[key := e] && writesApplied == old(writesApplied) + 1
    {
      CountInstall(data, key, e);
      var prevLive := key in data && !data[key].tombstone;
      var prevTomb := key in data && data[key].tombstone;
      data := data[key := e];
      writesApplied := writesApplied + 1;
      TrackTransition(prevLive, prevTomb, !e.tombstone, e.tombstone);
    }

    /** applyMessage: reconcile, then dispatch while the lock is held. */
    method ApplyMessage(w: Write<T>) returns (applied: bool)
      requires Valid() && (w.kind.KindDelete? ==> w.value == cfg.zero)
      modifies this`data, this`writesApplied, this`writesRejected, this`keysLive, this`tombstones, this`dispatched
      ensures Valid() && applied == LwwAccept(old(data), w.key, w.stamp)
      ensures Shown() == Offered(cfg, w, old(Shown()))
      ensures data == Apply(cfg, old(data), w) && Replays(old(data), old(dispatched), data, dispatched)
    {
      OneOfferReplays(cfg, data, w, dispatched);
      if !LwwAccept(data, w.key, w.stamp) {
        writesRejected := writesRejected + 1;
        return false;
      }
      var value := w.value;
      if cfg.merger.Some? && w.kind.KindSet? && w.key in data && !data[w.key].tombstone {
        value := cfg.merger.value(data[w.key].value, value);
      }
      Install(w.key, Entry(value, w.stamp, w.kind.KindDelete?));
      dispatched := dispatched + [EventOf(w.key, data[w.key])];
      return true;
    }

    /** handleRaw: an envelope that does not parse is None. */
    method HandleRaw(raw: Option<WireMessage>)
      requires Valid()
      modifies this`data, this`writesApplied, this`writesRejected, this`keysLive, this`tombstones, this`dispatched
      ensures Valid()
      ensures data == if raw.None? then old(data) else Receive(cfg, self, old(data), raw.value)
      ensures Shown() == if raw.Some? && raw.value.stamp.origin != self && Decode(cfg, raw.value).Some?
                         then Offered(cfg, Decode(cfg, raw.value).value, old(Shown())) else old(Shown())
      ensures Replays(old(data), old(dispatched), data, dispatched)
    {
      assert Replays(data, dispatched, data, dispatched) by {
        assert dispatched[|dispatched|..] == [];
      }
      if raw.None? {
        return;
      }
      var msg := raw.value;
      if msg.v > PROTOCOL_VERSION {
        return;
      }
      if msg.stamp.origin == self {
        return;
      }
      var value := cfg.zero;
      if msg.kind.KindSet? {
        match cfg.codec.unmarshal(msg.payload) {
          case None => return;
          case Some(v) => value := v;
        }
      }
      var _ := ApplyMessage(Write(msg.key, msg.kind, value, msg.stamp));
    }

    // -------------------------------------------------------------- single local writes

    /** What Set and Delete share once the value is known to marshal. */
    method WriteLocal(w: Write<T>, m: WireMessage, publishOk: bool) returns (err: Error)
      requires Valid() && (w.kind.KindDelete? ==> w.value == cfg.zero) && Encode(cfg, w) == Some(m)
      modifies this`data, this`writesApplied, this`writesRejected, this`keysLive, this`tombstones, this`dispatched,
               this`published, this`dirty
      ensures Valid() && Wrote(cfg, w, publishOk, old(Shown()), Shown(), err)
    {
      var applied := ApplyMessage(w);
      if !applied {
        return NoError;
      }
      if !publishOk {
        return ErrBroadcast;
      }
      published := published + [m];
      dirty := true;
      return NoError;
    }

    /** Set: nothing of a losing write leaves the node, and its caller is not told. */
    method Set(key: GoString, value: T, now: int, publishOk: bool) returns (err: Error)
      requires Valid()
      modifies this`seqno, this`writesLocal, this`data, this`writesApplied, this`writesRejected, this`keysLive,
               this`tombstones, this`dispatched, this`published, this`dirty
      ensures Valid()
      ensures err == ErrClosed <==> old(closed)
      ensures err == ErrMarshal <==> !old(closed) && cfg.codec.marshal(value).None?
      ensures err == ErrClosed || err == ErrMarshal ==> Shown() == old(Shown()) && seqno == old(seqno)
      ensures writesLocal == old(writesLocal) + if err == ErrClosed then 0 else 1
      ensures err != ErrClosed && err != ErrMarshal ==>
                && seqno == old(seqno) + 1
                && Wrote(cfg, Write(key, KindSet, value, Stamp(now, self, seqno)), publishOk, old(Shown()), Shown(),
                         err)
    {
      if closed {
        return ErrClosed;
      }
      writesLocal := writesLocal + 1;
      var payload := cfg.codec.marshal(value);
      if payload.None? {
        return ErrMarshal;
      }
      err := SetPayload(key, value, payload.value, now, publishOk);
    }

    method SetPayload(key: GoString, value: T, payload: Bytes, now: int, publishOk: bool) returns (err: Error)
      requires Valid() && cfg.codec.marshal(value) == Some(payload)
      modifies this`seqno, this`data, this`writesApplied, this`writesRejected, this`keysLive, this`tombstones,
               this`dispatched, this`published, this`dirty
      ensures Valid() && seqno == old(seqno) + 1
      ensures Wrote(cfg, Write(key, KindSet, value, Stamp(now, self, seqno)), publishOk, old(Shown()), Shown(), err)
    {
      seqno := seqno + 1;
      var stamp := Stamp(now, self, seqno);
      err := WriteLocal(Write(key, KindSet, value, stamp),
                        WireMessage(PROTOCOL_VERSION, KindSet, key, payload, stamp), publishOk);
    }

    method Delete(key: GoString, now: int, publishOk: bool) returns (err: Error)
      requires Valid()
      modifies this`seqno, this`writesLocal, this`data, this`writesApplied, this`writesRejected, this`keysLive,
               this`tombstones, this`dispatched, this`published, this`dirty
      ensures Valid()
      ensures err == ErrClosed <==> old(closed)
      ensures err == ErrClosed ==> Shown() == old(Shown()) && seqno == old(seqno)
      ensures writesLocal == old(writesLocal) + if err == ErrClosed then 0 else 1
      ensures err != ErrClosed ==>
                && seqno == old(seqno) + 1
                && Wrote(cfg, Write(key, KindDelete, cfg.zero, Stamp(now, self, seqno)), publishOk, old(Shown()),
                         Shown(), err)
    {
      if closed {
        return ErrClosed;
      }
      writesLocal := writesLocal + 1;
      seqno := seqno + 1;
      var stamp := Stamp(now, self, seqno);
      err := WriteLocal(Write(key, KindDelete, cfg.zero, stamp),
                        WireMessage(PROTOCOL_VERSION, KindDelete, key, [], stamp), publishOk);
    }

    /** Writes of other goroutines and peers, each under the lock for itself. */
    method Meanwhile(ws: seq<Write<T>>)
      requires Valid() && forall i :: 0 <= i < |ws| ==> (ws[i].kind.KindDelete? ==> ws[i].value == cfg.zero)
      modifies this`data, this`writesApplied, this`writesRejected, this`keysLive, this`tombstones, this`dispatched
      ensures Valid() && Shown() == Reconciled(cfg, old(Shown()), Offers(ws))
    {
      ghost var before := Shown();
      assert before.dispatched + [] == before.dispatched;
      for i := 0 to |ws|
        invariant Valid() && Shown() == Reconciled(cfg, before, Offers(ws[..i]))
      {
        assert Offers(ws[..i + 1]) == Offers(ws[..i]) + [Offer(ws[i])];
        ReconciledSnoc(cfg, before, Offers(ws[..i]), ws[i]);
        var _ := ApplyMessage(ws[i]);
      }
      assert ws[..|ws|] == ws;
    }

    /** What happens between the check of a TrySet and its Set. */
    method Interlude(ws: seq<Write<T>>, drawn: nat, closes: bool)
      requires Valid() && !closed && forall i :: 0 <= i < |ws| ==> (ws[i].kind.KindDelete? ==> ws[i].value == cfg.zero)
      modifies this`closed, this`seqno, this`data, this`writesApplied, this`writesRejected, this`keysLive,
               this`tombstones, this`dispatched
      ensures Valid() && closed == closes && seqno == old(seqno) + drawn
      ensures Shown() == Reconciled(cfg, old(Shown()), Offers(ws))
    {
      Meanwhile(ws);
      seqno := seqno + drawn;
      closed := closes;
    }

    /** The Set of a TrySet, on the store with this face and counter. */
    method SetTried(key: GoString, value: T, now: int, publishOk: bool, ghost counter: nat, ghost mid: Face<T>)
      returns (err: Error)
      requires Valid() && seqno == counter && Shown() == mid
      modifies this`seqno, this`writesLocal, this`data, this`writesApplied, this`writesRejected, this`keysLive,
               this`tombstones, this`dispatched, this`published, this`dirty
      ensures Valid()
      ensures TriedSet(cfg, Write(key, KindSet, value, Stamp(now, self, counter + 1)), closed, publishOk, counter,
                       seqno,
                       mid, Shown(), err)
      ensures writesLocal == old(writesLocal) + if closed then 0 else 1
    {
      err := Set(key, value, now, publishOk);
    }

    /**
     TrySet. Between the version check and the Set the writes `ws` land, `drawn` counter values are taken and the
     store may be closed. A true result says only that the version matched at the check: what follows is a Set on
     the store as it is by then; TriedSetChanges says when that changes the map.
     */
    method TrySet(key: GoString, value: T, prev: Version, ws: seq<Write<T>>, drawn: nat, closes: bool, now: int,
                  publishOk: bool)
      returns (ok: bool, err: Error)
      requires Valid() && forall i :: 0 <= i < |ws| ==> (ws[i].kind.KindDelete? ==> ws[i].value == cfg.zero)
      modifies this`closed, this`seqno, this`writesLocal, this`data, this`writesApplied, this`writesRejected,
               this`keysLive, this`tombstones, this`dispatched, this`published, this`dirty
      ensures Valid() && closed == (old(closed) || (ok && closes))
      ensures writesLocal == old(writesLocal) + if ok && !closes then 1 else 0
      ensures ok <==> !old(closed) && VersionOf(old(data), key) == prev
      ensures !ok ==>
              Shown() == old(Shown()) && seqno == old(seqno) && err == if old(closed) then ErrClosed else NoError
      ensures ok ==>
                TriedSet(cfg, Write(key, KindSet, value, Stamp(now, self, old(seqno) + drawn + 1)), closes, publishOk,
                         old(seqno) + drawn, seqno, Reconciled(cfg, old(Shown()), Offers(ws)), Shown(), err)
    {
      if closed {
        return false, ErrClosed;
      }
      if VersionOf(data, key) != prev {
        return false, NoError;
      }
      ghost var counter, mid := seqno + drawn, Reconciled(cfg, Shown(), Offers(ws));
      Interlude(ws, drawn, closes);
      err := SetTried(key, value, now, publishOk, counter, mid);
      return true, err;
    }

    // -------------------------------------------------------------- batches

    /** One locked iteration of a batch, without dispatch. */
    method ApplyInBatch(w: Write<T>) returns (applied: bool)
      requires Valid() && !w.kind.KindOther? && (w.kind.KindDelete? ==> w.value == cfg.zero)
      modifies this`data, this`writesApplied, this`writesRejected, this`keysLive, this`tombstones
      ensures Valid() && applied == LwwAccept(old(data), w.key, w.stamp) && data == Apply(cfg, old(data), w)
      ensures writesApplied == old(writesApplied) + (if applied then 1 else 0)
      ensures writesRejected == old(writesRejected) + (if applied then 0 else 1)
    {
      if !LwwAccept(data, w.key, w.stamp) {
        writesRejected := writesRejected + 1;
        return false;
      }
      var value := w.value;
      if cfg.merger.Some? && w.kind.KindSet? && w.key in data && !data[w.key].tombstone {
        value := cfg.merger.value(data[w.key].value, value);
      }
      Install(w.key, Entry(value, w.stamp, w.kind.KindDelete?));
      return true;
    }

    /** One call of a batch: take a counter value, reconcile, and queue the event and the message if it won. */
    method BatchOne(c: Call<T>, payload: Bytes, events: seq<Event<T>>, posts: seq<WireMessage>, ghost counter: nat,
                    ghost start: Data<T>, ghost calls: seq<Call<T>>)
      returns (events': seq<Event<T>>, posts': seq<WireMessage>)
      requires Valid() && InBatch(cfg, self, counter, start, calls, data, seqno, events, posts)
      requires (c.kind.KindSet? && cfg.codec.marshal(c.value) == Some(payload)) || (c.kind.KindDelete? && payload == [])
      modifies this`seqno, this`data, this`writesApplied, this`writesRejected, this`keysLive, this`tombstones
      ensures Valid() && InBatch(cfg, self, counter, start, calls + [c], data, seqno, events', posts')
      ensures writesApplied == old(writesApplied) + |events'| - |events|
      ensures writesApplied + writesRejected == old(writesApplied) + old(writesRejected) + 1
    {
      var w := Write(c.key, c.kind, if c.kind.KindDelete? then cfg.zero else c.value, Stamp(c.now, self, seqno + 1));
      var m := WireMessage(PROTOCOL_VERSION, c.kind, c.key, payload, w.stamp);
      InBatchSnoc(cfg, self, counter, start, calls, c, data, seqno, events, posts, w, m);
      seqno := seqno + 1;
      var applied := ApplyInBatch(w);
      if !applied {
        return events, posts;
      }
      return events + [EventOf(c.key, data[c.key])], posts + [m];
    }

    /** One item of SetMany. */
    method LockedSet(k: GoString, v: T, payload: Bytes, now: int, events: seq<Event<T>>, posts: seq<WireMessage>,
                     ghost counter: nat, ghost start: Data<T>, ghost items: seq<(GoString, T)>)
      returns (events': seq<Event<T>>, posts': seq<WireMessage>)
      requires Valid() && cfg.codec.marshal(v) == Some(payload)
      requires InBatch(cfg, self, counter, start, SetCalls(items, now), data, seqno, events, posts)
      modifies this`seqno, this`data, this`writesApplied, this`writesRejected, this`keysLive, this`tombstones
      ensures Valid()
              && InBatch(cfg, self, counter, start, SetCalls(items + [(k, v)], now), data, seqno, events', posts')
      ensures writesApplied == old(writesApplied) + |events'| - |events|
      ensures writesApplied + writesRejected == old(writesApplied) + old(writesRejected) + 1
    {
      assert SetCalls(items + [(k, v)], now) == SetCalls(items, now) + [Call(k, KindSet, v, now)];
      events', posts' := BatchOne(Call(k, KindSet, v, now), payload, events, posts, counter, start,
                                  SetCalls(items, now));
    }

    /** SetMany's locked loop over the map in whatever order Go iterates it; stops at a value that does not marshal. */
    method LockedSets(kvs: map<GoString, T>, now: int)
      returns (ghost items: seq<(GoString, T)>, ghost part: map<GoString, T>, events: seq<Event<T>>,
               posts: seq<WireMessage>, ok: bool)
      requires Valid()
      modifies this`seqno, this`data, this`writesApplied, this`writesRejected, this`keysLive, this`tombstones
      ensures Valid() && Lists(items, part) && (ok ==> part == kvs && !Unmarshallable(cfg, kvs))
              && (!ok ==> Blocked(cfg, part, kvs))
      ensures InBatch(cfg, self, old(seqno), old(data), SetCalls(items, now), data, seqno, events, posts)
      ensures writesApplied == old(writesApplied) + |events|
      ensures writesApplied + writesRejected == old(writesApplied) + old(writesRejected) + |items|
    {
      items, part, events, posts := [], map[], [], [];
      var todo := kvs.Keys;
      while todo != {}
        invariant Valid() && todo <= kvs.Keys && Visited(part, kvs, todo) && Lists(items, part)
        invariant forall k :: k in part ==> cfg.codec.marshal(kvs[k]).Some?
        invariant InBatch(cfg, self, old(seqno), old(data), SetCalls(items, now), data, seqno, events, posts)
        invariant writesApplied == old(writesApplied) + |events|
        invariant writesApplied + writesRejected == old(writesApplied) + old(writesRejected) + |items|
        decreases todo
      {
        var k :| k in todo;
        var payload := cfg.codec.marshal(kvs[k]);
        if payload.None? {
          return items, part, events, posts, false;
        }
        todo := todo - {k};
        ListsSnoc(items, part, k, kvs[k]);
        events, posts := LockedSet(k, kvs[k], payload.value, now, events, posts, old(seqno), old(data), items);
        items, part := items + [(k, kvs[k])], part[k := kvs[k]];
      }
      AllVisited(cfg, part, kvs);
      ok := true;
    }

    /** DeleteMany's locked loop. */
    method LockedDeletes(keys: seq<GoString>, now: int) returns (events: seq<Event<T>>, posts: seq<WireMessage>)
      requires Valid()
      modifies this`seqno, this`data, this`writesApplied, this`writesRejected, this`keysLive, this`tombstones
      ensures Valid()
              && InBatch(cfg, self, old(seqno), old(data), DeleteCalls(keys, cfg.zero, now), data, seqno, events, posts)
      ensures writesApplied == old(writesApplied) + |events|
      ensures writesApplied + writesRejected == old(writesApplied) + old(writesRejected) + |keys|
    {
      events, posts := [], [];
      for i := 0 to |keys|
        invariant Valid()
                  && InBatch(cfg, self, old(seqno), old(data), DeleteCalls(keys[..i], cfg.zero, now), data, seqno,
                             events, posts)
        invariant writesApplied == old(writesApplied) + |events|
        invariant writesApplied + writesRejected == old(writesApplied) + old(writesRejected) + i
      {
        ghost var calls := DeleteCalls(keys[..i], cfg.zero, now);
        assert DeleteCalls(keys[..i + 1], cfg.zero, now) == calls + [Call(keys[i], KindDelete, cfg.zero, now)];
        events, posts := BatchOne(Call(keys[i], KindDelete, cfg.zero, now), [], events, posts, old(seqno), old(data),
                                  calls);
      }
      assert keys[..|keys|] == keys;
    }

    /**
     Dispatch and publish a batch after the lock is released; the transport fails at message `failAt`, if it gets
     that far.
     */
    method FinishBatch(events: seq<Event<T>>, posts: seq<WireMessage>, failAt: nat) returns (err: Error)
      modifies this`dispatched, this`published, this`dirty
      ensures err == if failAt < |posts| then ErrBroadcast else NoError
      ensures Shown() ==
              Face(data, old(dispatched) + events,
                   old(published) + posts[..if failAt < |posts| then failAt else |posts|],
                   old(dirty) || err == NoError, writesApplied, writesRejected)
    {
      dispatched := dispatched + events;
      for i := 0 to |posts|
        invariant i <= failAt && published == old(published) + posts[..i]
        invariant dispatched == old(dispatched) + events && dirty == old(dirty)
      {
        if i == failAt {
          return ErrBroadcast;
        }
        published := published + [posts[i]];
      }
      dirty := true;
      return NoError;
    }

    /** What follows the locked loop of a batch. */
    method Conclude(ok: bool, events: seq<Event<T>>, posts: seq<WireMessage>, failAt: nat,
                    ghost counter: nat, ghost before: Face<T>, ghost calls: seq<Call<T>>)
      returns (err: Error)
      requires InBatch(cfg, self, counter, before.data, calls, data, seqno, events, posts) && |events| <= |calls|
      requires ok ==> calls != []
      requires Shown() == before.(data := data, applied := before.applied + |events|,
                                  rejected := before.rejected + |calls| - |events|)
      modifies this`dispatched, this`published, this`dirty
      ensures BatchDone(cfg, self, counter, seqno, calls, false, !ok, failAt, before, Shown(), err)
    {
      if !ok {
        BatchCut(cfg, self, counter, seqno, calls, failAt, before, data, events, posts);
        return ErrMarshal;
      }
      BatchFinishes(cfg, self, counter, seqno, calls, failAt, before, data, events, posts);
      err := FinishBatch(events, posts, failAt);
    }

    /** The part of SetMany behind its checks. */
    method SetManyOpen(kvs: map<GoString, T>, now: int, failAt: nat)
      returns (err: Error, ghost items: seq<(GoString, T)>, ghost part: map<GoString, T>)
      requires Valid() && kvs != map[]
      modifies this`seqno, this`data, this`writesApplied, this`writesRejected, this`keysLive, this`tombstones,
               this`dispatched, this`published, this`dirty
      ensures Valid() && Lists(items, part)
      ensures if Unmarshallable(cfg, kvs) then Blocked(cfg, part, kvs) else part == kvs
      ensures BatchDone(cfg, self, old(seqno), seqno, SetCalls(items, now), false, Unmarshallable(cfg, kvs), failAt,
                        old(Shown()), Shown(), err)
    {
      ghost var before, counter := Shown(), seqno;
      var events, posts, ok;
      items, part, events, posts, ok := LockedSets(kvs, now);
      if ok {
        ListsSome(items, kvs);
      }
      EventsFit(cfg, self, counter, before.data, SetCalls(items, now), data, seqno, events, posts);
      err := Conclude(ok, events, posts, failAt, counter, before, SetCalls(items, now));
    }

    /**
     SetMany: the same map, events and messages as single Sets at one clock reading in the order range yields the
     items; SetManyView says that the live view does not depend on that order. A value that does not marshal
     leaves the earlier ones applied but neither dispatched nor published.
     */
    method SetMany(kvs: map<GoString, T>, now: int, failAt: nat)
      returns (err: Error, ghost items: seq<(GoString, T)>, ghost part: map<GoString, T>)
      requires Valid()
      modifies this`seqno, this`writesLocal, this`data, this`writesApplied, this`writesRejected, this`keysLive,
               this`tombstones, this`dispatched, this`published, this`dirty
      ensures Valid() && Lists(items, part)
      ensures if old(closed) then part == map[]
              else if exists k :: k in kvs && cfg.codec.marshal(kvs[k]).None? then Blocked(cfg, part, kvs)
              else part == kvs
      ensures BatchDone(cfg, self, old(seqno), seqno, SetCalls(items, now), old(closed), Unmarshallable(cfg, kvs),
                        failAt,
                        old(Shown()), Shown(), err)
      ensures writesLocal == old(writesLocal) + if old(closed) then 0 else |kvs|
    {
      NoCalls(cfg, self, seqno, Shown(), failAt);
      items, part := [], map[];
      assert SetCalls<T>([], now) == [];
      if closed {
        return ErrClosed, items, part;
      }
      if kvs == map[] {
        return NoError, items, part;
      }
      writesLocal := writesLocal + |kvs|;
      err, items, part := SetManyOpen(kvs, now, failAt);
    }

    method DeleteManyOpen(keys: seq<GoString>, now: int, failAt: nat) returns (err: Error)
      requires Valid() && keys != []
      modifies this`seqno, this`data, this`writesApplied, this`writesRejected, this`keysLive, this`tombstones,
               this`dispatched, this`published, this`dirty
      ensures Valid()
      ensures BatchDone(cfg, self, old(seqno), seqno, DeleteCalls(keys, cfg.zero, now), false, false, failAt,
                        old(Shown()), Shown(), err)
    {
      ghost var before, counter := Shown(), seqno;
      var events, posts := LockedDeletes(keys, now);
      EventsFit(cfg, self, counter, before.data, DeleteCalls(keys, cfg.zero, now), data, seqno, events, posts);
      err := Conclude(true, events, posts, failAt, counter, before, DeleteCalls(keys, cfg.zero, now));
    }

    /** DeleteMany: likewise, repeated keys included. */
    method DeleteMany(keys: seq<GoString>, now: int, failAt: nat) returns (err: Error)
      requires Valid()
      modifies this`seqno, this`writesLocal, this`data, this`writesApplied, this`writesRejected, this`keysLive,
               this`tombstones, this`dispatched, this`published, this`dirty
      ensures Valid()
      ensures BatchDone(cfg, self, old(seqno), seqno, if old(closed) then [] else DeleteCalls(keys, cfg.zero, now),
                        old(closed), false, failAt, old(Shown()), Shown(), err)
      ensures writesLocal == old(writesLocal) + if old(closed) then 0 else |keys|
    {
      NoCalls(cfg, self, seqno, Shown(), failAt);
      if closed {
        return ErrClosed;
      }
      if keys == [] {
        assert DeleteCalls(keys, cfg.zero, now) == [];
        return NoError;
      }
      writesLocal := writesLocal + |keys|;
      err := DeleteManyOpen(keys, now, failAt);
    }

    // -------------------------------------------------------------- seed and load

    /**
     Seed: only into an empty store; the entries are those single Sets would have left, readers see the initial
     values, and nothing is dispatched or published.
     */
    method Seed(initial: map<GoString, T>, now: int) returns (err: Error, ghost items: seq<(GoString, T)>)
      requires Valid()
      modifies this`seqno, this`data, this`keysLive, this`writesLocal, this`writesApplied, this`dirty
      ensures Valid()
      ensures err == if old(closed) then ErrClosed else if old(data) != map[] then ErrSeedNonEmpty else NoError
      ensures err != NoError ==> data == old(data) && seqno == old(seqno) && dirty == old(dirty)
      ensures err == NoError ==>
                && Lists(items, initial) && seqno == old(seqno) + |items| && dirty
                && data == SeedData(self, old(seqno), items, now) && View(data) == initial
                && writesLocal == old(writesLocal) + |initial| && writesApplied == old(writesApplied) + |initial|
    {
      items := [];
      if closed {
        return ErrClosed, items;
      }
      if |data| > 0 {
        return ErrSeedNonEmpty, items;
      }
      var seeded;
      seeded, seqno, items := SeedEntries(self, seqno, initial, now);
      SeedView(cfg, self, old(seqno), items, initial, now);
      PutSeed(seeded, initial);
      dirty := true;
      return NoError, items;
    }

    /** Seed's map and counters, the counters being brought in step at the end as in the source. */
    method PutSeed(seeded: Data<T>, initial: map<GoString, T>)
      requires Valid() && data == map[] && seeded.Keys == initial.Keys && View(seeded) == initial
      modifies this`data, this`keysLive, this`writesLocal, this`writesApplied
      ensures Valid() && data == seeded
      ensures writesLocal == old(writesLocal) + |initial| && writesApplied == old(writesApplied) + |initial|
    {
      SizesOf<T>(map[], map[]);
      forall k | k in seeded ensures !seeded[k].tombstone {
        assert k in View(seeded);
      }
      SizesOf(seeded, initial);
      data := seeded;
      keysLive := keysLive + |initial|;
      writesLocal := writesLocal + |initial|;
      writesApplied := writesApplied + |initial|;
    }

    /** loadSnapshot, which New calls on the empty store; on an error New fails and the store is abandoned. */
    method LoadSnapshot(raw: Option<WireSnapshot>) returns (err: Error)
      requires Valid() && data == map[]
      modifies this`data, this`keysLive, this`tombstones, this`loaded
      ensures Valid()
      ensures err == if raw.None? then ErrMalformed else if raw.value.v > PROTOCOL_VERSION then ErrVersion
                     else if Decodable(cfg, raw.value.entries) then NoError else ErrDecode
      ensures err == NoError ==> Decodable(cfg, raw.value.entries) && data == DecodeEntries(cfg, raw.value.entries)
    {
      if raw.None? {
        return ErrMalformed;
      }
      if raw.value.v > PROTOCOL_VERSION {
        return ErrVersion;
      }
      var ok, decoded, live := DecodeAll(cfg, raw.value.entries);
      if !ok {
        return ErrDecode;
      }
      assert LiveKeys(data) == {} && TombKeys(data) == {};
      data := decoded;
      loaded := loaded + |data|;
      keysLive := keysLive + live;
      tombstones := tombstones + (|data| - live);
      PartitionSize(data);
      return NoError;
    }

    // -------------------------------------------------------------- refresh

    /** mergeSnapshot's locked loop: adopt what wins, in map iteration order, decoding only what wins. */
    method LockedMerge(entries: map<GoString, WireEntry>)
      returns (events: seq<Event<T>>, ok: bool, ghost order: seq<GoString>)
      requires Valid()
      modifies this`data, this`writesApplied, this`keysLive, this`tombstones
      ensures Valid() && Adopting(cfg, old(data), Winners(cfg, old(data), entries), order, data, events)
      ensures ok ==> forall k :: k in Winning(old(data), entries) ==> k in order
      ensures ok <==> !Spoiled(cfg, old(data), entries)
      ensures Announces(order, Winners(cfg, old(data), entries), events)
              && writesApplied == old(writesApplied) + |order|
    {
      events, order := [], [];
      var todo := entries.Keys;
      ghost var winners := Winners(cfg, data, entries);
      while todo != {}
        invariant Valid() && todo <= entries.Keys && Adopting(cfg, old(data), winners, order, data, events)
        invariant Untouched(old(data), order, data)
        invariant Announces(order, winners, events) && writesApplied == old(writesApplied) + |order|
        invariant forall k :: k in order ==> k !in todo
        invariant forall k :: k in Winning(old(data), entries) && k !in todo ==> k in order
        decreases todo
      {
        var k :| k in todo;
        todo := todo - {k};
        assert k !in order;
        if !LwwAccept(data, k, entries[k].stamp) {
          continue;
        }
        assert k in Winning(old(data), entries);
        match DecodeEntry(cfg, entries[k]) {
          case None =>
            return events, false, order;
          case Some(e) =>
            DecodedStamp(cfg, old(data), entries, k);
            AdoptingOne(cfg, old(data), winners, order, data, events, k);
            AnnouncesOne(order, winners, events, k);
            Install(k, e);
            events := events + [EventOf(k, e)];
            order := order + [k];
        }
      }
      ok := true;
    }

    /** The part of mergeSnapshot behind its checks. */
    method MergeEntries(entries: map<GoString, WireEntry>) returns (err: Error, ghost order: seq<GoString>)
      requires Valid()
      modifies this`data, this`writesApplied, this`keysLive, this`tombstones, this`dispatched
      ensures Valid() && err == (if Spoiled(cfg, old(data), entries) then ErrDecode else NoError)
      ensures Merged(cfg, entries, order, old(data), data, err) && writesApplied == old(writesApplied) + |order|
      ensures if err == NoError then Announced(cfg, old(data), entries, order, old(dispatched), dispatched)
              else dispatched == old(dispatched)
      ensures err == NoError ==> Replays(old(data), old(dispatched), data, dispatched)
    {
      ghost var before, was := data, dispatched;
      var events, ok;
      events, ok, order := LockedMerge(entries);
      AdoptingDone(cfg, before, entries, order, data, events, dispatched);
      if !ok {
        return ErrDecode, order;
      }
      dispatched := dispatched + events;
      assert dispatched[|was|..] == events;
      return NoError, order;
    }

    /**
     Refresh: for a decodable snapshot the map becomes the per-key merge whatever the iteration order,
     with one event per adopted entry, which replay it. A winning entry that does not decode aborts with
     part of the snapshot adopted and no event sent.
     */
    method MergeSnapshot(raw: Option<WireSnapshot>) returns (err: Error, ghost order: seq<GoString>)
      requires Valid()
      modifies this`data, this`writesApplied, this`keysLive, this`tombstones, this`dispatched
      ensures Valid() && writesApplied == old(writesApplied) + |order|
      ensures err == if raw.None? then ErrMalformed else if raw.value.v > PROTOCOL_VERSION then ErrVersion
                     else if Spoiled(cfg, old(data), raw.value.entries) then ErrDecode else NoError
      ensures err == ErrMalformed || err == ErrVersion ==> Shown() == old(Shown())
      ensures err == ErrDecode || err == NoError ==> Merged(cfg, raw.value.entries, order, old(data), data, err)
      ensures if err == NoError
              then Announced(cfg, old(data), raw.value.entries, order, old(dispatched), dispatched)
              else dispatched == old(dispatched)
      ensures err == NoError ==> Replays(old(data), old(dispatched), data, dispatched)
    {
      if raw.None? {
        return ErrMalformed, [];
      }
      if raw.value.v > PROTOCOL_VERSION {
        return ErrVersion, [];
      }
      err, order := MergeEntries(raw.value.entries);
    }

    // -------------------------------------------------------------- collection and persistence

    /** Delete one expired tombstone; the counter still counts it until SettleGc. */
    method DropTombstone(k: GoString)
      requires Valid() && k in data && data[k].tombstone
      modifies this`data, this`owed, this`removed
      ensures Valid() && data == old(data) - {k} && owed == old(owed) + 1 && removed == old(removed) + 1
      ensures |data| == |old(data)| - 1
    {
      CountRemove(data, k);
      data := data - {k};
      owed := owed + 1;
      removed := removed + 1;
    }

    /** The locked loop of gcTombstones. */
    method CollectLocked(cutoff: int) returns (gced: nat)
      requires Valid()
      modifies this`data, this`owed, this`removed
      ensures Valid() && data == Collect(old(data), cutoff)
      ensures owed == old(owed) + gced && removed == old(removed) + gced && gced == |old(data)| - |data|
    {
      gced := 0;
      var todo := data.Keys;
      while todo != {}
        invariant Valid() && todo <= data.Keys && data == Sweeping(old(data), todo, cutoff)
        invariant owed == old(owed) + gced && removed == old(removed) + gced && gced == |old(data)| - |data|
        decreases todo
      {
        var k :| k in todo;
        todo := todo - {k};
        if data[k].tombstone && data[k].stamp.timestamp < cutoff {
          DropTombstone(k);
          gced := gced + 1;
        }
      }
    }

    /** The counter updates after the lock is released. */
    method SettleGc(gced: nat)
      requires Valid() && gced <= owed
      modifies this`tombstones, this`tombstonesGCed, this`owed
      ensures Valid() && owed == old(owed) - gced && tombstonesGCed == old(tombstonesGCed) + gced
    {
      tombstones := tombstones - gced;
      tombstonesGCed := tombstonesGCed + gced;
      owed := owed - gced;
    }

    method GcTombstones(cutoff: int)
      requires Valid()
      modifies this`data, this`owed, this`removed, this`tombstones, this`tombstonesGCed, this`dirty
      ensures Valid() && data == Collect(old(data), cutoff) && owed == old(owed)
      ensures View(data) == View(old(data)) && Versions(data) == Versions(old(data))
      ensures dirty == (old(dirty) || data != old(data))
      ensures removed == old(removed) + |old(data)| - |data|
              && tombstonesGCed == old(tombstonesGCed) + |old(data)| - |data|
    {
      var gced := CollectLocked(cutoff);
      if gced > 0 {
        SettleGc(gced);
        dirty := true;
      } else {
        SameSizeSameMap(old(data), cutoff);
      }
    }

    /** persistSnapshot's locked loop: collect, and encode what stays; stops at a value that does not marshal. */
    method EncodeLocked(cutoff: int) returns (snap: Option<WireSnapshot>, gced: nat)
      requires Valid()
      modifies this`data, this`owed, this`removed
      ensures Valid() && owed == old(owed) + gced && removed == old(removed) + gced && gced == |old(data)| - |data|
      ensures snap.Some? ==>
                && data == Collect(old(data), cutoff) && Encodable(cfg, data)
                && snap.value == WireSnapshot(PROTOCOL_VERSION, EncodeEntries(cfg, data))
      ensures snap.None? ==> !Encodable(cfg, Collect(old(data), cutoff))
      ensures forall k :: k in data ==> k in old(data) && data[k] == old(data)[k]
      ensures forall k :: k in old(data) && k !in data ==> Expired(old(data)[k], cutoff)
    {
      gced := 0;
      var entries: map<GoString, WireEntry> := map[];
      var todo := data.Keys;
      while todo != {}
        invariant Valid() && todo <= data.Keys && data == Sweeping(old(data), todo, cutoff)
        invariant owed == old(owed) + gced && removed == old(removed) + gced && gced == |old(data)| - |data|
        invariant Encoding(cfg, data, todo, entries)
        decreases todo
      {
        var k :| k in todo;
        var e := data[k];
        SweepOne(old(data), todo, cutoff, k);
        EncodingOne(cfg, data, todo, entries, k);
        todo := todo - {k};
        if Expired(e, cutoff) {
          DropTombstone(k);
          gced := gced + 1;
          continue;
        }
        var encoded := EncodeEntry(cfg, e);
        if encoded.None? {
          assert Collect(old(data), cutoff)[k] == e;
          return None, gced;
        }
        entries := entries[k := encoded.value];
      }
      EncodingDone(cfg, data, entries);
      return Some(WireSnapshot(PROTOCOL_VERSION, entries)), gced;
    }

    /**
     persistSnapshot. On success the transport holds the map minus its expired tombstones. A failed encode or a
     failed store has already dropped the tombstones and never settles the counter for them.
     */
    method PersistSnapshot(cutoff: int, storeOk: bool) returns (ok: bool, stored: Option<WireSnapshot>)
      requires Valid()
      modifies this`data, this`owed, this`removed, this`tombstones, this`tombstonesGCed, this`snapshotsStored
      ensures Valid() && View(data) == View(old(data)) && Versions(data) == Versions(old(data))
      ensures ok <==> storeOk && Encodable(cfg, Collect(old(data), cutoff))
      ensures ok ==>
                && data == Collect(old(data), cutoff) && owed == old(owed) && Encodable(cfg, data)
                && stored == Some(WireSnapshot(PROTOCOL_VERSION, EncodeEntries(cfg, data)))
                && tombstonesGCed == old(tombstonesGCed) + (removed - old(removed))
      ensures !ok ==>
                stored == None && owed == old(owed) + (removed - old(removed)) && tombstonesGCed == old(tombstonesGCed)
      ensures forall k :: k in data ==> k in old(data) && data[k] == old(data)[k]
      ensures forall k :: k in old(data) && k !in data ==> Expired(old(data)[k], cutoff)
      ensures removed == old(removed) + |old(data)| - |data|
      ensures snapshotsStored == old(snapshotsStored) + if ok then 1 else 0
    {
      var snap, gced := EncodeLocked(cutoff);
      DroppedUnseen(old(data), data, cutoff);
      if snap.None? || !storeOk {
        return false, None;
      }
      snapshotsStored := snapshotsStored + 1;
      SettleGc(gced);
      return true, snap;
    }
  }

  /** A store that holds a peer's entry from a clock that runs ahead. */
  method PeerAhead() returns (store: Store<Byte>)
    ensures fresh(store) && store.Valid() && store.self == [97] && store.cfg == ByteConfig() && !store.closed
            && store.seqno == 0
    ensures store.data == map[[107] := Entry(1, Stamp(100, [98], 1), false)]
  {
    store := new Store([97], ByteConfig());
    store.HandleRaw(Some(WireMessage(PROTOCOL_VERSION, KindSet, [107], [1], Stamp(100, [98], 1))));
  }

  /** TrySet reports success for a write that lost against the very entry whose version it was given. */
  method TrySetLoses() returns (store: Store<Byte>, ok: bool, err: Error)
    ensures ok && err == NoError && store.data == map[[107] := Entry(1, Stamp(100, [98], 1), false)]
  {
    store := PeerAhead();
    ghost var held := store.data;
    assert Run(ByteConfig(), held, Offers([])) == held;
    ok, err := store.TrySet([107], 2, Version(Stamp(100, [98], 1), true), [], 0, false, 50, true);
  }
}
