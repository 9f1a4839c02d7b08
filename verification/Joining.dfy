/**
 Stores on the in-process broker, end to end: each subscribes, loads the broker's snapshot, and then handles its
 queue while it and others write, publish, persist, refresh and collect. The stores are the nodes of the cluster
 machine and the broker is its network, so every theorem about clusters holds here; what is added is when a late
 joiner has missed nothing. All stores share one topic; the broker keeps topics apart.
 */
module Joining {
  import opened Order
  import opened Replica
  import C = Cluster
  import B = Memory
  import Convergence

  /** `seats` gives each store its subscription; `loaded` is history: what the snapshot it started from knew. */
  datatype World<T(==)> = World(
    broker: B.Broker<WireMessage, C.Snap<T>>, cluster: C.Cluster<T>, seats: map<GoString, nat>,
    loaded: map<GoString, set<Write<T>>>)

  datatype Step<T(==)> =
    | Subscribe(n: GoString, id: nat)
    | Load(n: GoString)
    | Draw(n: GoString, key: GoString, kind: Kind, value: T, now: int)
    | ApplyDrawn(n: GoString, w: Write<T>)
    | Publish(from: nat, w: Write<T>)
    | Noise(from: nat, m: WireMessage)
    | SendTo(from: nat, id: nat)
    | End(from: nat)
    | Handle(n: GoString)
    | CollectSome(n: GoString, cutoff: int, reached: set<GoString>)
    | Persist(n: GoString, cutoff: int)
    | StoreSnapshot(snap: C.Snap<T>)
    | Refresh(n: GoString)
    | Close

  /** What FetchSnapshot returns. */
  function Fetched<T(==)>(topic: GoString, s: World<T>): Option<C.Snap<T>> {
    if topic in s.broker.snapshots then Some(s.broker.snapshots[topic]) else None
  }

  /** The store has subscribed and its queue is not empty. */
  predicate HasMail<T(==)>(s: World<T>, n: GoString) {
    n in s.seats && s.seats[n] in s.broker.chans && s.broker.chans[s.seats[n]].queue != []
  }

  function Head<T(==)>(s: World<T>, n: GoString): WireMessage
    requires HasMail(s, n)
  {
    s.broker.chans[s.seats[n]].queue[0].msg
  }

  /** What the step does at the broker, if anything. */
  function AtBroker<T(==)>(cfg: Config<T>, topic: GoString, s: World<T>,
                           step: Step<T>): Option<B.Step<WireMessage, C.Snap<T>>> {
    match step
    case Subscribe(_, id) => Some(B.Subscribe(topic, id))
    case Publish(from, w) => (match Encode(cfg, w) case None => None case Some(m) => Some(B.Begin(from, topic, m)))
    case Noise(from, m) => Some(B.Begin(from, topic, m))
    case SendTo(from, id) => Some(B.SendTo(from, id))
    case End(from) => Some(B.End(from))
    case Handle(n) => if n in s.seats then Some(B.Receive(s.seats[n])) else None
    case StoreSnapshot(snap) => Some(B.Snapshot(topic, snap))
    case Close => Some(B.Close)
    case _ => None
  }

  /** What the step does in the cluster, if anything; a message no store can decode was sent by none. */
  function InCluster<T(==)>(topic: GoString, s: World<T>, step: Step<T>): Option<C.Step<T>> {
    match step
    case Load(n) => Some(C.Boot(n, Fetched(topic, s)))
    case Draw(n, key, kind, value, now) => Some(C.Draw(n, key, kind, value, now))
    case ApplyDrawn(n, w) => Some(C.ApplyDrawn(n, w))
    case Publish(_, w) => Some(C.Publish(w))
    case Handle(n) => if HasMail(s, n) && Head(s, n) in s.cluster.sent then Some(C.Deliver(n, Head(s, n))) else None
    case CollectSome(n, cutoff, reached) => Some(C.CollectSome(n, cutoff, reached))
    case Persist(n, cutoff) => Some(C.Persist(n, cutoff))
    case Refresh(n) => (match Fetched(topic, s) case None => None case Some(snap) => Some(C.Refresh(n, snap)))
    case _ => None
  }

  /** Fetching and storing snapshots takes the broker's write lock. */
  predicate Lockable<T(==)>(s: World<T>) {
    B.Quiet(s.broker) && !s.broker.closed
  }

  ghost predicate Enabled<T>(cfg: Config<T>, topic: GoString, s: World<T>, step: Step<T>) {
    && (InCluster(topic, s, step).Some? ==> C.Enabled(cfg, s.cluster, InCluster(topic, s, step).value))
    && match step
       case Subscribe(n, id) => Lockable(s) && n !in s.seats && id !in s.broker.chans
       case Load(n) => Lockable(s) && n in s.seats
       case Publish(from, _) => !s.broker.closed && from !in s.broker.inflight
       case Noise(from, m) => !s.broker.closed && from !in s.broker.inflight && Decode(cfg, m).None?
       case Handle(n) => n in s.cluster.nodes && HasMail(s, n)
       case StoreSnapshot(snap) => Lockable(s) && snap in s.cluster.snaps
       case Refresh(n) => Lockable(s) && n in s.cluster.nodes
       case _ => true
  }

  ghost function Fire<T>(cfg: Config<T>, topic: GoString, s: World<T>, step: Step<T>): World<T>
    requires Enabled(cfg, topic, s, step)
  {
    World(
      if AtBroker(cfg, topic, s, step).Some? then B.Fire(s.broker, AtBroker(cfg, topic, s, step).value) else s.broker,
      if InCluster(topic, s, step).Some? then C.Fire(cfg, s.cluster, InCluster(topic, s, step).value) else s.cluster,
      if step.Subscribe? then s.seats[step.n := step.id] else s.seats,
      if step.Load?
      then s.loaded[step.n := if Fetched(topic, s).Some? then Fetched(topic, s).value.past.known else {}] else s.loaded)
  }

  ghost function After<T>(cfg: Config<T>, topic: GoString, steps: seq<Step<T>>): World<T> {
    if steps == [] then World(B.Empty(), C.Cluster(map[], {}, {}, {}, {}), map[], map[])
    else
      var s, step := After(cfg, topic, steps[..|steps| - 1]), steps[|steps| - 1];
      if Enabled(cfg, topic, s, step) then Fire(cfg, topic, s, step) else s
  }

  // ---------------------------------------------------------------- what a store's steps do

  /** A store that handles its mail takes the oldest message, and its map receives what a store sent. */
  lemma HandleReceives<T(!new)>(cfg: Config<T>, topic: GoString, s: World<T>, n: GoString)
    requires Enabled(cfg, topic, s, Handle(n)) && (Head(s, n) in s.cluster.sent || Decode(cfg, Head(s, n)).None?)
    ensures var s', c := Fire(cfg, topic, s, Handle(n)), s.broker.chans[s.seats[n]];
            && s'.broker.chans[s.seats[n]].taken == c.taken + [c.queue[0]]
            && s'.broker.chans[s.seats[n]].queue == c.queue[1..]
            && s'.cluster.nodes[n].data == Replica.Receive(cfg, n, s.cluster.nodes[n].data, c.queue[0].msg)
  {
  }

  /** A new store may subscribe, and start with nothing stored. */
  lemma StartsFromNothing<T(!new)>(cfg: Config<T>, topic: GoString, s: World<T>, n: GoString, id: nat)
    requires Lockable(s) && n !in s.seats && n !in s.cluster.nodes && id !in s.broker.chans && Fetched(topic, s).None?
    ensures Enabled(cfg, topic, s, Subscribe(n, id))
    ensures var s' := Fire(cfg, topic, s, Subscribe(n, id));
            && n in s'.seats && s'.seats[n] == id && id in s'.broker.chans && s'.broker.chans[id].queue == []
            && Enabled(cfg, topic, s', Load(n)) && n in Fire(cfg, topic, s', Load(n)).cluster.nodes
            && Fire(cfg, topic, s', Load(n)).cluster.nodes[n].data == map[]
  {
  }

  /** What a store has accepted it may publish: the message is logged and on its way to every subscriber. */
  lemma PublishLogs<T(!new)>(cfg: Config<T>, topic: GoString, s: World<T>, from: nat, w: Write<T>)
    requires !s.broker.closed && from !in s.broker.inflight && w in s.cluster.accepted && Encode(cfg, w).Some?
    ensures Enabled(cfg, topic, s, Publish(from, w))
    ensures var s', m := Fire(cfg, topic, s, Publish(from, w)), Encode(cfg, w).value;
            && B.LogOf(s'.broker, topic) == B.LogOf(s.broker, topic) + [B.Letter(from, m)] && m in s'.cluster.sent
            && from in s'.broker.inflight && s'.broker.inflight[from].todo == B.Subscribers(s.broker, topic)
  {
  }

  /** A running store may draw a write, persist what it can encode and handle its mail, and a publish may end. */
  lemma StoresCanMove<T(!new)>(cfg: Config<T>, topic: GoString, s: World<T>, n: GoString, step: Step<T>, from: nat,
                               cutoff: int)
    requires n in s.cluster.nodes && step.Draw? && step.n == n && !step.kind.KindOther?
    ensures Enabled(cfg, topic, s, step) && Fire(cfg, topic, s, step).cluster.nodes[n].drawn != {}
    ensures Encodable(cfg, Collect(s.cluster.nodes[n].data, cutoff)) ==> Enabled(cfg, topic, s, Persist(n, cutoff))
    ensures HasMail(s, n) ==> Enabled(cfg, topic, s, Handle(n))
    ensures from in s.broker.inflight && s.broker.inflight[from].todo == {} ==>
              from !in Fire(cfg, topic, s, End(from)).broker.inflight
  {
    var node := s.cluster.nodes[n];
    assert C.NewWrite(cfg, node, C.Draw(n, step.key, step.kind, step.value, step.now)) in Fire(cfg, topic, s,
            step).cluster.nodes[n].drawn;
  }

  /** A message on its way to a subscriber with room is then the last in its queue. */
  lemma SendArrives<T(!new)>(cfg: Config<T>, topic: GoString, s: World<T>, from: nat, id: nat)
    requires from in s.broker.inflight && id in s.broker.inflight[from].todo && id in s.broker.chans
    requires |s.broker.chans[id].queue| < 256
    ensures var s' := Fire(cfg, topic, s, SendTo(from, id));
            && id in s'.broker.chans && id !in s'.broker.inflight[from].todo
            && s'.broker.chans[id].queue == s.broker.chans[id].queue + [B.Letter(from, s.broker.inflight[from].msg)]
  {
  }

  /** What is stored is what a store that starts or refreshes reads; starting decodes it and refreshing merges it. */
  lemma SnapshotPasses<T(!new)>(cfg: Config<T>, topic: GoString, s: World<T>, snap: C.Snap<T>, n: GoString)
    requires Enabled(cfg, topic, s, StoreSnapshot(snap)) && Decodable(cfg, snap.wire)
    ensures var s' := Fire(cfg, topic, s, StoreSnapshot(snap));
            && Fetched(topic, s') == Some(snap)
            && (n in s.seats && n !in s.cluster.nodes ==>
                  && Enabled(cfg, topic, s', Load(n)) && n in Fire(cfg, topic, s', Load(n)).cluster.nodes
                  && Fire(cfg, topic, s', Load(n)).cluster.nodes[n].data == DecodeEntries(cfg, snap.wire))
            && (n in s.cluster.nodes ==>
                  && Enabled(cfg, topic, s', Refresh(n))
                  && Fire(cfg, topic, s', Refresh(n)).cluster.nodes[n].data ==
                     Merge(s.cluster.nodes[n].data, DecodeEntries(cfg, snap.wire)))
  {
  }

  /** A drawn write is reconciled with the author's map, and a tick collects the expired tombstones. */
  lemma LocalStepsAct<T(!new)>(cfg: Config<T>, topic: GoString, s: World<T>, n: GoString, w: Write<T>, cutoff: int)
    requires n in s.cluster.nodes
    ensures w in s.cluster.nodes[n].drawn ==>
              && Enabled(cfg, topic, s, ApplyDrawn(n, w))
              && Fire(cfg, topic, s, ApplyDrawn(n, w)).cluster.nodes[n].data == Apply(cfg, s.cluster.nodes[n].data, w)
    ensures var tick := CollectSome(n, cutoff, s.cluster.nodes[n].data.Keys);
            && Enabled(cfg, topic, s, tick)
            && Fire(cfg, topic, s, tick).cluster.nodes[n].data == Collect(s.cluster.nodes[n].data, cutoff)
  {
  }

  /** Once the broker is closed nothing is published, subscribed, stored or fetched any more. */
  lemma ClosedBrokerRefuses<T(!new)>(cfg: Config<T>, topic: GoString, s: World<T>, step: Step<T>)
    requires B.Quiet(s.broker)
    requires step.Subscribe? || step.Load? || step.Publish? || step.Noise? || step.StoreSnapshot? || step.Refresh?
    ensures Enabled(cfg, topic, s, Close) && !Enabled(cfg, topic, Fire(cfg, topic, s, Close), step)
  {
  }

  // ---------------------------------------------------------------- the broker is the cluster's network

  /** The cluster's part in a run. */
  ghost function Trace<T>(cfg: Config<T>, topic: GoString, steps: seq<Step<T>>): seq<C.Step<T>> {
    if steps == [] then []
    else
      var s, step := After(cfg, topic, steps[..|steps| - 1]), steps[|steps| - 1];
      Trace(cfg, topic, steps[..|steps| - 1]) +
      if Enabled(cfg, topic, s, step) && InCluster(topic, s, step).Some? then [InCluster(topic, s, step).value] else []
  }

  /** Every run of stores on the broker is a run of the cluster machine. */
  lemma {:induction false} WorldIsClusterRun<T(!new)>(cfg: Config<T>, topic: GoString, steps: seq<Step<T>>)
    ensures After(cfg, topic, steps).cluster == C.After(cfg, Trace(cfg, topic, steps))
  {
    if steps != [] {
      var init := steps[..|steps| - 1];
      WorldIsClusterRun(cfg, topic, init);
      var trace := Trace(cfg, topic, steps);
      if trace != Trace(cfg, topic, init) {
        assert trace[..|trace| - 1] == Trace(cfg, topic, init);
      }
    }
  }

  // ---------------------------------------------------------------- invariants

  /** The message was sent by a store, or no store can decode it. */
  ghost predicate Legit<T>(cfg: Config<T>, s: World<T>, m: WireMessage) {
    m in s.cluster.sent || Decode(cfg, m).None?
  }

  ghost predicate Seated<T>(topic: GoString, s: World<T>, n: GoString)
    requires n in s.seats
  {
    && s.seats[n] in s.broker.chans && s.broker.chans[s.seats[n]].topic == topic
    && (n !in s.cluster.nodes ==> s.broker.chans[s.seats[n]].taken == [])
    && forall n' :: n' in s.seats && n' != n ==> s.seats[n'] != s.seats[n]
  }

  /** A store knows what its first snapshot knew and every write it has been handed. */
  ghost predicate Informed<T>(cfg: Config<T>, s: World<T>, n: GoString)
    requires n in s.cluster.nodes
  {
    && n in s.seats && s.seats[n] in s.broker.chans && n in s.loaded
    && s.loaded[n] <= s.cluster.nodes[n].past.known
    && forall l :: l in s.broker.chans[s.seats[n]].taken ==> C.Carried(cfg, l.msg) <= s.cluster.nodes[n].past.known
  }

  ghost predicate Inv<T(!new)>(cfg: Config<T>, topic: GoString, s: World<T>) {
    && B.Inv(s.broker) && C.Inv(cfg, s.cluster)
    && (forall n {:trigger Seated(topic, s, n)} :: n in s.seats ==> Seated(topic, s, n))
    && (forall n {:trigger Informed(cfg, s, n)} :: n in s.cluster.nodes ==> Informed(cfg, s, n))
    && (forall l {:trigger Legit(cfg, s, l.msg)} :: l in B.LogOf(s.broker, topic) ==> Legit(cfg, s, l.msg))
    && (topic in s.broker.snapshots ==> s.broker.snapshots[topic] in s.cluster.snaps)
  }

  /** Nodes, what they know, messages and snapshots only ever grow. */
  lemma ClusterGrows<T>(cfg: Config<T>, s: C.Cluster<T>, step: C.Step<T>)
    requires C.Enabled(cfg, s, step)
    ensures var s' := C.Fire(cfg, s, step);
            && s.sent <= s'.sent && s.snaps <= s'.snaps && s.accepted <= s'.accepted && s.nodes.Keys <= s'.nodes.Keys
            && (!step.Boot? ==> s'.nodes.Keys == s.nodes.Keys)
            && (forall n :: n in s.nodes ==> s.nodes[n].past.known <= s'.nodes[n].past.known)
  {
  }

  /** A channel keeps its place, and what its consumer received changes only when it receives. */
  lemma ChannelKept<M, S>(b: B.Broker<M, S>, step: B.Step<M, S>, id: nat)
    requires id in b.chans
    ensures var b' := B.Fire(b, step);
            && id in b'.chans && b'.chans[id].topic == b.chans[id].topic && b'.chans[id].start == b.chans[id].start
            && b'.chans[id].taken ==
               b.chans[id].taken +
                   if step == B.Receive(id) && b.chans[id].queue != [] then [b.chans[id].queue[0]] else []
  {
    assert b.chans[id].taken + [] == b.chans[id].taken;
  }

  lemma LogGrowsBy<M, S>(b: B.Broker<M, S>, step: B.Step<M, S>, topic: GoString)
    ensures var log, log' := B.LogOf(b, topic), B.LogOf(B.Fire(b, step), topic);
            log' == log || (step.Begin? && step.topic == topic && log' == log + [B.Letter(step.from, step.msg)])
  {
  }

  lemma WorldGrows<T(!new)>(cfg: Config<T>, topic: GoString, s: World<T>, step: Step<T>)
    requires Enabled(cfg, topic, s, step)
    ensures var s' := Fire(cfg, topic, s, step);
            && s.cluster.sent <= s'.cluster.sent && s.cluster.snaps <= s'.cluster.snaps
               && s.cluster.nodes.Keys <= s'.cluster.nodes.Keys
            && (!step.Load? ==> s'.cluster.nodes.Keys == s.cluster.nodes.Keys && s'.loaded == s.loaded)
            && (forall n :: n in s.cluster.nodes ==> s.cluster.nodes[n].past.known <= s'.cluster.nodes[n].past.known)
            && B.LogOf(s.broker, topic) <= B.LogOf(s'.broker, topic)
  {
    if InCluster(topic, s, step).Some? {
      ClusterGrows(cfg, s.cluster, InCluster(topic, s, step).value);
    }
    if AtBroker(cfg, topic, s, step).Some? {
      LogGrowsBy(s.broker, AtBroker(cfg, topic, s, step).value, topic);
    }
  }

  lemma SeatedKept<T(!new)>(cfg: Config<T>, topic: GoString, s: World<T>, step: Step<T>, n: GoString)
    requires Inv(cfg, topic, s) && Enabled(cfg, topic, s, step) && n in Fire(cfg, topic, s, step).seats
    ensures Seated(topic, Fire(cfg, topic, s, step), n)
  {
    WorldGrows(cfg, topic, s, step);
    forall m | m in s.seats ensures Seated(topic, s, m) {
    }
    if n in s.seats && AtBroker(cfg, topic, s, step).Some? {
      ChannelKept(s.broker, AtBroker(cfg, topic, s, step).value, s.seats[n]);
      if step.Handle? && step.n in s.seats {
        assert Seated(topic, s, step.n);
      }
    }
  }

  lemma LegitKept<T(!new)>(cfg: Config<T>, topic: GoString, s: World<T>, step: Step<T>, l: B.Letter<WireMessage>)
    requires Inv(cfg, topic, s) && Enabled(cfg, topic, s, step) && l in B.LogOf(Fire(cfg, topic, s, step).broker, topic)
    ensures Legit(cfg, Fire(cfg, topic, s, step), l.msg)
  {
    WorldGrows(cfg, topic, s, step);
    if l in B.LogOf(s.broker, topic) {
      assert Legit(cfg, s, l.msg);
    } else {
      LogGrowsBy(s.broker, AtBroker(cfg, topic, s, step).value, topic);
    }
  }

  /** What a store is handed comes from the log, so it knows the write it carries. */
  lemma HandledIsKnown<T(!new)>(cfg: Config<T>, topic: GoString, s: World<T>, n: GoString)
    requires Inv(cfg, topic, s) && Enabled(cfg, topic, s, Handle(n))
    ensures C.Carried(cfg, Head(s, n)) <= Fire(cfg, topic, s, Handle(n)).cluster.nodes[n].past.known
  {
    var id := s.seats[n];
    assert Seated(topic, s, n) && B.Gapless(s.broker, id) && B.Traced(s.broker, id);
    var l := s.broker.chans[id].queue[0];
    assert l in B.Stream(s.broker.chans[id]);
    assert Legit(cfg, s, l.msg);
  }

  /** What is true of a running store stays true when it knows more and has taken only what it knows. */
  lemma InformedGrows<T>(cfg: Config<T>, s: World<T>, s': World<T>, n: GoString)
    requires n in s.cluster.nodes && Informed(cfg, s, n) && n in s'.cluster.nodes
    requires n in s'.seats && s'.seats[n] in s'.broker.chans && n in s'.loaded && s'.loaded[n] == s.loaded[n]
    requires s.cluster.nodes[n].past.known <= s'.cluster.nodes[n].past.known
    requires forall l :: l in s'.broker.chans[s'.seats[n]].taken ==>
               l in s.broker.chans[s.seats[n]].taken || C.Carried(cfg, l.msg) <= s'.cluster.nodes[n].past.known
    ensures Informed(cfg, s', n)
  {
  }

  /** A store that just started knows what its snapshot knew and has taken nothing yet. */
  lemma LoadInforms<T(!new)>(cfg: Config<T>, topic: GoString, s: World<T>, n: GoString)
    requires Enabled(cfg, topic, s, Load(n)) && Seated(topic, s, n) && n !in s.cluster.nodes
    ensures n in Fire(cfg, topic, s, Load(n)).cluster.nodes && Informed(cfg, Fire(cfg, topic, s, Load(n)), n)
  {
  }

  /** What the step adds to what a running store has taken is the head of its queue, if the step handles it. */
  lemma TakenGrows<T(!new)>(cfg: Config<T>, topic: GoString, s: World<T>, step: Step<T>, n: GoString)
    requires Enabled(cfg, topic, s, step) && n in s.seats && Seated(topic, s, n)
    requires step.Handle? && step.n in s.seats ==> Seated(topic, s, step.n)
    ensures var s' := Fire(cfg, topic, s, step);
            && n in s'.seats && s'.seats[n] == s.seats[n] && s.seats[n] in s'.broker.chans
            && forall l :: l in s'.broker.chans[s.seats[n]].taken ==>
                 l in s.broker.chans[s.seats[n]].taken || (step == Handle(n) && HasMail(s, n) && l.msg == Head(s, n))
  {
    if AtBroker(cfg, topic, s, step).Some? {
      ChannelKept(s.broker, AtBroker(cfg, topic, s, step).value, s.seats[n]);
    }
  }

  lemma InformedKept<T(!new)>(cfg: Config<T>, topic: GoString, s: World<T>, step: Step<T>, n: GoString)
    requires Inv(cfg, topic, s) && Enabled(cfg, topic, s, step) && n in Fire(cfg, topic, s, step).cluster.nodes
    ensures Informed(cfg, Fire(cfg, topic, s, step), n)
  {
    WorldGrows(cfg, topic, s, step);
    if n in s.cluster.nodes {
      assert Informed(cfg, s, n) && Seated(topic, s, n);
      assert step.Handle? ==> Seated(topic, s, step.n);
      TakenGrows(cfg, topic, s, step, n);
      if step == Handle(n) {
        HandledIsKnown(cfg, topic, s, n);
      }
      InformedGrows(cfg, s, Fire(cfg, topic, s, step), n);
    } else {
      assert step == Load(n) && Seated(topic, s, n);
      LoadInforms(cfg, topic, s, n);
    }
  }

  lemma PartsKept<T(!new)>(cfg: Config<T>, topic: GoString, s: World<T>, step: Step<T>)
    requires Lawful(cfg.codec) && Inv(cfg, topic, s) && Enabled(cfg, topic, s, step)
    ensures var s' := Fire(cfg, topic, s, step);
            && B.Inv(s'.broker) && C.Inv(cfg, s'.cluster)
            && (topic in s'.broker.snapshots ==> s'.broker.snapshots[topic] in s'.cluster.snaps)
  {
    if AtBroker(cfg, topic, s, step).Some? {
      B.StepKeepsInv(s.broker, AtBroker(cfg, topic, s, step).value);
    }
    if InCluster(topic, s, step).Some? {
      C.StepKeepsInv(cfg, s.cluster, InCluster(topic, s, step).value);
    }
    StoredIsPersisted(cfg, topic, s, step);
  }

  /** Only a snapshot that was persisted is ever put on the broker. */
  lemma StoredIsPersisted<T(!new)>(cfg: Config<T>, topic: GoString, s: World<T>, step: Step<T>)
    requires Enabled(cfg, topic, s, step)
             && (topic in s.broker.snapshots ==> s.broker.snapshots[topic] in s.cluster.snaps)
    ensures var s' := Fire(cfg, topic, s, step); topic in s'.broker.snapshots ==>
            s'.broker.snapshots[topic] in s'.cluster.snaps
  {
    WorldGrows(cfg, topic, s, step);
  }

  lemma StepKeepsInv<T(!new)>(cfg: Config<T>, topic: GoString, s: World<T>, step: Step<T>)
    requires Lawful(cfg.codec) && Inv(cfg, topic, s) && Enabled(cfg, topic, s, step)
    ensures Inv(cfg, topic, Fire(cfg, topic, s, step))
  {
    var s' := Fire(cfg, topic, s, step);
    PartsKept(cfg, topic, s, step);
    forall n | n in s'.seats ensures Seated(topic, s', n) { SeatedKept(cfg, topic, s, step, n); }
    forall n | n in s'.cluster.nodes ensures Informed(cfg, s', n) { InformedKept(cfg, topic, s, step, n); }
    forall l | l in B.LogOf(s'.broker, topic) ensures Legit(cfg, s', l.msg) { LegitKept(cfg, topic, s, step, l); }
  }

  lemma {:induction false} RunsKeepInv<T(!new)>(cfg: Config<T>, topic: GoString, steps: seq<Step<T>>)
    requires Lawful(cfg.codec)
    ensures Inv(cfg, topic, After(cfg, topic, steps))
  {
    if steps != [] {
      var s, step := After(cfg, topic, steps[..|steps| - 1]), steps[|steps| - 1];
      RunsKeepInv(cfg, topic, steps[..|steps| - 1]);
      if Enabled(cfg, topic, s, step) {
        StepKeepsInv(cfg, topic, s, step);
      }
    }
  }

  // ---------------------------------------------------------------- a late joiner has no gap

  /** These writes include everything the first `upto` messages of the log carry. */
  ghost predicate CoversLog<T>(cfg: Config<T>, log: seq<B.Letter<WireMessage>>, upto: nat, known: set<Write<T>>) {
    upto <= |log| && forall l :: l in log[..upto] ==> C.Carried(cfg, l.msg) <= known
  }

  /**
   The store is running, its subscription never overflowed, its queue is empty with no publish in flight, and the
   snapshot it loaded was read from a store that had handled what was published before the subscription.
   */
  ghost predicate Current<T>(cfg: Config<T>, topic: GoString, s: World<T>, n: GoString) {
    && n in s.cluster.nodes && n in s.seats && s.seats[n] in s.broker.chans && n in s.loaded && B.Quiet(s.broker)
    && var c := s.broker.chans[s.seats[n]];
       c.queue == [] && !c.lossy && CoversLog(cfg, B.LogOf(s.broker, topic), c.start, s.loaded[n])
  }

  /** A current store knows every write that was ever published. */
  lemma CurrentKnowsAll<T(!new)>(cfg: Config<T>, topic: GoString, s: World<T>, n: GoString)
    requires Inv(cfg, topic, s) && Current(cfg, topic, s, n)
    ensures CoversLog(cfg, B.LogOf(s.broker, topic), |B.LogOf(s.broker, topic)|, s.cluster.nodes[n].past.known)
  {
    assert Informed(cfg, s, n) && Seated(topic, s, n);
    var c, log := s.broker.chans[s.seats[n]], B.LogOf(s.broker, topic);
    B.DrainedHasAll(s.broker, s.seats[n]);
    assert log == log[..c.start] + log[c.start..] && log[..|log|] == log;
    forall l | l in log ensures C.Carried(cfg, l.msg) <= s.cluster.nodes[n].past.known {
      assert l in log[..c.start] || l in log[c.start..];
    }
  }

  /** The write was published, or the store authored it, or it was in the snapshot the store started from. */
  ghost predicate Reaches<T>(cfg: Config<T>, topic: GoString, s: World<T>, n: GoString, w: Write<T>)
    requires n in s.loaded
  {
    || (exists l :: l in B.LogOf(s.broker, topic) && Encode(cfg, w) == Some(l.msg))
    || w.stamp.origin == n
    || w in s.loaded[n]
  }

  /**
   Every write that won at its author reaches the store. Seeds and failed broadcasts are never published and reach
   it otherwise.
   */
  ghost predicate AllReach<T(!new)>(cfg: Config<T>, topic: GoString, s: World<T>, n: GoString)
    requires n in s.loaded
  {
    forall w {:trigger Reaches(cfg, topic, s, n, w)} :: w in s.cluster.accepted ==> Reaches(cfg, topic, s, n, w)
  }

  lemma ReachedIsKnown<T(!new)>(cfg: Config<T>, topic: GoString, s: World<T>, n: GoString)
    requires Lawful(cfg.codec) && Inv(cfg, topic, s) && Current(cfg, topic, s, n) && AllReach(cfg, topic, s, n)
    ensures s.cluster.accepted <= s.cluster.nodes[n].past.known
  {
    CurrentKnowsAll(cfg, topic, s, n);
    var log := B.LogOf(s.broker, topic);
    assert log[..|log|] == log && Informed(cfg, s, n);
    forall w | w in s.cluster.accepted ensures w in s.cluster.nodes[n].past.known {
      assert C.Owned(cfg, s.cluster, w) && Reaches(cfg, topic, s, n, w);
      if w.stamp.origin != n && w !in s.loaded[n] {
        var l :| l in log && Encode(cfg, w) == Some(l.msg);
        DecodeEncode(cfg, w);
      }
    }
  }

  /**
   Late joiner has no gap. In every run of stores on the broker, with own messages echoed, undecodable ones in
   between, publishers interleaving and anyone seeding, writing, persisting and collecting: take a current
   store that joined late and any other current store, one that was there from the beginning for instance,
   such that each accepted write reaches both. They know every accepted write. They hold the same map where
   neither has collected anything, and if nothing has come back to life in one they show the same exactly when
   nothing has come back to life in the other.
   */
  lemma LateJoiner<T(!new)>(cfg: Config<T>, topic: GoString, steps: seq<Step<T>>, n: GoString, other: GoString)
    requires Lawful(cfg.codec)
    requires var s := After(cfg, topic, steps);
             && Current(cfg, topic, s, n) && AllReach(cfg, topic, s, n)
             && Current(cfg, topic, s, other) && AllReach(cfg, topic, s, other)
    ensures var s := After(cfg, topic, steps).cluster;
            var x, y := s.nodes[n], s.nodes[other];
            && s.accepted <= x.past.known && s.accepted <= y.past.known
            && (x.past.buried == {} && y.past.buried == {} ==>
                  Convergence.Skeleton(x.data) == Convergence.Skeleton(y.data)
                  && (cfg.merger.None? ==> x.data == y.data))
            && (Convergence.CleanNode(s, n) ==>
                  && (Versions(x.data) == Versions(y.data) <==> Convergence.CleanNode(s, other))
                  && (cfg.merger.None? ==>
                        (View(x.data) == View(y.data) && Versions(x.data) == Versions(y.data) <==>
                         Convergence.CleanNode(s, other))))
  {
    RunsKeepInv(cfg, topic, steps);
    WorldIsClusterRun(cfg, topic, steps);
    var s, trace := After(cfg, topic, steps), Trace(cfg, topic, steps);
    ReachedIsKnown(cfg, topic, s, n);
    ReachedIsKnown(cfg, topic, s, other);
    assert Convergence.Heard(s.cluster, n) == s.cluster.accepted == Convergence.Heard(s.cluster, other);
    Convergence.Convergence(cfg, trace, n, other);
    if s.cluster.nodes[n].past.buried == {} && s.cluster.nodes[other].past.buried == {} {
      Convergence.FullConvergence(cfg, trace, n, other);
    }
  }

  // ---------------------------------------------------------------- where the snapshot comes from

  lemma {:induction false} LogGrows<T(!new)>(cfg: Config<T>, topic: GoString, before: seq<Step<T>>, more: seq<Step<T>>)
    ensures B.LogOf(After(cfg, topic, before).broker, topic) <= B.LogOf(After(cfg, topic, before + more).broker, topic)
  {
    if more == [] {
      assert before + more == before;
    } else {
      var init, step := more[..|more| - 1], more[|more| - 1];
      LogGrows(cfg, topic, before, init);
      assert (before + more)[..|before + more| - 1] == before + init;
      NextLog(cfg, topic, After(cfg, topic, before + init), After(cfg, topic, before + more), step);
    }
  }

  lemma NextLog<T(!new)>(cfg: Config<T>, topic: GoString, s: World<T>, s': World<T>, step: Step<T>)
    requires s' == if Enabled(cfg, topic, s, step) then Fire(cfg, topic, s, step) else s
    ensures B.LogOf(s.broker, topic) <= B.LogOf(s'.broker, topic)
  {
    if Enabled(cfg, topic, s, step) && AtBroker(cfg, topic, s, step).Some? {
      LogGrowsBy(s.broker, AtBroker(cfg, topic, s, step).value, topic);
    }
  }

  ghost predicate Persists<T>(s: World<T>, s': World<T>, n: GoString)
    requires n in s.cluster.nodes
  {
    && n in s'.cluster.nodes && s.cluster.nodes[n].past.known <= s'.cluster.nodes[n].past.known
    && (n in s.loaded ==> n in s'.loaded && s'.loaded[n] == s.loaded[n])
  }

  lemma NextPersists<T(!new)>(cfg: Config<T>, topic: GoString, s: World<T>, mid: World<T>, s': World<T>,
                              step: Step<T>, n: GoString)
    requires n in s.cluster.nodes && Persists(s, mid, n)
    requires s' == if Enabled(cfg, topic, mid, step) then Fire(cfg, topic, mid, step) else mid
    ensures Persists(s, s', n)
  {
    if Enabled(cfg, topic, mid, step) {
      WorldGrows(cfg, topic, mid, step);
    }
  }

  /** As a run goes on a running store forgets nothing, and what it started from stays what it was. */
  lemma {:induction false} RunPersists<T(!new)>(cfg: Config<T>, topic: GoString, before: seq<Step<T>>,
                                                more: seq<Step<T>>, n: GoString)
    requires n in After(cfg, topic, before).cluster.nodes
    ensures Persists(After(cfg, topic, before), After(cfg, topic, before + more), n)
  {
    if more == [] {
      assert before + more == before;
    } else {
      var init, step := more[..|more| - 1], more[|more| - 1];
      RunPersists(cfg, topic, before, init, n);
      assert (before + more)[..|before + more| - 1] == before + init;
      NextPersists(cfg, topic, After(cfg, topic, before), After(cfg, topic, before + init),
                   After(cfg, topic, before + more), step, n);
    }
  }

  lemma AfterSnoc<T(!new)>(cfg: Config<T>, topic: GoString, steps: seq<Step<T>>, step: Step<T>)
    requires Enabled(cfg, topic, After(cfg, topic, steps), step)
    ensures After(cfg, topic, steps + [step]) == Fire(cfg, topic, After(cfg, topic, steps), step)
  {
    assert (steps + [step])[..|steps|] == steps;
  }

  /** The joiner loads, at the end of this run, the snapshot the author persisted after `before`. */
  ghost predicate LoadsSnapshotOf<T>(cfg: Config<T>, topic: GoString, before: seq<Step<T>>, author: GoString,
                                     cutoff: int,
                                     between: seq<Step<T>>, n: GoString)
  {
    && Enabled(cfg, topic, After(cfg, topic, before), Persist(author, cutoff))
    && var s := After(cfg, topic, before + [Persist(author, cutoff)] + between);
       && Enabled(cfg, topic, s, Load(n))
       && Fetched(topic, s) == Some(SnapshotOf(cfg, topic, before, author, cutoff))
  }

  /** What Persist hands to the transport. */
  ghost function SnapshotOf<T>(cfg: Config<T>, topic: GoString, before: seq<Step<T>>, author: GoString,
                               cutoff: int): C.Snap<T>
    requires Enabled(cfg, topic, After(cfg, topic, before), Persist(author, cutoff))
  {
    var s := After(cfg, topic, before).cluster;
    C.SnapOf(cfg, C.SweepAll(s.nodes[author], s.accepted, cutoff))
  }

  /** A store that has loaded a snapshot starts from what its author knew as it read its map. */
  lemma LoadedKnows<T(!new)>(cfg: Config<T>, topic: GoString, before: seq<Step<T>>, author: GoString, cutoff: int,
                             between: seq<Step<T>>, n: GoString, rest: seq<Step<T>>)
    requires LoadsSnapshotOf(cfg, topic, before, author, cutoff, between, n)
    ensures var s := After(cfg, topic, before + [Persist(author, cutoff)] + between + [Load(n)] + rest);
            && n in s.cluster.nodes && n in s.loaded
            && s.loaded[n] == After(cfg, topic, before).cluster.nodes[author].past.known
  {
    var toLoad := before + [Persist(author, cutoff)] + between;
    AfterSnoc(cfg, topic, toLoad, Load(n));
    RunPersists(cfg, topic, toLoad + [Load(n)], rest, n);
  }

  /**
   A snapshot handed on. An author that was current at some point of the run persists its map at that point or
   later, the snapshot is what the broker holds as the joiner loads, and the joiner had subscribed to a log no
   longer than it was when the author was current. Once it has drained a queue that never overflowed, the joiner
   is current too, and its own snapshots will serve the next one.
   */
  lemma JoinedFromStored<T(!new)>(cfg: Config<T>, topic: GoString, early: seq<Step<T>>, later: seq<Step<T>>,
                                  author: GoString, cutoff: int,
                                  between: seq<Step<T>>, n: GoString, rest: seq<Step<T>>)
    requires Lawful(cfg.codec) && Current(cfg, topic, After(cfg, topic, early), author)
    requires LoadsSnapshotOf(cfg, topic, early + later, author, cutoff, between, n)
    requires var s := After(cfg, topic, early + later + [Persist(author, cutoff)] + between + [Load(n)] + rest);
             && n in s.seats && s.seats[n] in s.broker.chans && B.Quiet(s.broker)
             && s.broker.chans[s.seats[n]].queue == [] && !s.broker.chans[s.seats[n]].lossy
             && s.broker.chans[s.seats[n]].start <= |B.LogOf(After(cfg, topic, early).broker, topic)|
    ensures Current(cfg, topic,
                    After(cfg, topic, early + later + [Persist(author, cutoff)] + between + [Load(n)] + rest), n)
  {
    var steps := early + later + [Persist(author, cutoff)] + between + [Load(n)] + rest;
    var s, more := After(cfg, topic, steps), later + [Persist(author, cutoff)] + between + [Load(n)] + rest;
    assert steps == early + more;
    LoadedKnows(cfg, topic, early + later, author, cutoff, between, n, rest);
    RunPersists(cfg, topic, early, later, author);
    StillCovered(cfg, topic, early, more, steps, author, s.broker.chans[s.seats[n]].start, s.loaded[n]);
  }

  /** What a current store knew covers the log as far as it went then, however the run goes on. */
  lemma StillCovered<T(!new)>(cfg: Config<T>, topic: GoString, early: seq<Step<T>>, more: seq<Step<T>>,
                              steps: seq<Step<T>>, author: GoString,
                              start: nat, known: set<Write<T>>)
    requires Lawful(cfg.codec) && Current(cfg, topic, After(cfg, topic, early), author) && steps == early + more
    requires start <= |B.LogOf(After(cfg, topic, early).broker, topic)|
    requires After(cfg, topic, early).cluster.nodes[author].past.known <= known
    ensures CoversLog(cfg, B.LogOf(After(cfg, topic, steps).broker, topic), start, known)
  {
    var was := After(cfg, topic, early);
    RunsKeepInv(cfg, topic, early);
    CurrentKnowsAll(cfg, topic, was, author);
    LogGrows(cfg, topic, early, more);
    PrefixCovered(cfg, B.LogOf(was.broker, topic), B.LogOf(After(cfg, topic, steps).broker, topic), start,
                  was.cluster.nodes[author].past.known, known);
  }

  lemma PrefixCovered<T>(cfg: Config<T>, prefix: seq<B.Letter<WireMessage>>, log: seq<B.Letter<WireMessage>>,
                         start: nat,
                         known: set<Write<T>>, more: set<Write<T>>)
    requires prefix <= log && start <= |prefix| && CoversLog(cfg, prefix, |prefix|, known) && known <= more
    ensures CoversLog(cfg, log, start, more)
  {
    assert prefix[..|prefix|] == prefix && log[..start] == prefix[..start];
    forall l | l in log[..start] ensures C.Carried(cfg, l.msg) <= more {
      assert l in prefix;
    }
  }
}
