/**
 The in-process broker, as a machine and as the class the source has. Publish holds only the read lock, so several
 publishers may be in the middle of their send loops at once; Subscribe, Snapshot, FetchSnapshot and Close hold
 the write lock and so find no publish in flight.
 */
module Memory {
  import opened Order

  const QUEUE_DEPTH: nat := 256

  /** A message and, as history, the publisher it came from. A publisher makes one Publish call at a time. */
  datatype Letter<+M> = Letter(from: nat, msg: M)

  /**
   A subscriber's buffered channel. `taken`, `start` and `lossy` are history: what its consumer received, how much
   had been published on its topic when it came in, and whether a full queue ever cost it a message.
   */
  datatype Channel<+M> = Channel(topic: GoString, queue: seq<Letter<M>>, taken: seq<Letter<M>>, start: nat, lossy: bool)

  /** A Publish that holds the read lock, with the subscribers it has still to send to. */
  datatype Publication<+M> = Publication(topic: GoString, msg: M, todo: set<nat>)

  /** `log` records, per topic, what was published, in the order in which the calls got the lock. */
  datatype Broker<+M, +S> = Broker(
    chans: map<nat, Channel<M>>, snapshots: map<GoString, S>, closed: bool,
    log: map<GoString, seq<Letter<M>>>, inflight: map<nat, Publication<M>>)

  datatype Step<+M, +S> =
    | Subscribe(topic: GoString, id: nat)
    | Begin(from: nat, topic: GoString, msg: M)
    | SendTo(from: nat, id: nat)
    | End(from: nat)
    | Receive(id: nat)
    | Snapshot(topic: GoString, body: S)
    | Close

  function LogOf<M, S>(b: Broker<M, S>, topic: GoString): seq<Letter<M>> {
    if topic in b.log then b.log[topic] else []
  }

  function Subscribers<M, S>(b: Broker<M, S>, topic: GoString): set<nat> {
    set id | id in b.chans && b.chans[id].topic == topic
  }

  /** No Publish holds the read lock. */
  predicate Quiet<M, S>(b: Broker<M, S>) {
    b.inflight.Keys == {}
  }

  /** The non-blocking send of Publish. */
  function Pushed<M>(c: Channel<M>, l: Letter<M>): Channel<M> {
    if |c.queue| < QUEUE_DEPTH then c.(queue := c.queue + [l]) else c.(lossy := true)
  }

  function Fire<M, S>(b: Broker<M, S>, step: Step<M, S>): Broker<M, S> {
    match step
    case Subscribe(topic, id) =>
      if !Quiet(b) || b.closed || id in b.chans then b
      else b.(chans := b.chans[id := Channel(topic, [], [], |LogOf(b, topic)|, false)])
    case Begin(from, topic, msg) =>
      if b.closed || from in b.inflight then b
      else b.(log := b.log[topic := LogOf(b, topic) + [Letter(from, msg)]],
              inflight := b.inflight[from := Publication(topic, msg, Subscribers(b, topic))])
    case SendTo(from, id) =>
      if from !in b.inflight || id !in b.inflight[from].todo || id !in b.chans then b
      else
        var p := b.inflight[from];
        b.(chans := b.chans[id := Pushed(b.chans[id], Letter(from, p.msg))],
           inflight := b.inflight[from := p.(todo := p.todo - {id})])
    case End(from) =>
      if from !in b.inflight || b.inflight[from].todo != {} then b else b.(inflight := b.inflight - {from})
    case Receive(id) =>
      if id !in b.chans || b.chans[id].queue == [] then b
      else
        var c := b.chans[id];
        b.(chans := b.chans[id := c.(queue := c.queue[1..], taken := c.taken + [c.queue[0]])])
    case Snapshot(topic, body) =>
      if !Quiet(b) || b.closed then b else b.(snapshots := b.snapshots[topic := body])
    case Close => if !Quiet(b) then b else b.(closed := true)
  }

  function Play<M, S>(b: Broker<M, S>, steps: seq<Step<M, S>>): Broker<M, S> {
    if steps == [] then b else Fire(Play(b, steps[..|steps| - 1]), steps[|steps| - 1])
  }

  function Empty<M, S>(): Broker<M, S> {
    Broker(map[], map[], false, map[], map[])
  }

  // ---------------------------------------------------------------- one publisher's messages

  function By<M>(letters: seq<Letter<M>>, p: nat): seq<Letter<M>> {
    if letters == [] then []
    else By(letters[..|letters| - 1], p) + if letters[|letters| - 1].from == p then [letters[|letters| - 1]] else []
  }

  lemma BySnoc<M>(letters: seq<Letter<M>>, l: Letter<M>, p: nat)
    ensures By(letters + [l], p) == By(letters, p) + if l.from == p then [l] else []
  {
    assert (letters + [l])[..|letters|] == letters;
  }

  lemma {:induction false} CountBy<M>(letters: seq<Letter<M>>, l: Letter<M>)
    ensures multiset(letters)[l] == multiset(By(letters, l.from))[l]
  {
    if letters != [] {
      var init, last := letters[..|letters| - 1], letters[|letters| - 1];
      CountBy(init, l);
      assert letters == init + [last];
    }
  }

  lemma SamePerPublisher<M>(xs: seq<Letter<M>>, ys: seq<Letter<M>>)
    requires forall p {:trigger By(xs, p)} :: By(xs, p) == By(ys, p)
    ensures multiset(xs) == multiset(ys)
  {
    forall l ensures multiset(xs)[l] == multiset(ys)[l] {
      CountBy(xs, l);
      CountBy(ys, l);
      assert By(xs, l.from) == By(ys, l.from);
    }
  }

  // ---------------------------------------------------------------- no gaps

  /** What publisher `p` has begun to publish and not yet sent to this channel. */
  function Pending<M, S>(b: Broker<M, S>, id: nat, p: nat): seq<Letter<M>> {
    if p in b.inflight && id in b.inflight[p].todo then [Letter(p, b.inflight[p].msg)] else []
  }

  /** What the channel was sent: what its consumer received and what it holds. */
  function Stream<M>(c: Channel<M>): seq<Letter<M>> {
    c.taken + c.queue
  }

  lemma PushedStream<M>(c: Channel<M>, l: Letter<M>)
    requires |c.queue| < QUEUE_DEPTH
    ensures Stream(Pushed(c, l)) == Stream(c) + [l]
  {
  }

  /** A subscriber holds 256 messages; the next one is lost, and only then. */
  lemma QueueHolds256<M>(c: Channel<M>, l: Letter<M>)
    requires |c.queue| <= 256
    ensures if |c.queue| == 256 then Stream(Pushed(c, l)) == Stream(c) && Pushed(c, l).lossy
            else Stream(Pushed(c, l)) == Stream(c) + [l] && Pushed(c, l).lossy == c.lossy
  {
    if |c.queue| < 256 {
      PushedStream(c, l);
    }
  }

  /** What was sent and what is on its way are publisher `p`'s messages, in order. */
  ghost predicate Matched<M>(stream: seq<Letter<M>>, pending: seq<Letter<M>>, log: seq<Letter<M>>, p: nat) {
    By(stream, p) + pending == By(log, p)
  }

  /** A message is published: it is on its way. */
  lemma MatchedBegin<M>(stream: seq<Letter<M>>, pending: seq<Letter<M>>, pending': seq<Letter<M>>,
                        log: seq<Letter<M>>, l: Letter<M>, p: nat)
    requires Matched(stream, pending, log, p)
    requires if l.from == p then pending == [] && pending' == [l] else pending' == pending
    ensures Matched(stream, pending', log + [l], p)
  {
    BySnoc(log, l, p);
  }

  /** A message on its way arrives. */
  lemma MatchedSend<M>(stream: seq<Letter<M>>, pending: seq<Letter<M>>, pending': seq<Letter<M>>, log: seq<Letter<M>>,
                       l: Letter<M>, p: nat)
    requires Matched(stream, pending, log, p)
    requires if l.from == p then pending == [l] && pending' == [] else pending' == pending
    ensures Matched(stream + [l], pending', log, p)
  {
    BySnoc(stream, l, p);
  }

  /**
   The channel has received or holds publisher `p`'s messages since it came in, in order, except for one that is
   on its way.
   */
  ghost predicate Ordered<M, S>(b: Broker<M, S>, id: nat, p: nat)
    requires id in b.chans && b.chans[id].start <= |LogOf(b, b.chans[id].topic)|
  {
    var c := b.chans[id];
    Matched(Stream(c), Pending(b, id, p), LogOf(b, c.topic)[c.start..], p)
  }

  ghost predicate Traced<M, S>(b: Broker<M, S>, id: nat)
    requires id in b.chans
  {
    var c := b.chans[id];
    forall l :: l in Stream(c) ==> l in LogOf(b, c.topic)
  }

  ghost predicate Gapless<M, S>(b: Broker<M, S>, id: nat)
    requires id in b.chans
  {
    var c := b.chans[id];
    && c.start <= |LogOf(b, c.topic)| && |c.queue| <= QUEUE_DEPTH && Traced(b, id)
    && (!c.lossy ==> forall p {:trigger Ordered(b, id, p)} :: Ordered(b, id, p))
  }

  /** A publish in flight is logged and has only subscribers of its topic to send to. */
  ghost predicate Underway<M, S>(b: Broker<M, S>, from: nat)
    requires from in b.inflight
  {
    var p := b.inflight[from];
    Letter(from, p.msg) in LogOf(b, p.topic) && p.todo <= Subscribers(b, p.topic)
  }

  ghost predicate Inv<M, S>(b: Broker<M, S>) {
    && (forall id {:trigger Gapless(b, id)} :: id in b.chans ==> Gapless(b, id))
    && (forall from {:trigger Underway(b, from)} :: from in b.inflight ==> Underway(b, from))
  }

  /** A channel with the same stream, the same log and the same messages on their way stays gapless. */
  lemma SameStreamGapless<M, S>(b: Broker<M, S>, b': Broker<M, S>, id: nat)
    requires id in b.chans && Gapless(b, id) && id in b'.chans
    requires var c, c' := b.chans[id], b'.chans[id];
             && c'.topic == c.topic && c'.start == c.start && c'.lossy == c.lossy && |c'.queue| <= QUEUE_DEPTH
             && Stream(c') == Stream(c) && LogOf(b', c.topic) == LogOf(b, c.topic)
    requires forall p {:trigger Pending(b', id, p)} :: Pending(b', id, p) == Pending(b, id, p)
    ensures Gapless(b', id)
  {
    forall p | !b.chans[id].lossy ensures Ordered(b', id, p) {
      assert Ordered(b, id, p) && Pending(b', id, p) == Pending(b, id, p);
    }
  }

  lemma BeginKeepsOrdered<M, S>(b: Broker<M, S>, step: Step<M, S>, id: nat, p: nat)
    requires step.Begin? && !b.closed && step.from !in b.inflight && id in b.chans && b.chans[id].topic == step.topic
    requires b.chans[id].start <= |LogOf(b, step.topic)| && Ordered(b, id, p)
    ensures Ordered(Fire(b, step), id, p)
  {
    var c, log, l := b.chans[id], LogOf(b, step.topic), Letter(step.from, step.msg);
    assert (log + [l])[c.start..] == log[c.start..] + [l];
    MatchedBegin(Stream(c), Pending(b, id, p), Pending(Fire(b, step), id, p), log[c.start..], l, p);
  }

  lemma BeginKeepsGapless<M, S>(b: Broker<M, S>, step: Step<M, S>, id: nat)
    requires Inv(b) && step.Begin? && !b.closed && step.from !in b.inflight && id in b.chans
    ensures Gapless(Fire(b, step), id)
  {
    assert Gapless(b, id);
    if b.chans[id].topic == step.topic {
      forall p | !b.chans[id].lossy ensures Ordered(Fire(b, step), id, p) {
        assert Ordered(b, id, p);
        BeginKeepsOrdered(b, step, id, p);
      }
    } else {
      SameStreamGapless(b, Fire(b, step), id);
    }
  }

  lemma SendKeepsGapless<M, S>(b: Broker<M, S>, from: nat, to: nat, id: nat)
    requires Inv(b) && from in b.inflight && to in b.inflight[from].todo && to in b.chans && id in b.chans
    ensures Gapless(Fire(b, SendTo(from, to)), id)
  {
    assert Gapless(b, id) && Underway(b, from);
    var b', c := Fire(b, SendTo(from, to)), b.chans[id];
    if id != to {
      SameStreamGapless(b, b', id);
    } else if |c.queue| < QUEUE_DEPTH {
      SendKeepsTraced(b, from, to);
      forall p | !c.lossy ensures Ordered(b', id, p) {
        assert Ordered(b, id, p);
        SendKeepsOrdered(b, from, to, p);
      }
    }
  }

  /** What was on its way to the channel is now in it. */
  lemma SendKeepsOrdered<M, S>(b: Broker<M, S>, from: nat, to: nat, p: nat)
    requires from in b.inflight && to in b.inflight[from].todo && to in b.chans && |b.chans[to].queue| < QUEUE_DEPTH
    requires b.chans[to].start <= |LogOf(b, b.chans[to].topic)| && Ordered(b, to, p)
    ensures Ordered(Fire(b, SendTo(from, to)), to, p)
  {
    var c, l := b.chans[to], Letter(from, b.inflight[from].msg);
    PushedStream(c, l);
    MatchedSend(Stream(c), Pending(b, to, p), Pending(Fire(b, SendTo(from, to)), to, p), LogOf(b, c.topic)[c.start..],
                l, p);
  }

  lemma SendKeepsTraced<M, S>(b: Broker<M, S>, from: nat, to: nat)
    requires from in b.inflight && to in b.inflight[from].todo && to in b.chans && |b.chans[to].queue| < QUEUE_DEPTH
    requires Traced(b, to) && Underway(b, from)
    ensures Traced(Fire(b, SendTo(from, to)), to)
  {
    var c, l := b.chans[to], Letter(from, b.inflight[from].msg);
    PushedStream(c, l);
    assert to in Subscribers(b, b.inflight[from].topic);
  }

  lemma ReceiveKeepsGapless<M, S>(b: Broker<M, S>, at: nat, id: nat)
    requires Inv(b) && id in b.chans
    ensures Gapless(Fire(b, Receive(at)), id)
  {
    assert Gapless(b, id);
    var c := b.chans[id];
    assert c.queue != [] ==> (c.taken + [c.queue[0]]) + c.queue[1..] == Stream(c);
    SameStreamGapless(b, Fire(b, Receive(at)), id);
  }

  lemma OtherKeepsGapless<M, S>(b: Broker<M, S>, step: Step<M, S>, id: nat)
    requires Inv(b) && id in Fire(b, step).chans && !step.Begin? && !step.SendTo? && !step.Receive?
    ensures Gapless(Fire(b, step), id)
  {
    var b' := Fire(b, step);
    if id in b.chans {
      assert Gapless(b, id);
      SameStreamGapless(b, b', id);
    } else {
      NewIsGapless(b', id);
    }
  }

  lemma NewIsGapless<M, S>(b: Broker<M, S>, id: nat)
    requires id in b.chans && Quiet(b)
             && b.chans[id] == Channel(b.chans[id].topic, [], [], |LogOf(b, b.chans[id].topic)|, false)
    ensures Gapless(b, id)
  {
    assert Stream(b.chans[id]) == [] && LogOf(b, b.chans[id].topic)[b.chans[id].start..] == [];
    forall p ensures Ordered(b, id, p) {
      assert Pending(b, id, p) == [];
    }
  }

  lemma StepKeepsInv<M, S>(b: Broker<M, S>, step: Step<M, S>)
    requires Inv(b)
    ensures Inv(Fire(b, step))
  {
    var b' := Fire(b, step);
    forall id | id in b'.chans ensures Gapless(b', id) {
      if b' == b {
        assert Gapless(b, id);
      } else if step.Begin? {
        BeginKeepsGapless(b, step, id);
      } else if step.SendTo? {
        SendKeepsGapless(b, step.from, step.id, id);
      } else if step.Receive? {
        ReceiveKeepsGapless(b, step.id, id);
      } else {
        OtherKeepsGapless(b, step, id);
      }
    }
    forall from | from in b'.inflight ensures Underway(b', from) {
      assert from in b.inflight ==> Underway(b, from);
    }
  }

  lemma {:induction false} PlayKeepsInv<M, S>(b: Broker<M, S>, steps: seq<Step<M, S>>)
    requires Inv(b)
    ensures Inv(Play(b, steps))
  {
    if steps != [] {
      PlayKeepsInv(b, steps[..|steps| - 1]);
      StepKeepsInv(Play(b, steps[..|steps| - 1]), steps[|steps| - 1]);
    }
  }

  /**
   In every run of the broker, with publishers interleaving their sends in any way: a channel that never
   overflowed has received or still holds, in order, each publisher's messages since it came in, except for those
   on their way to it; and when none is on its way it has exactly what was published since, no more and no less.
   */
  lemma RunsGapless<M, S>(steps: seq<Step<M, S>>, id: nat)
    requires id in Play(Empty<M, S>(), steps).chans && !Play(Empty<M, S>(), steps).chans[id].lossy
    ensures var b := Play(Empty<M, S>(), steps);
            var c := b.chans[id];
            && c.start <= |LogOf(b, c.topic)|
            && (forall p :: By(c.taken + c.queue, p) + Pending(b, id, p) == By(LogOf(b, c.topic)[c.start..], p))
            && ((forall p :: p in b.inflight ==> id !in b.inflight[p].todo) ==>
                multiset(c.taken + c.queue) == multiset(LogOf(b, c.topic)[c.start..]))
  {
    PlayKeepsInv(Empty<M, S>(), steps);
    var b := Play(Empty<M, S>(), steps);
    GaplessMeans(b, id);
  }

  lemma GaplessMeans<M, S>(b: Broker<M, S>, id: nat)
    requires Inv(b) && id in b.chans && !b.chans[id].lossy
    ensures var c := b.chans[id];
            && c.start <= |LogOf(b, c.topic)|
            && (forall p :: By(c.taken + c.queue, p) + Pending(b, id, p) == By(LogOf(b, c.topic)[c.start..], p))
            && ((forall p :: p in b.inflight ==> id !in b.inflight[p].todo) ==>
                multiset(c.taken + c.queue) == multiset(LogOf(b, c.topic)[c.start..]))
  {
    assert Gapless(b, id);
    var c := b.chans[id];
    forall p ensures By(c.taken + c.queue, p) + Pending(b, id, p) == By(LogOf(b, c.topic)[c.start..], p) {
      assert Ordered(b, id, p);
    }
    if forall p :: p in b.inflight ==> id !in b.inflight[p].todo {
      forall p ensures By(c.taken + c.queue, p) == By(LogOf(b, c.topic)[c.start..], p) {
        assert Pending(b, id, p) == [];
        assert Ordered(b, id, p);
      }
      SamePerPublisher(c.taken + c.queue, LogOf(b, c.topic)[c.start..]);
    }
  }

  /**
   A consumer whose queue never overflowed and is empty, with no publish in flight, has received everything since
   it subscribed.
   */
  lemma DrainedHasAll<M, S>(b: Broker<M, S>, id: nat)
    requires Inv(b) && Quiet(b) && id in b.chans && b.chans[id].queue == [] && !b.chans[id].lossy
    ensures var c := b.chans[id];
            c.start <= |LogOf(b, c.topic)| && forall l :: l in LogOf(b, c.topic)[c.start..] ==> l in c.taken
  {
    GaplessMeans(b, id);
    var c := b.chans[id];
    assert c.taken + [] == c.taken;
    forall l | l in LogOf(b, c.topic)[c.start..] ensures l in c.taken {
      assert l in multiset(LogOf(b, c.topic)[c.start..]);
      assert l in multiset(c.taken);
    }
  }

  // ---------------------------------------------------------------- a whole Publish

  /** One Publish with nothing in between: a send to every subscriber of the topic. */
  function Published<M, S>(b: Broker<M, S>, from: nat, topic: GoString, msg: M): Broker<M, S> {
    b.(chans := Sent(b.chans, Subscribers(b, topic), Letter(from, msg)),
       log := b.log[topic := LogOf(b, topic) + [Letter(from, msg)]])
  }

  function Sent<M>(chans: map<nat, Channel<M>>, to: set<nat>, l: Letter<M>): map<nat, Channel<M>> {
    map id | id in chans :: if id in to then Pushed(chans[id], l) else chans[id]
  }

  function SendSteps<M, S>(from: nat, ids: seq<nat>): (steps: seq<Step<M, S>>)
    ensures |steps| == |ids| && forall i :: 0 <= i < |ids| ==> steps[i] == SendTo(from, ids[i])
  {
    seq(|ids|, i requires 0 <= i < |ids| => SendTo(from, ids[i]))
  }

  function Elements(ids: seq<nat>): set<nat> {
    set id | id in ids
  }

  predicate NoDuplicates(ids: seq<nat>) {
    forall i, j :: 0 <= i < j < |ids| ==> ids[i] != ids[j]
  }

  /** The broker when a Publish has sent to `done`. */
  function Midway<M, S>(b: Broker<M, S>, from: nat, topic: GoString, msg: M, done: set<nat>): Broker<M, S> {
    b.(chans := Sent(b.chans, done, Letter(from, msg)), log := b.log[topic := LogOf(b, topic) + [Letter(from, msg)]],
       inflight := b.inflight[from := Publication(topic, msg, Subscribers(b, topic) - done)])
  }

  lemma SendOneMore<M, S>(b: Broker<M, S>, from: nat, topic: GoString, msg: M, done: set<nat>, id: nat)
    requires id in Subscribers(b, topic) && id !in done
    ensures Fire(Midway(b, from, topic, msg, done), SendTo(from, id)) == Midway(b, from, topic, msg, done + {id})
  {
    assert Subscribers(b, topic) - done - {id} == Subscribers(b, topic) - (done + {id});
  }

  lemma {:induction false} SendsInTurn<M, S>(b: Broker<M, S>, from: nat, topic: GoString, msg: M, ids: seq<nat>)
    requires NoDuplicates(ids) && Elements(ids) <= Subscribers(b, topic)
    ensures Play(Midway(b, from, topic, msg, {}), SendSteps(from, ids)) == Midway(b, from, topic, msg, Elements(ids))
  {
    if ids != [] {
      var init, id := ids[..|ids| - 1], ids[|ids| - 1];
      SendsInTurn(b, from, topic, msg, init);
      assert id in Elements(ids) && Elements(ids) == Elements(init) + {id};
      SendOneMore(b, from, topic, msg, Elements(init), id);
      assert SendSteps<M, S>(from, ids)[..|init|] == SendSteps(from, init);
    } else {
      assert Elements(ids) == {};
    }
  }

  /** In whatever order it goes through the subscribers, a Publish that is not interrupted is a run of the machine. */
  lemma PublishIsRun<M, S>(b: Broker<M, S>, from: nat, topic: GoString, msg: M, ids: seq<nat>)
    requires !b.closed && from !in b.inflight && NoDuplicates(ids) && Elements(ids) == Subscribers(b, topic)
    ensures Fire(Play(Fire(b, Begin(from, topic, msg)), SendSteps(from, ids)), End(from)) ==
            Published(b, from, topic, msg)
  {
    assert Fire(b, Begin(from, topic, msg)) == Midway(b, from, topic, msg, {}) by {
      assert Sent(b.chans, {}, Letter(from, msg)) == b.chans && Subscribers(b, topic) - {} == Subscribers(b, topic);
    }
    SendsInTurn(b, from, topic, msg, ids);
    assert b.inflight[from := Publication(topic, msg, {})] - {from} == b.inflight;
  }

  lemma PublishKeepsInv<M, S>(b: Broker<M, S>, from: nat, topic: GoString, msg: M, ids: seq<nat>)
    requires Inv(b) && !b.closed && from !in b.inflight && NoDuplicates(ids) && Elements(ids) == Subscribers(b, topic)
    ensures Inv(Published(b, from, topic, msg))
  {
    PublishIsRun(b, from, topic, msg, ids);
    StepKeepsInv(b, Begin(from, topic, msg));
    PlayKeepsInv(Fire(b, Begin(from, topic, msg)), SendSteps(from, ids));
    StepKeepsInv(Play(Fire(b, Begin(from, topic, msg)), SendSteps(from, ids)), End(from));
  }

  /** Two subscribers are there and two publishers have taken the lock. */
  lemma TwoUnderway<M, S>(topic: GoString, x: M, y: M) returns (steps: seq<Step<M, S>>)
    ensures Play(Empty<M, S>(), steps) ==
            Broker(map[0 := Channel(topic, [], [], 0, false), 1 := Channel(topic, [], [], 0, false)], map[], false,
                   map[topic := [Letter(0, x), Letter(1, y)]],
                   map[0 := Publication(topic, x, {0, 1}), 1 := Publication(topic, y, {0, 1})])
  {
    var b := Empty<M, S>();
    steps := [];
    steps, b := Grow(steps, b, Subscribe(topic, 0));
    steps, b := Grow(steps, b, Subscribe(topic, 1));
    assert Subscribers(b, topic) == {0, 1};
    steps, b := Grow(steps, b, Begin(0, topic, x));
    assert Subscribers(b, topic) == {0, 1};
    steps, b := Grow(steps, b, Begin(1, topic, y));
    assert b.log[topic] == [Letter(0, x), Letter(1, y)];
  }

  /** Publishers 0 and 1 have still to send to `todo0` and `todo1`; the subscribers hold `q0` and `q1`. */
  ghost predicate Crossing<M, S>(b: Broker<M, S>, x: M, y: M, todo0: set<nat>, todo1: set<nat>, q0: seq<Letter<M>>,
                                 q1: seq<Letter<M>>) {
    && b.chans.Keys == {0, 1} && b.chans[0].start == b.chans[1].start == 0 && b.chans[0].queue == q0
       && b.chans[1].queue == q1
    && b.inflight.Keys == {0, 1} && b.inflight[0].todo == todo0 && b.inflight[1].todo == todo1
    && b.inflight[0].msg == x && b.inflight[1].msg == y
  }

  lemma FirstSends<M, S>(topic: GoString, x: M, y: M) returns (steps: seq<Step<M, S>>)
    ensures Crossing(Play(Empty<M, S>(), steps), x, y, {1}, {1}, [Letter(0, x), Letter(1, y)], [])
  {
    steps := TwoUnderway(topic, x, y);
    var b := Play(Empty<M, S>(), steps);
    steps, b := Grow(steps, b, SendTo(0, 0));
    assert Crossing(b, x, y, {1}, {0, 1}, [Letter(0, x)], []);
    steps, b := Grow(steps, b, SendTo(1, 0));
  }

  lemma CrossedSends<M, S>(topic: GoString, x: M, y: M) returns (steps: seq<Step<M, S>>)
    ensures Crossing(Play(Empty<M, S>(), steps), x, y, {}, {}, [Letter(0, x), Letter(1, y)],
                     [Letter(1, y), Letter(0, x)])
  {
    steps := FirstSends(topic, x, y);
    var b := Play(Empty<M, S>(), steps);
    steps, b := Grow(steps, b, SendTo(1, 1));
    assert Crossing(b, x, y, {1}, {}, [Letter(0, x), Letter(1, y)], [Letter(1, y)]);
    steps, b := Grow(steps, b, SendTo(0, 1));
  }

  /** The broker promises no order across publishers: two of them can reach two subscribers in opposite orders. */
  lemma OppositeOrders<M, S>(topic: GoString, x: M, y: M) returns (steps: seq<Step<M, S>>)
    ensures var b := Play(Empty<M, S>(), steps);
            && Quiet(b) && 0 in b.chans && 1 in b.chans && b.chans[0].start == b.chans[1].start == 0
            && b.chans[0].queue == [Letter(0, x), Letter(1, y)] && b.chans[1].queue == [Letter(1, y), Letter(0, x)]
  {
    steps := CrossedSends(topic, x, y);
    var b := Play(Empty<M, S>(), steps);
    steps, b := Grow(steps, b, End(0));
    assert b.inflight.Keys == {1};
    steps, b := Grow(steps, b, End(1));
  }

  lemma Grow<M, S>(steps: seq<Step<M, S>>, b: Broker<M, S>, step: Step<M, S>)
    returns (steps': seq<Step<M, S>>, b': Broker<M, S>)
    requires b == Play(Empty<M, S>(), steps)
    ensures steps' == steps + [step] && b' == Play(Empty<M, S>(), steps') == Fire(b, step)
  {
    steps' := steps + [step];
    assert steps'[..|steps|] == steps;
    b' := Fire(b, step);
  }

  // ---------------------------------------------------------------- the broker's code

  /** The subscriber lists name exactly the channels of their topic, each once. */
  ghost predicate Enrolled<M>(subs: map<GoString, seq<nat>>, chans: map<nat, Channel<M>>, closed: bool) {
    && (forall topic, i {:trigger subs[topic][i]} :: topic in subs && 0 <= i < |subs[topic]| ==>
          subs[topic][i] in chans && chans[subs[topic][i]].topic == topic)
    && (forall topic :: topic in subs ==> NoDuplicates(subs[topic]))
    && (!closed ==> forall id {:trigger chans[id]} :: id in chans ==>
        chans[id].topic in subs && id in subs[chans[id].topic])
  }

  lemma EnrolledKept<M>(subs: map<GoString, seq<nat>>, chans: map<nat, Channel<M>>, chans': map<nat, Channel<M>>,
                        closed: bool)
    requires Enrolled(subs, chans, closed) && chans'.Keys == chans.Keys
    requires forall id :: id in chans ==> chans'[id].topic == chans[id].topic
    ensures Enrolled(subs, chans', closed)
  {
  }

  lemma EnrolledOneMore<M>(subs: map<GoString, seq<nat>>, chans: map<nat, Channel<M>>, id: nat, c: Channel<M>)
    requires Enrolled(subs, chans, false) && id !in chans
    ensures Enrolled(subs[c.topic := (if c.topic in subs then subs[c.topic] else []) + [id]], chans[id := c], false)
  {
  }

  /** A topic's list has exactly its subscribers. */
  lemma ListIsSubscribers<M, S>(subs: map<GoString, seq<nat>>, b: Broker<M, S>, topic: GoString, ids: seq<nat>)
    requires Enrolled(subs, b.chans, false) && ids == if topic in subs then subs[topic] else []
    ensures NoDuplicates(ids) && Elements(ids) == Subscribers(b, topic)
  {
  }

  class MemoryTransport {
    var subs: map<GoString, seq<nat>>
    var chans: map<nat, Channel<Bytes>>
    var snapshots: map<GoString, Bytes>
    var closed: bool
    var log: map<GoString, seq<Letter<Bytes>>>  // history: what was published, per topic

    /** The machine's state while no method is running. */
    function State(): Broker<Bytes, Bytes>
      reads this
    {
      Broker(chans, snapshots, closed, log, map[])
    }

    ghost predicate Valid()
      reads this
    {
      Inv(State()) && Enrolled(subs, chans, closed) && (closed ==> subs == map[])
    }

    constructor ()
      ensures Valid() && State() == Empty()
    {
      subs, chans, snapshots, closed, log := map[], map[], map[], false, map[];
    }

    method Subscribe(topic: GoString, id: nat) returns (ok: bool)
      requires Valid() && id !in chans
      modifies this
      ensures Valid() && ok == !old(closed) && State() == Fire(old(State()), Step.Subscribe(topic, id))
    {
      StepKeepsInv(State(), Step.Subscribe(topic, id));
      if closed {
        return false;
      }
      EnrolledOneMore(subs, chans, id, Channel(topic, [], [], |LogOf(State(), topic)|, false));
      subs := subs[topic := (if topic in subs then subs[topic] else []) + [id]];
      chans := chans[id := Channel(topic, [], [], |LogOf(State(), topic)|, false)];
      return true;
    }

    method SendEach(ids: seq<nat>, l: Letter<Bytes>)
      requires NoDuplicates(ids) && Elements(ids) <= chans.Keys
      modifies this`chans
      ensures chans == Sent(old(chans), Elements(ids), l)
    {
      for i := 0 to |ids|
        invariant chans == Sent(old(chans), Elements(ids[..i]), l)
      {
        assert ids[i] in Elements(ids) && ids[i] !in Elements(ids[..i]);
        assert Elements(ids[..i + 1]) == Elements(ids[..i]) + {ids[i]};
        chans := chans[ids[i] := Pushed(chans[ids[i]], l)];
      }
      assert ids[..|ids|] == ids;
    }

    /**
     Publish without interruption: one non-blocking send per subscriber of the topic; a full queue loses the
     message silently.
     */
    method Publish(from: nat, topic: GoString, msg: Bytes) returns (ok: bool)
      requires Valid()
      modifies this
      ensures Valid() && ok == !old(closed)
      ensures State() == if ok then Published(old(State()), from, topic, msg) else old(State())
    {
      if closed {
        return false;
      }
      var ids := if topic in subs then subs[topic] else [];
      ListIsSubscribers(subs, State(), topic, ids);
      PublishKeepsInv(State(), from, topic, msg, ids);
      EnrolledKept(subs, chans, Sent(chans, Elements(ids), Letter(from, msg)), false);
      SendEach(ids, Letter(from, msg));
      log := log[topic := LogOf(State(), topic) + [Letter(from, msg)]];
      return true;
    }

    method Snapshot(topic: GoString, body: Bytes) returns (ok: bool)
      requires Valid()
      modifies this`snapshots
      ensures Valid() && ok == !closed && State() == Fire(old(State()), Step.Snapshot(topic, body))
    {
      StepKeepsInv(State(), Step.Snapshot(topic, body));
      if closed {
        return false;
      }
      snapshots := snapshots[topic := body];
      return true;
    }

    method FetchSnapshot(topic: GoString) returns (ok: bool, body: Option<Bytes>)
      requires Valid()
      ensures ok == !closed
      ensures body == if ok && topic in snapshots then Some(snapshots[topic]) else None
    {
      if closed {
        return false, None;
      }
      return true, if topic in snapshots then Some(snapshots[topic]) else None;
    }

    method Close()
      requires Valid()
      modifies this`closed, this`subs
      ensures Valid() && State() == Fire(old(State()), Step.Close)
    {
      StepKeepsInv(State(), Step.Close);
      if closed {
        return;
      }
      closed := true;
      subs := map[];
    }

    /** One receive by the consumer of a channel. */
    method Receive(id: nat) returns (msg: Option<Bytes>)
      requires Valid() && id in chans
      modifies this`chans
      ensures Valid() && State() == Fire(old(State()), Step.Receive(id))
      ensures msg == if old(chans)[id].queue == [] then None else Some(old(chans)[id].queue[0].msg)
    {
      StepKeepsInv(State(), Step.Receive(id));
      var c := chans[id];
      if c.queue == [] {
        return None;
      }
      var c' := c.(queue := c.queue[1..], taken := c.taken + [c.queue[0]]);
      EnrolledKept(subs, chans, chans[id := c'], closed);
      chans := chans[id := c'];
      return Some(c.queue[0].msg);
    }
  }
}
