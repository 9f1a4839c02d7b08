/**
 Sequences of local writes by one node: why they are never lost to the node itself, and why a
 batch is the same as single writes in any order.
 */
module LocalWrites {
  import opened Order
  import opened Replica
  import opened History

  /** One Set or Delete call with the clock reading it takes. */
  datatype Call<+T> = Call(key: GoString, kind: Kind, value: T, now: int)

  /** The write built by the i-th call of a node whose counter was `counter` before the first. */
  function LocalOp<T>(cfg: Config<T>, self: GoString, counter: nat, i: nat, c: Call<T>): Op<T> {
    Offer(Write(c.key, c.kind, if c.kind.KindDelete? then cfg.zero else c.value, Stamp(c.now, self, counter + 1 + i)))
  }

  function LocalOps<T>(cfg: Config<T>, self: GoString, counter: nat, calls: seq<Call<T>>): (ops: seq<Op<T>>)
    ensures |ops| == |calls|
    ensures forall i :: 0 <= i < |ops| ==> ops[i] == LocalOp(cfg, self, counter, i, calls[i])
  {
    seq(|calls|, i requires 0 <= i < |calls| => LocalOp(cfg, self, counter, i, calls[i]))
  }

  /** The index of the last call on `k`, or -1. */
  function LastCall<T>(calls: seq<Call<T>>, k: GoString): (i: int)
    ensures -1 <= i < |calls|
    ensures i >= 0 ==> calls[i].key == k
    ensures forall j :: i < j < |calls| ==> calls[j].key != k
  {
    if calls == [] then -1
    else if calls[|calls| - 1].key == k then |calls| - 1
    else LastCall(calls[..|calls| - 1], k)
  }

  lemma LocalOpsSnoc<T>(cfg: Config<T>, self: GoString, counter: nat, calls: seq<Call<T>>)
    requires calls != []
    ensures LocalOps(cfg, self, counter, calls) ==
            LocalOps(cfg, self, counter, calls[..|calls| - 1]) +
                [LocalOp(cfg, self, counter, |calls| - 1, calls[|calls| - 1])]
  {
  }

  // ---------------------------------------------------------------- own writes are never lost

  /** The key is absent, strictly older than `now`, or this node's own and counted. */
  predicate Yields<T>(data: Data<T>, self: GoString, counter: nat, key: GoString, now: int) {
    key in data ==>
      var s := data[key].stamp;
      s.timestamp < now || (s.timestamp == now && s.origin == self && s.seqno <= counter)
  }

  ghost predicate Sequential<T>(data: Data<T>, self: GoString, counter: nat, calls: seq<Call<T>>) {
    && (forall i :: 0 <= i < |calls| ==>
        Yields(data, self, counter, calls[i].key, calls[i].now) && !calls[i].kind.KindOther?)
    && (forall i, j :: 0 <= i < j < |calls| ==> calls[i].now <= calls[j].now)
  }

  /** The entry under `k` is the one the last call on it left, or untouched. */
  ghost predicate LeftBy<T>(cfg: Config<T>, data: Data<T>, self: GoString, counter: nat, calls: seq<Call<T>>,
                            data': Data<T>, k: GoString) {
    var i := LastCall(calls, k);
    if i < 0 then (k in data <==> k in data') && (k in data ==> data'[k] == data[k])
    else
      && k in data' && data'[k].stamp == Stamp(calls[i].now, self, counter + 1 + i)
      && (data'[k].tombstone <==> calls[i].kind.KindDelete?)
      && (cfg.merger.None? && !calls[i].kind.KindDelete? ==> data'[k].value == calls[i].value)
  }

  lemma LastCallSnoc<T>(init: seq<Call<T>>, c: Call<T>, k: GoString)
    ensures LastCall(init + [c], k) == if c.key == k then |init| else LastCall(init, k)
  {
    assert (init + [c])[..|init|] == init;
  }

  lemma OwnWriteKept<T>(cfg: Config<T>, data: Data<T>, self: GoString, counter: nat, init: seq<Call<T>>, c: Call<T>,
                        mid: Data<T>, k: GoString)
    requires Yields(data, self, counter, c.key, c.now) && !c.kind.KindOther?
    requires forall i :: 0 <= i < |init| ==> init[i].now <= c.now
    requires LeftBy(cfg, data, self, counter, init, mid, c.key) && LeftBy(cfg, data, self, counter, init, mid, k)
    ensures var op := LocalOp(cfg, self, counter, |init|, c);
            Wins(mid, op) && LeftBy(cfg, data, self, counter, init + [c], DoOp(cfg, mid, op), k)
  {
    LastCallSnoc(init, c, k);
  }

  /**
   Under a nondecreasing clock every sequential local write is accepted, even when all timestamps are
   equal, and each key ends with its last write.
   */
  lemma {:induction false} OwnWritesKept<T>(cfg: Config<T>, data: Data<T>, self: GoString, counter: nat,
                                            calls: seq<Call<T>>)
    requires Sequential(data, self, counter, calls)
    ensures var ops := LocalOps(cfg, self, counter, calls);
            && |Installs(cfg, data, ops)| == |calls|
            && forall k :: LeftBy(cfg, data, self, counter, calls, Run(cfg, data, ops), k)
  {
    if calls != [] {
      var init := calls[..|calls| - 1];
      OwnWritesKept(cfg, data, self, counter, init);
      assert calls == init + [calls[|init|]];
      OwnWriteNext(cfg, data, self, counter, init, calls[|init|], Run(cfg, data, LocalOps(cfg, self, counter, init)));
      LocalOpsSnoc(cfg, self, counter, calls);
      RunSnoc(cfg, data, LocalOps(cfg, self, counter, init), LocalOp(cfg, self, counter, |init|, calls[|init|]));
    }
  }

  lemma OwnWriteNext<T>(cfg: Config<T>, data: Data<T>, self: GoString, counter: nat, init: seq<Call<T>>, c: Call<T>,
                        mid: Data<T>)
    requires Yields(data, self, counter, c.key, c.now) && !c.kind.KindOther? && forall i :: 0 <= i < |init| ==>
             init[i].now <= c.now
    requires forall k :: LeftBy(cfg, data, self, counter, init, mid, k)
    ensures Wins(mid, LocalOp(cfg, self, counter, |init|, c))
    ensures forall k ::
            LeftBy(cfg, data, self, counter, init + [c], DoOp(cfg, mid, LocalOp(cfg, self, counter, |init|, c)), k)
  {
    var op := LocalOp(cfg, self, counter, |init|, c);
    assert LeftBy(cfg, data, self, counter, init, mid, c.key);
    OwnWriteKept(cfg, data, self, counter, init, c, mid, c.key);
    forall k ensures LeftBy(cfg, data, self, counter, init + [c], DoOp(cfg, mid, op), k) {
      assert LeftBy(cfg, data, self, counter, init, mid, k);
      OwnWriteKept(cfg, data, self, counter, init, c, mid, k);
    }
  }

  /** What a reader gets afterwards without a merger: the last Set's value, or nothing after a Delete. */
  lemma OwnWritesRead<T>(cfg: Config<T>, data: Data<T>, self: GoString, counter: nat, calls: seq<Call<T>>, k: GoString)
    requires cfg.merger.None? && Sequential(data, self, counter, calls) && LastCall(calls, k) >= 0
    ensures var view := View(Run(cfg, data, LocalOps(cfg, self, counter, calls)));
            var last := calls[LastCall(calls, k)];
            if last.kind.KindSet? then k in view && view[k] == last.value else k !in view
  {
    OwnWritesKept(cfg, data, self, counter, calls);
    assert LeftBy(cfg, data, self, counter, calls, Run(cfg, data, LocalOps(cfg, self, counter, calls)), k);
  }

  // ---------------------------------------------------------------- batches refine single writes

  /** Entries this node authored never run ahead of its counter. */
  ghost predicate OwnCounted<T>(data: Data<T>, self: GoString, counter: nat) {
    forall k :: k in data && data[k].stamp.origin == self ==> data[k].stamp.seqno <= counter
  }

  /** A write by `self` at `now` wins over the entry under `k`, whatever counter value it takes. */
  predicate Admits<T>(data: Data<T>, self: GoString, now: int, k: GoString) {
    k in data ==>
      var s := data[k].stamp;
      s.timestamp < now || (s.timestamp == now && !StrLess(self, s.origin))
  }

  /** The calls carry out exactly `batch` at one clock reading; only a Delete may be repeated. */
  ghost predicate CarryOut<T>(calls: seq<Call<T>>, batch: map<GoString, (Kind, T)>, now: int) {
    && (forall i :: 0 <= i < |calls| ==>
          calls[i].key in batch && batch[calls[i].key] == (calls[i].kind, calls[i].value) && calls[i].now == now
          && !calls[i].kind.KindOther?)
    && (forall k :: k in batch ==> LastCall(calls, k) >= 0)
    && NoRepeatedSet(calls)
  }

  ghost predicate NoRepeatedSet<T>(calls: seq<Call<T>>) {
    forall i, j :: 0 <= i < j < |calls| && calls[i].key == calls[j].key ==>
        calls[i].kind.KindDelete? && calls[j].kind.KindDelete?
  }

  /** What a batch does to the live view, with no mention of order or counters. */
  function BatchView<T>(cfg: Config<T>, data: Data<T>, self: GoString, now: int,
                        batch: map<GoString, (Kind, T)>): map<GoString, T> {
    map k | k in View(data).Keys + batch.Keys
            && (if k in batch && Admits(data, self, now, k) then batch[k].0.KindSet? else k in View(data)) ::
      if k in batch && Admits(data, self, now, k) then
        if cfg.merger.Some? && k in View(data) then cfg.merger.value(View(data)[k], batch[k].1) else batch[k].1
      else View(data)[k]
  }

  ghost predicate BatchedBy<T>(cfg: Config<T>, data: Data<T>, self: GoString, counter: nat, calls: seq<Call<T>>,
                               data': Data<T>, k: GoString) {
    var i := LastCall(calls, k);
    if i < 0 || !Admits(data, self, calls[i].now, k) then
      (k in data <==> k in data') && (k in data ==> data'[k] == data[k])
    else
      && k in data' && data'[k].stamp == Stamp(calls[i].now, self, counter + 1 + i)
      && (data'[k].tombstone <==> calls[i].kind.KindDelete?)
      && (!calls[i].kind.KindDelete? ==>
          data'[k].value == Settled(cfg, data, Write(k, calls[i].kind, calls[i].value, data'[k].stamp)))
  }

  /** The last call of a batch leaves each key as BatchedBy says. */
  lemma BatchedSnoc<T>(cfg: Config<T>, data: Data<T>, self: GoString, counter: nat, calls: seq<Call<T>>, mid: Data<T>,
                       k: GoString)
    requires OwnCounted(data, self, counter) && NoRepeatedSet(calls) && calls != []
             && !calls[|calls| - 1].kind.KindOther?
    requires var init, c := calls[..|calls| - 1], calls[|calls| - 1];
             && (forall i :: 0 <= i < |init| ==> init[i].now == c.now)
             && BatchedBy(cfg, data, self, counter, init, mid, k)
             && (Wins(mid, LocalOp(cfg, self, counter, |init|, c)) <==> Admits(data, self, c.now, c.key))
    ensures BatchedBy(cfg, data, self, counter, calls,
                      DoOp(cfg, mid, LocalOp(cfg, self, counter, |calls| - 1, calls[|calls| - 1])), k)
  {
    var init, c := calls[..|calls| - 1], calls[|calls| - 1];
    assert calls == init + [c];
    LastCallSnoc(init, c, k);
    if k == c.key {
      BatchedLast(cfg, data, self, counter, init, c, mid);
    } else {
      var i := LastCall(init, k);
      assert i >= 0 ==> calls[i] == init[i];
    }
  }

  /** The entry the last call of a batch leaves under its key: an earlier call on it was a Delete like this one. */
  lemma BatchedLast<T>(cfg: Config<T>, data: Data<T>, self: GoString, counter: nat, init: seq<Call<T>>, c: Call<T>,
                       mid: Data<T>)
    requires NoRepeatedSet(init + [c]) && !c.kind.KindOther? && BatchedBy(cfg, data, self, counter, init, mid, c.key)
    requires forall i :: 0 <= i < |init| ==> init[i].now == c.now
    requires Wins(mid, LocalOp(cfg, self, counter, |init|, c)) <==> Admits(data, self, c.now, c.key)
    ensures var data' := DoOp(cfg, mid, LocalOp(cfg, self, counter, |init|, c));
            if !Admits(data, self, c.now, c.key) then
              (c.key in data <==> c.key in data') && (c.key in data ==> data'[c.key] == data[c.key])
            else
              && c.key in data' && data'[c.key].stamp == Stamp(c.now, self, counter + 1 + |init|)
              && (data'[c.key].tombstone <==> c.kind.KindDelete?)
              && (!c.kind.KindDelete? ==>
                  data'[c.key].value == Settled(cfg, data, Write(c.key, c.kind, c.value, data'[c.key].stamp)))
  {
    var i := LastCall(init, c.key);
    if i >= 0 {
      assert (init + [c])[i] == init[i] && (init + [c])[|init|] == c;
    }
  }

  lemma {:induction false} BatchEntries<T>(cfg: Config<T>, data: Data<T>, self: GoString, counter: nat,
                                           calls: seq<Call<T>>, now: int)
    requires OwnCounted(data, self, counter) && NoRepeatedSet(calls)
    requires forall i :: 0 <= i < |calls| ==> calls[i].now == now && !calls[i].kind.KindOther?
    ensures forall k ::
            BatchedBy(cfg, data, self, counter, calls, Run(cfg, data, LocalOps(cfg, self, counter, calls)), k)
  {
    if calls != [] {
      var init, c := calls[..|calls| - 1], calls[|calls| - 1];
      BatchEntries(cfg, data, self, counter, init, now);
      LocalOpsSnoc(cfg, self, counter, calls);
      var op := LocalOp(cfg, self, counter, |init|, c);
      RunSnoc(cfg, data, LocalOps(cfg, self, counter, init), op);
      var mid := Run(cfg, data, LocalOps(cfg, self, counter, init));
      assert BatchedBy(cfg, data, self, counter, init, mid, c.key);
      BatchAdmits(cfg, data, self, counter, init, mid, c);
      forall k ensures BatchedBy(cfg, data, self, counter, calls, DoOp(cfg, mid, op), k) {
        assert BatchedBy(cfg, data, self, counter, init, mid, k);
        BatchedSnoc(cfg, data, self, counter, calls, mid, k);
      }
    }
  }

  /** Whether a call of a batch wins was decided before the batch. */
  lemma BatchAdmits<T>(cfg: Config<T>, data: Data<T>, self: GoString, counter: nat, init: seq<Call<T>>, mid: Data<T>,
                       c: Call<T>)
    requires OwnCounted(data, self, counter) && forall i :: 0 <= i < |init| ==> init[i].now == c.now
    requires BatchedBy(cfg, data, self, counter, init, mid, c.key)
    ensures Wins(mid, LocalOp(cfg, self, counter, |init|, c)) <==> Admits(data, self, c.now, c.key)
  {
    if c.key in data {
      StrTrichotomy(self, data[c.key].stamp.origin);
    }
  }

  /** SetMany and DeleteMany: any order of single writes at one clock reading shows the batch's view. */
  lemma BatchRefinesSingles<T>(cfg: Config<T>, data: Data<T>, self: GoString, counter: nat, calls: seq<Call<T>>,
                               batch: map<GoString, (Kind, T)>, now: int)
    requires OwnCounted(data, self, counter) && CarryOut(calls, batch, now)
    ensures View(Run(cfg, data, LocalOps(cfg, self, counter, calls))) == BatchView(cfg, data, self, now, batch)
  {
    var data' := Run(cfg, data, LocalOps(cfg, self, counter, calls));
    BatchEntries(cfg, data, self, counter, calls, now);
    var view, shown := View(data'), BatchView(cfg, data, self, now, batch);
    forall k ensures (k in view <==> k in shown) && (k in view ==> view[k] == shown[k]) {
      assert BatchedBy(cfg, data, self, counter, calls, data', k);
      BatchedShows(cfg, data, self, counter, calls, batch, now, data', k);
    }
  }

  lemma BatchedShows<T>(cfg: Config<T>, data: Data<T>, self: GoString, counter: nat, calls: seq<Call<T>>,
                        batch: map<GoString, (Kind, T)>,
                        now: int, data': Data<T>, k: GoString)
    requires CarryOut(calls, batch, now) && BatchedBy(cfg, data, self, counter, calls, data', k)
    ensures var view, shown := View(data'), BatchView(cfg, data, self, now, batch);
            (k in view <==> k in shown) && (k in view ==> view[k] == shown[k])
  {
    assert k in batch <==> LastCall(calls, k) >= 0;
  }
}
