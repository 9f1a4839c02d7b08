/**
 Stores with a merger. The merger runs only when a Set wins last-write-wins, so what a replica holds is the
 join of the Sets it accepted since the Delete it last accepted, and this depends on arrival order. Delivery
 in stamp order is enough for replicas to agree.
 */
module Merging {
  import opened Order
  import opened Replica
  import opened History

  predicate Commutes<T(==)>(m: (T, T) -> T, a: T, b: T) {
    m(a, b) == m(b, a)
  }

  predicate Associates<T(==)>(m: (T, T) -> T, a: T, b: T, c: T) {
    m(m(a, b), c) == m(a, m(b, c))
  }

  ghost predicate Semilattice<T(!new)>(m: (T, T) -> T) {
    && (forall a, b {:trigger Commutes(m, a, b)} :: Commutes(m, a, b))
    && (forall a, b, c {:trigger Associates(m, a, b, c)} :: Associates(m, a, b, c))
    && (forall a :: m(a, a) == a)
  }

  ghost predicate Bounds<T>(m: (T, T) -> T, u: T, s: set<T>) {
    forall x :: x in s ==> m(u, x) == u
  }

  /** `v` is the least upper bound of `s` under the order `x <= u` iff m(u, x) == u. */
  ghost predicate IsJoin<T(!new)>(m: (T, T) -> T, v: T, s: set<T>) {
    && Bounds(m, v, s)
    && (forall u {:trigger Bounds(m, u, s)} :: Bounds(m, u, s) ==> m(u, v) == u)
  }

  lemma JoinUnique<T(!new)>(m: (T, T) -> T, v: T, v': T, s: set<T>)
    requires Semilattice(m) && IsJoin(m, v, s) && IsJoin(m, v', s)
    ensures v == v'
  {
    assert Commutes(m, v, v');
  }

  lemma JoinSingle<T(!new)>(m: (T, T) -> T, x: T)
    requires Semilattice(m)
    ensures IsJoin(m, x, {x})
  {
    forall u | Bounds(m, u, {x}) ensures m(u, x) == u {
      assert x in {x};
    }
  }

  lemma JoinExtends<T(!new)>(m: (T, T) -> T, v: T, s: set<T>, x: T)
    requires Semilattice(m) && IsJoin(m, v, s)
    ensures IsJoin(m, m(v, x), s + {x})
  {
    forall y | y in s + {x} ensures m(m(v, x), y) == m(v, x) {
      assert Associates(m, v, x, y) && Commutes(m, x, y) && Associates(m, v, y, x);
    }
    forall u | Bounds(m, u, s + {x}) ensures m(u, m(v, x)) == u {
      assert Bounds(m, u, s) && x in s + {x};
      assert Associates(m, u, v, x);
    }
  }

  /**
   The values that make up what is shown under `k`: the Sets accepted since the last accepted Delete. An entry
   adopted from a snapshot replaces them all, since a refresh never merges; so does a message of an unknown kind.
   */
  ghost function LiveSets<T>(cfg: Config<T>, data: Data<T>, ops: seq<Op<T>>, k: GoString): set<T> {
    if ops == [] then (if k in View(data) then {View(data)[k]} else {})
    else
      var before, op := ops[..|ops| - 1], ops[|ops| - 1];
      if op.Gc? || OpKey(op) != k || !Wins(Run(cfg, data, before), op) then LiveSets(cfg, data, before, k)
      else if op.Offer? && op.w.kind.KindSet? then LiveSets(cfg, data, before, k) + {op.w.value}
      else
        var e := OpEntry(cfg, Run(cfg, data, before), op);
        if e.tombstone then {} else {e.value}
  }

  /**
   With a semilattice merger the live value is the join of the Sets accepted since the last accepted Delete, or
   since the last entry adopted from a snapshot, in every history of writes, refreshes and collection passes.
   */
  lemma {:induction false} LiveValueIsJoin<T(!new)>(cfg: Config<T>, data: Data<T>, ops: seq<Op<T>>, k: GoString)
    requires cfg.merger.Some? && Semilattice(cfg.merger.value)
    ensures var view := View(Run(cfg, data, ops));
            var sets := LiveSets(cfg, data, ops, k);
            && (k in view <==> sets != {})
            && (k in view ==> IsJoin(cfg.merger.value, view[k], sets))
  {
    if ops == [] {
      if k in View(data) {
        JoinSingle(cfg.merger.value, View(data)[k]);
      }
    } else {
      var before, op := ops[..|ops| - 1], ops[|ops| - 1];
      LiveValueIsJoin(cfg, data, before, k);
      var mid := Run(cfg, data, before);
      var sets := LiveSets(cfg, data, before, k);
      if !op.Gc? && OpKey(op) == k && Wins(mid, op) {
        var e := OpEntry(cfg, mid, op);
        if op.Offer? && op.w.kind.KindSet? {
          var x := op.w.value;
          assert x in sets + {x};
          if k in View(mid) {
            JoinExtends(cfg.merger.value, View(mid)[k], sets, x);
          } else {
            JoinSingle(cfg.merger.value, x);
            assert sets + {x} == {x};
          }
        } else if !e.tombstone {
          JoinSingle(cfg.merger.value, e.value);
          assert e.value in {e.value};
        }
      } else {
        assert View(DoOp(cfg, mid, op)).Keys * {k} == View(mid).Keys * {k};
      }
    }
  }

  /**
   A refresh overwrites: adopting a newer live entry over a live value leaves the join of the two if and only if
   the newer one already contains the older one.
   */
  lemma RefreshOverwrites<T(!new)>(cfg: Config<T>, data: Data<T>, snap: Data<T>, k: GoString)
    requires cfg.merger.Some? && Semilattice(cfg.merger.value)
    requires k in View(data) && k in View(snap) && StampLess(data[k].stamp, snap[k].stamp)
    ensures var m, view := cfg.merger.value, View(Merge(data, snap));
            && k in view && view[k] == snap[k].value
            && (IsJoin(m, view[k], {data[k].value, snap[k].value}) <==>
                m(snap[k].value, data[k].value) == snap[k].value)
  {
    var m, x, y := cfg.merger.value, data[k].value, snap[k].value;
    JoinSingle(m, x);
    JoinExtends(m, x, {x}, y);
    assert {x} + {y} == {x, y} && Commutes(m, x, y);
    if IsJoin(m, y, {x, y}) {
      JoinUnique(m, y, m(x, y), {x, y});
    }
  }

  // ---------------------------------------------------------------- delivery in stamp order

  /** The operation offers a Set or Delete on `k`. */
  predicate Touches<T>(op: Op<T>, k: GoString) {
    op.Offer? && op.w.key == k
  }

  /** On `k` there are only Sets and Deletes; what happens to other keys is free, and so are collection passes. */
  predicate OnlyWrites<T>(ops: seq<Op<T>>, k: GoString) {
    forall i :: 0 <= i < |ops| ==> ops[i].Gc? || OpKey(ops[i]) != k || (ops[i].Offer? && !ops[i].w.kind.KindOther?)
  }

  ghost function Offered<T>(ops: seq<Op<T>>, k: GoString): set<Write<T>> {
    set i | 0 <= i < |ops| && Touches(ops[i], k) :: ops[i].w
  }

  /** The Sets above every Delete of a set of writes: no replica, no order. */
  ghost function AboveDeletes<T>(ws: set<Write<T>>): set<T> {
    set w | w in ws && w.kind.KindSet? && Survives(ws, w) :: w.value
  }

  ghost predicate Survives<T>(ws: set<Write<T>>, w: Write<T>) {
    forall d :: d in ws && d.kind.KindDelete? ==> StampLess(d.stamp, w.stamp)
  }

  /** Writes on `k` arrive in nondecreasing stamp order; an equal stamp is a duplicate. */
  ghost predicate InOrder<T>(ops: seq<Op<T>>, k: GoString) {
    forall i, j :: 0 <= i < j < |ops| && Touches(ops[i], k) && Touches(ops[j], k) ==>
      ops[i].w == ops[j].w || StampLess(ops[i].w.stamp, ops[j].w.stamp)
  }

  /** The write is the newest of the set. */
  ghost predicate Newest<T>(ws: set<Write<T>>, w: Write<T>) {
    w in ws && forall x :: x in ws ==> x == w || StampLess(x.stamp, w.stamp)
  }

  /**
   The entry on `k` is that of the newest write offered so far, unless that is a Delete whose tombstone was
   collected.
   */
  ghost predicate Topped<T(!new)>(data: Data<T>, ws: set<Write<T>>, k: GoString) {
    || (ws == {} && k !in data)
    || exists w :: Newest(ws, w) && TopsAs(data, w, k)
  }

  ghost predicate TopsAs<T>(data: Data<T>, w: Write<T>, k: GoString) {
    if k in data then data[k].stamp == w.stamp && (data[k].tombstone <==> w.kind.KindDelete?) else w.kind.KindDelete?
  }

  lemma OfferedSnoc<T>(before: seq<Op<T>>, op: Op<T>, k: GoString)
    ensures Offered(before + [op], k) == Offered(before, k) + if Touches(op, k) then {op.w} else {}
  {
    var ops := before + [op];
    forall w | w in Offered(before, k) ensures w in Offered(ops, k) {
      var i :| 0 <= i < |before| && Touches(before[i], k) && before[i].w == w;
      assert ops[i].w == w;
    }
    assert ops[|before|] == op;
  }

  lemma AboveNewest<T>(ws: set<Write<T>>, w: Write<T>)
    requires forall x :: x in ws ==> StampLess(x.stamp, w.stamp)
    ensures w.kind.KindSet? ==> AboveDeletes(ws + {w}) == AboveDeletes(ws) + {w.value}
  {
    StampLaws();
    var all := ws + {w};
    if w.kind.KindSet? {
      assert Survives(all, w);
      assert forall x :: x in ws && x.kind.KindSet? ==> (Survives(all, x) <==> Survives(ws, x));
    }
  }

  lemma NothingAboveDelete<T>(ws: set<Write<T>>, w: Write<T>)
    requires Newest(ws, w) && w.kind.KindDelete?
    ensures AboveDeletes(ws) == {}
  {
    StampLaws();
    assert forall x :: x in ws && x.kind.KindSet? ==> !Survives(ws, x);
  }

  lemma InOrderSnoc<T>(before: seq<Op<T>>, op: Op<T>, k: GoString)
    requires Touches(op, k) && InOrder(before + [op], k)
    ensures Newest(Offered(before, k) + {op.w}, op.w)
  {
    var ops := before + [op];
    forall x | x in Offered(before, k) ensures x == op.w || StampLess(x.stamp, op.w.stamp) {
      var i :| 0 <= i < |before| && Touches(before[i], k) && before[i].w == x;
      assert ops[i].w == x && ops[|before|].w == op.w;
    }
  }

  /** Offering the next write in order leaves its entry on top, or changes nothing when it is a duplicate. */
  lemma ToppedOffer<T(!new)>(cfg: Config<T>, data: Data<T>, ws: set<Write<T>>, w: Write<T>)
    requires Topped(data, ws, w.key) && Newest(ws + {w}, w)
    ensures Topped(DoOp(cfg, data, Offer(w)), ws + {w}, w.key)
    ensures Wins(data, Offer(w)) ==> w.kind.KindDelete? || w !in ws
    ensures !Wins(data, Offer(w)) ==> w in ws
  {
    StampLaws();
    if ws != {} {
      var top :| Newest(ws, top) && TopsAs(data, top, w.key);
      assert top in ws + {w};
      assert w in ws ==> top == w;
    }
    assert TopsAs(DoOp(cfg, data, Offer(w)), w, w.key);
  }

  /** Whatever else happens leaves the key on top: other keys do not touch it and only a tombstone is collected. */
  lemma ToppedOther<T(!new)>(cfg: Config<T>, data: Data<T>, ws: set<Write<T>>, op: Op<T>, k: GoString)
    requires Topped(data, ws, k) && (op.Gc? || OpKey(op) != k)
    ensures Topped(DoOp(cfg, data, op), ws, k)
  {
    if ws != {} {
      var top :| Newest(ws, top) && TopsAs(data, top, k);
      assert TopsAs(DoOp(cfg, data, op), top, k);
    }
  }

  lemma {:induction false} InOrderTopped<T(!new)>(cfg: Config<T>, data: Data<T>, ops: seq<Op<T>>, k: GoString)
    requires OnlyWrites(ops, k) && InOrder(ops, k) && k !in data
    ensures Topped(Run(cfg, data, ops), Offered(ops, k), k)
  {
    if ops != [] {
      var before, op := ops[..|ops| - 1], ops[|ops| - 1];
      assert ops == before + [op];
      InOrderTopped(cfg, data, before, k);
      OfferedSnoc(before, op, k);
      if Touches(op, k) {
        InOrderSnoc(before, op, k);
        ToppedOffer(cfg, Run(cfg, data, before), Offered(before, k), op.w);
      } else {
        assert Offered(ops, k) == Offered(before, k);
        ToppedOther(cfg, Run(cfg, data, before), Offered(before, k), op, k);
      }
    }
  }

  /** How the Sets above the Deletes grow by one write in order. */
  lemma AboveSnoc<T>(ws: set<Write<T>>, w: Write<T>)
    requires Newest(ws + {w}, w) && !w.kind.KindOther?
    ensures AboveDeletes(ws + {w}) == if w.kind.KindDelete? then {} else AboveDeletes(ws) + {w.value}
    ensures w in ws ==> AboveDeletes(ws + {w}) == AboveDeletes(ws)
  {
    StampLaws();
    if w.kind.KindDelete? {
      NothingAboveDelete(ws + {w}, w);
    } else if w in ws {
      assert Survives(ws, w);
      assert w.value in AboveDeletes(ws);
    } else {
      AboveNewest(ws, w);
    }
    assert w in ws ==> ws + {w} == ws;
  }

  lemma {:induction false} InOrderLiveSets<T(!new)>(cfg: Config<T>, data: Data<T>, ops: seq<Op<T>>, k: GoString)
    requires OnlyWrites(ops, k) && InOrder(ops, k) && k !in data
    ensures LiveSets(cfg, data, ops, k) == AboveDeletes(Offered(ops, k))
  {
    if ops != [] {
      var before, op := ops[..|ops| - 1], ops[|ops| - 1];
      assert ops == before + [op];
      InOrderLiveSets(cfg, data, before, k);
      OfferedSnoc(before, op, k);
      if Touches(op, k) {
        InOrderSnoc(before, op, k);
        InOrderTopped(cfg, data, before, k);
        ToppedOffer(cfg, Run(cfg, data, before), Offered(before, k), op.w);
        AboveSnoc(Offered(before, k), op.w);
      } else {
        assert Offered(ops, k) == Offered(before, k);
      }
    }
  }

  /**
   Two replicas that receive the same writes on a key, each in stamp order and with any duplicates,
   any collection passes and any traffic on other keys in between, end with the same live value: the
   join of the Sets above the greatest Delete.
   */
  lemma InOrderMergersConverge<T(!new)>(cfg: Config<T>, data: Data<T>, ops: seq<Op<T>>, data': Data<T>,
                                        ops': seq<Op<T>>, k: GoString)
    requires cfg.merger.Some? && Semilattice(cfg.merger.value)
    requires OnlyWrites(ops, k) && InOrder(ops, k) && k !in data
    requires OnlyWrites(ops', k) && InOrder(ops', k) && k !in data'
    requires Offered(ops, k) == Offered(ops', k)
    ensures var view, view' := View(Run(cfg, data, ops)), View(Run(cfg, data', ops'));
            && (k in view <==> AboveDeletes(Offered(ops, k)) != {}) && (k in view' <==> k in view)
            && (k in view ==> view[k] == view'[k] && IsJoin(cfg.merger.value, view[k], AboveDeletes(Offered(ops, k))))
  {
    InOrderLiveSets(cfg, data, ops, k);
    InOrderLiveSets(cfg, data', ops', k);
    LiveValueIsJoin(cfg, data, ops, k);
    LiveValueIsJoin(cfg, data', ops', k);
    var view, view' := View(Run(cfg, data, ops)), View(Run(cfg, data', ops'));
    if k in view {
      JoinUnique(cfg.merger.value, view[k], view'[k], AboveDeletes(Offered(ops, k)));
    }
  }

  /**
   A semilattice merger alone does not make replicas agree: two Sets delivered in opposite orders leave the same
   value exactly when the newer one already contains the older one.
   */
  lemma ReorderedSetsAgree<T(!new)>(cfg: Config<T>, older: Write<T>, newer: Write<T>)
    requires cfg.merger.Some? && Semilattice(cfg.merger.value)
    requires older.kind.KindSet? && newer.kind.KindSet? && older.key == newer.key && StampLess(older.stamp, newer.stamp)
    ensures var m := cfg.merger.value;
            var one := Apply(cfg, Apply(cfg, map[], older), newer);
            var two := Apply(cfg, Apply(cfg, map[], newer), older);
            && View(one) == map[older.key := m(older.value, newer.value)]
            && View(two) == map[older.key := newer.value]
            && (View(one) == View(two) <==> m(newer.value, older.value) == newer.value)
  {
    StampLaws();
    var one := Apply(cfg, Apply(cfg, map[], older), newer);
    var two := Apply(cfg, Apply(cfg, map[], newer), older);
    assert Commutes(cfg.merger.value, newer.value, older.value);
    assert View(one)[older.key] == cfg.merger.value(older.value, newer.value);
    assert View(two)[older.key] == newer.value;
  }
}
