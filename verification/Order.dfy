/**
 Byte strings, Go's lexicographic string order, and the total order (Timestamp, Origin, Seq)
 by which last-write-wins compares two writes.
 */
module Order {

  newtype Byte = x: int | 0 <= x < 256
  type Bytes = seq<Byte>
  type GoString = seq<Byte>

  datatype Option<+T> = None | Some(value: T)

  /** Go's `<` on strings: byte-wise lexicographic. */
  predicate StrLess(a: GoString, b: GoString)
    decreases |a|
  {
    b != [] && (a == [] || a[0] < b[0] || (a[0] == b[0] && StrLess(a[1..], b[1..])))
  }

  /** The strings agree up to a place where the first has the lower byte. */
  ghost predicate DiffersBelow(a: GoString, b: GoString) {
    exists i :: 0 <= i < |a| && i < |b| && a[..i] == b[..i] && a[i] < b[i]
  }

  /**
   What the order is: a string lies below another exactly when it is a proper prefix of it or has the
   lower byte at the first place where they differ.
   */
  lemma {:induction false} StrOrder(a: GoString, b: GoString)
    ensures StrLess(a, b) <==> a < b || DiffersBelow(a, b)
    decreases |a|
  {
    if a != [] && b != [] {
      if a[0] == b[0] {
        StrOrder(a[1..], b[1..]);
        TailOrder(a, b);
      } else {
        FirstByteDecides(a, b);
      }
    }
  }

  lemma FirstByteDecides(a: GoString, b: GoString)
    requires a != [] && b != [] && a[0] != b[0]
    ensures DiffersBelow(a, b) <==> a[0] < b[0]
  {
    assert a[..0] == b[..0];
    forall i | 0 < i < |a| && i < |b| ensures a[..i] != b[..i] {
      assert a[..i][0] == a[0] && b[..i][0] == b[0];
    }
  }

  /** Behind an equal first byte the order is that of the rest. */
  lemma TailOrder(a: GoString, b: GoString)
    requires a != [] && b != [] && a[0] == b[0]
    ensures a < b <==> a[1..] < b[1..]
    ensures DiffersBelow(a, b) <==> DiffersBelow(a[1..], b[1..])
  {
    assert a == [a[0]] + a[1..] && b == [b[0]] + b[1..];
    if DiffersBelow(a, b) {
      var i :| 0 <= i < |a| && i < |b| && a[..i] == b[..i] && a[i] < b[i];
      assert a[1..][..i - 1] == a[..i][1..] && b[1..][..i - 1] == b[..i][1..];
      assert a[1..][i - 1] < b[1..][i - 1];
    }
    if DiffersBelow(a[1..], b[1..]) {
      var i :| 0 <= i < |a[1..]| && i < |b[1..]| && a[1..][..i] == b[1..][..i] && a[1..][i] < b[1..][i];
      assert a[..i + 1] == [a[0]] + a[1..][..i] && b[..i + 1] == [b[0]] + b[1..][..i];
      assert a[i + 1] < b[i + 1];
    }
  }

  lemma {:induction false} StrTrichotomy(a: GoString, b: GoString)
    ensures a == b || StrLess(a, b) || StrLess(b, a)
    ensures !(StrLess(a, b) && StrLess(b, a))
  {
    if a != [] && b != [] {
      StrTrichotomy(a[1..], b[1..]);
      assert a == [a[0]] + a[1..] && b == [b[0]] + b[1..];
    }
  }

  lemma {:induction false} StrIrreflexive(a: GoString)
    ensures !StrLess(a, a)
  {
    if a != [] {
      StrIrreflexive(a[1..]);
    }
  }

  lemma {:induction false} StrTransitive(a: GoString, b: GoString, c: GoString)
    requires StrLess(a, b) && StrLess(b, c)
    ensures StrLess(a, c)
  {
    if a != [] && a[0] == b[0] && b[0] == c[0] {
      StrTransitive(a[1..], b[1..], c[1..]);
    }
  }

  /** The LWW identity of a write. `seqno` is the per-node counter the source calls Seq. */
  datatype Stamp = Stamp(timestamp: int, origin: GoString, seqno: nat)

  predicate StampLess(a: Stamp, b: Stamp) {
    || a.timestamp < b.timestamp
    || (a.timestamp == b.timestamp && StrLess(a.origin, b.origin))
    || (a.timestamp == b.timestamp && a.origin == b.origin && a.seqno < b.seqno)
  }

  predicate StampLeq(a: Stamp, b: Stamp) {
    a == b || StampLess(a, b)
  }

  /** StampLess is a strict total order. */
  lemma StampTrichotomy(a: Stamp, b: Stamp)
    ensures a == b || StampLess(a, b) || StampLess(b, a)
    ensures !(StampLess(a, b) && StampLess(b, a))
    ensures !StampLess(a, a)
  {
    StrTrichotomy(a.origin, b.origin);
    StrIrreflexive(a.origin);
  }

  lemma StampTransitive(a: Stamp, b: Stamp, c: Stamp)
    requires StampLess(a, b) && StampLess(b, c)
    ensures StampLess(a, c)
  {
    if StrLess(a.origin, b.origin) && StrLess(b.origin, c.origin) {
      StrTransitive(a.origin, b.origin, c.origin);
    }
  }

  /** The laws of the stamp order in quantified form, for use inside other proofs. */
  lemma StampLaws()
    ensures forall a, b :: a == b || StampLess(a, b) || StampLess(b, a)
    ensures forall a, b :: StampLess(a, b) ==> !StampLess(b, a) && a != b
    ensures forall a, b, c :: StampLess(a, b) && StampLess(b, c) ==> StampLess(a, c)
  {
    forall a: Stamp, b: Stamp
      ensures a == b || StampLess(a, b) || StampLess(b, a)
      ensures StampLess(a, b) ==> !StampLess(b, a) && a != b
    {
      StampTrichotomy(a, b);
    }
    forall a, b, c | StampLess(a, b) && StampLess(b, c) ensures StampLess(a, c) {
      StampTransitive(a, b, c);
    }
  }

  lemma {:induction false} SubsetSize<A>(a: set<A>, b: set<A>)
    requires a <= b
    ensures |a| <= |b|
  {
    if a != {} {
      var x :| x in a;
      SubsetSize(a - {x}, b - {x});
    }
  }
}
