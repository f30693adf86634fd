/**
  The multisets ordered by export time (`m_dfSet` and `m_pfSet`).  An entry carries the
  export time its object had when it was inserted; that this is still the object's export
  time is part of the invariant of the owner.
 */
module TimeSet {

  datatype Entry<T> = Entry(time: int, id: T)

  predicate Sorted<T>(s: seq<Entry<T>>) {
    forall i, j :: 0 <= i < j < |s| ==> s[i].time <= s[j].time
  }

  predicate Distinct<T(==)>(s: seq<Entry<T>>) {
    forall i, j :: 0 <= i < j < |s| ==> s[i].id != s[j].id
  }

  function Ids<T>(s: seq<Entry<T>>): set<T> {
    set i | 0 <= i < |s| :: s[i].id
  }

  /** The first position whose time is at least `t`: where `find` starts. */
  function LowerBound<T>(s: seq<Entry<T>>, t: int): (p: nat)
    ensures p <= |s|
    ensures forall i :: 0 <= i < p ==> s[i].time < t
    ensures p < |s| ==> s[p].time >= t
  {
    if s == [] || s[0].time >= t then 0 else 1 + LowerBound(s[1..], t)
  }

  /** The first position whose time exceeds `t`: where `insert` puts an equal element. */
  function UpperBound<T>(s: seq<Entry<T>>, t: int): (p: nat)
    ensures p <= |s|
    ensures forall i :: 0 <= i < p ==> s[i].time <= t
    ensures p < |s| ==> s[p].time > t
  {
    if s == [] || s[0].time > t then 0 else 1 + UpperBound(s[1..], t)
  }

  function Insert<T>(s: seq<Entry<T>>, e: Entry<T>): seq<Entry<T>> {
    var p := UpperBound(s, e.time);
    s[..p] + [e] + s[p..]
  }

  function EraseAt<T>(s: seq<Entry<T>>, i: nat): seq<Entry<T>>
    requires i < |s|
  {
    s[..i] + s[i + 1..]
  }

  lemma InIds<T>(s: seq<Entry<T>>, i: nat)
    requires i < |s|
    ensures s[i].id in Ids(s)
  {
  }

  lemma InsertAt<T>(s: seq<Entry<T>>, e: Entry<T>, i: nat)
    requires i <= |s|
    ensures |Insert(s, e)| == |s| + 1
    ensures var p := UpperBound(s, e.time);
            Insert(s, e)[i] == (if i < p then s[i] else if i == p then e else s[i - 1])
  {
  }

  /** Inserting a new element keeps the order and adds that element, once. */
  lemma InsertKeeps<T>(s: seq<Entry<T>>, e: Entry<T>)
    requires Sorted(s) && Distinct(s) && e.id !in Ids(s)
    ensures Sorted(Insert(s, e)) && Distinct(Insert(s, e))
    ensures |Insert(s, e)| == |s| + 1
  {
    var s' := Insert(s, e);
    forall i, j | 0 <= i < j < |s'| ensures s'[i].time <= s'[j].time && s'[i].id != s'[j].id {
      InsertAt(s, e, i);
      InsertAt(s, e, j);
      var p := UpperBound(s, e.time);
      if i == p { InIds(s, j - 1); } else if j == p { InIds(s, i); }
    }
  }

  lemma InsertMembers<T>(s: seq<Entry<T>>, e: Entry<T>)
    ensures Ids(Insert(s, e)) == Ids(s) + {e.id}
    ensures forall x :: x in Insert(s, e) ==> x in s || x == e
  {
    var s', p := Insert(s, e), UpperBound(s, e.time);
    forall x | x in Ids(s') ensures x in Ids(s) + {e.id} {
      var i :| 0 <= i < |s'| && s'[i].id == x;
      InsertAt(s, e, i);
    }
    forall x | x in Ids(s) ensures x in Ids(s') {
      var i :| 0 <= i < |s| && s[i].id == x;
      InsertAt(s, e, if i < p then i else i + 1);
    }
    assert s'[p] == e;
  }

  /** Erasing a position keeps the order and takes out that element only. */
  lemma EraseKeeps<T>(s: seq<Entry<T>>, i: nat)
    requires Sorted(s) && Distinct(s) && i < |s|
    ensures Sorted(EraseAt(s, i)) && Distinct(EraseAt(s, i))
    ensures Ids(EraseAt(s, i)) == Ids(s) - {s[i].id}
    ensures forall x :: x in EraseAt(s, i) ==> x in s
  {
    var s' := EraseAt(s, i);
    forall x | x in Ids(s') ensures x in Ids(s) - {s[i].id} {
      var j :| 0 <= j < |s'| && s'[j].id == x;
      assert s'[j] == s[if j < i then j else j + 1];
    }
    forall x | x in Ids(s) - {s[i].id} ensures x in Ids(s') {
      var j :| 0 <= j < |s| && s[j].id == x;
      assert s[j] == s'[if j < i then j else j - 1];
    }
  }

  lemma IdsSnoc<T>(s: seq<Entry<T>>, e: Entry<T>)
    ensures Ids(s + [e]) == Ids(s) + {e.id}
  {
    var t := s + [e];
    forall x | x in Ids(s) ensures x in Ids(t) {
      var i :| 0 <= i < |s| && s[i].id == x;
      assert t[i].id == x;
    }
    forall x | x in Ids(t) ensures x in Ids(s) + {e.id} {
      var i :| 0 <= i < |t| && t[i].id == x;
      if i < |s| { assert s[i].id == x; }
    }
    assert t[|s|].id == e.id;
  }

  lemma LastIsNew<T>(s: seq<Entry<T>>, n: nat)
    requires Distinct(s) && n + 1 == |s|
    ensures Distinct(s[..n]) && s[n].id !in Ids(s[..n])
  {
  }

  /** The size of such a multiset is the number of its elements. */
  lemma {:induction false} SizeIsCount<T>(s: seq<Entry<T>>)
    requires Distinct(s)
    ensures |s| == |Ids(s)|
  {
    hide Distinct, Ids;
    if s == [] {
      NoIds(s);
    } else {
      var n := |s| - 1;
      LastIsNew(s, n);
      SizeIsCount(s[..n]);
      IdsSnoc(s[..n], s[n]);
      assert s == s[..n] + [s[n]];
    }
  }

  lemma NoIds<T>(s: seq<Entry<T>>)
    requires s == []
    ensures Ids(s) == {}
  {
  }

  // ------------------------------------------------------- taking elements out

  /** The multiset without the elements `gone`, in its order. */
  function Without<T(==)>(s: seq<Entry<T>>, gone: set<T>): seq<Entry<T>> {
    if s == [] then []
    else
      var n := |s| - 1;
      Without(s[..n], gone) + if s[n].id in gone then [] else [s[n]]
  }

  lemma {:induction false} WithoutNone<T>(s: seq<Entry<T>>, gone: set<T>)
    requires forall e :: e in s ==> e.id !in gone
    ensures Without(s, gone) == s
  {
    if s != [] {
      var n := |s| - 1;
      WithoutNone(s[..n], gone);
      assert s == s[..n] + [s[n]];
    }
  }

  lemma {:induction false} WithoutConcat<T>(a: seq<Entry<T>>, b: seq<Entry<T>>, gone: set<T>)
    ensures Without(a + b, gone) == Without(a, gone) + Without(b, gone)
  {
    if b == [] {
      assert a + b == a;
    } else {
      var n := |b| - 1;
      assert (a + b)[..|a + b| - 1] == a + b[..n] && (a + b)[|a + b| - 1] == b[n];
      WithoutConcat(a, b[..n], gone);
    }
  }

  lemma {:induction false} WithoutTwice<T>(s: seq<Entry<T>>, a: set<T>, b: set<T>)
    ensures Without(Without(s, a), b) == Without(s, a + b)
  {
    if s != [] {
      var n := |s| - 1;
      WithoutTwice(s[..n], a, b);
      var last := if s[n].id in a then [] else [s[n]];
      WithoutConcat(Without(s[..n], a), last, b);
      if s[n].id !in a { WithoutLast(s[n], b); }
    }
  }

  lemma WithoutLast<T>(e: Entry<T>, gone: set<T>)
    ensures Without([e], gone) == if e.id in gone then [] else [e]
  {
    var s := [e];
    assert s[..0] == [];
    assert Without(s, gone) == Without(s[..0], gone) + if e.id in gone then [] else [e];
  }

  /** Erasing an element takes out that element only. */
  lemma EraseIsWithout<T>(s: seq<Entry<T>>, i: nat)
    requires Distinct(s) && i < |s|
    ensures EraseAt(s, i) == Without(s, {s[i].id})
  {
    hide Distinct, Without;
    var a, e, b, gone := s[..i], s[i], s[i + 1..], {s[i].id};
    assert s == a + [e] + b;
    WithoutConcat(a + [e], b, gone);
    WithoutConcat(a, [e], gone);
    WithoutLast(e, gone);
    OthersStay(s, i);
    WithoutNone(a, gone);
    WithoutNone(b, gone);
    assert a + [] + b == a + b;
  }

  lemma OthersStay<T>(s: seq<Entry<T>>, i: nat)
    requires Distinct(s) && i < |s|
    ensures forall e :: e in s[..i] || e in s[i + 1..] ==> e.id != s[i].id
  {
  }
}
