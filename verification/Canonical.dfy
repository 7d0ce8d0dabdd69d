/**
 The canonical form under a recovery digest. Object keys are sorted at every depth, so that two reads of one
 state digest alike whatever order their columns came in, and different states never do. Keys are compared
 by a total order; the hash itself is taken to be injective.
 */
module Canonical {
  import opened Prelude

  datatype Json = Null | Leaf(value: Id) | Arr(items: seq<Json>) | Obj(entries: seq<Entry>)
  datatype Entry = Entry(key: Id, value: Json)

  /** What a value says, with objects as maps: the order of keys is not part of it. */
  datatype Meaning = Nothing | Scalar(value: Id) | Items(items: seq<Meaning>) | Fields(fields: map<Id, Meaning>)

  predicate DistinctKeys(es: seq<Entry>) {
    forall i, j :: 0 <= i < j < |es| ==> es[i].key != es[j].key
  }

  /** An object holds a key once. */
  predicate WellFormed(v: Json) {
    match v
    case Null => true
    case Leaf(_) => true
    case Arr(items) => forall i :: 0 <= i < |items| ==> WellFormed(items[i])
    case Obj(es) => DistinctKeys(es) && forall i :: 0 <= i < |es| ==> WellFormed(es[i].value)
  }

  function MeaningOf(v: Json): Meaning
    requires WellFormed(v)
  {
    match v
    case Null => Nothing
    case Leaf(x) => Scalar(x)
    case Arr(items) => Items(seq(|items|, i requires 0 <= i < |items| => MeaningOf(items[i])))
    case Obj(es) => Fields(Zip(es, seq(|es|, i requires 0 <= i < |es| => MeaningOf(es[i].value))))
  }

  function Zip(es: seq<Entry>, ms: seq<Meaning>): map<Id, Meaning>
    requires |ms| == |es|
  {
    if es == [] then map[] else Zip(es[1..], ms[1..])[es[0].key := ms[0]]
  }

  function FieldsOf(es: seq<Entry>): map<Id, Meaning>
    requires WellFormed(Obj(es))
  {
    MeaningOf(Obj(es)).fields
  }

  predicate HasField(es: seq<Entry>, x: Id) {
    exists i :: 0 <= i < |es| && es[i].key == x
  }

  lemma {:induction false} ZipIs(es: seq<Entry>, ms: seq<Meaning>)
    requires DistinctKeys(es) && |ms| == |es|
    ensures forall i :: 0 <= i < |es| ==> es[i].key in Zip(es, ms) && Zip(es, ms)[es[i].key] == ms[i]
    ensures forall x :: x in Zip(es, ms) <==> HasField(es, x)
  {
    if es != [] {
      ZipIs(es[1..], ms[1..]);
      forall x ensures HasField(es, x) <==> x == es[0].key || HasField(es[1..], x) {
        if HasField(es[1..], x) {
          var i :| 0 <= i < |es[1..]| && es[1..][i].key == x;
          assert es[i + 1].key == x;
        }
        if HasField(es, x) && x != es[0].key {
          var i :| 0 <= i < |es| && es[i].key == x;
          assert es[1..][i - 1].key == x;
        }
      }
      forall i | 0 <= i < |es| ensures es[i].key in Zip(es, ms) && Zip(es, ms)[es[i].key] == ms[i] {
        if i > 0 { assert es[1..][i - 1] == es[i] && ms[1..][i - 1] == ms[i]; }
      }
    }
  }

  lemma FieldsAre(es: seq<Entry>)
    requires WellFormed(Obj(es))
    ensures forall i :: 0 <= i < |es| ==> es[i].key in FieldsOf(es) && FieldsOf(es)[es[i].key] == MeaningOf(es[i].value)
    ensures forall x :: x in FieldsOf(es) <==> HasField(es, x)
  {
    var ms := seq(|es|, i requires 0 <= i < |es| => MeaningOf(es[i].value));
    ZipIs(es, ms);
    assert FieldsOf(es) == Zip(es, ms);
  }

  predicate Sorted(es: seq<Entry>) {
    forall i, j :: 0 <= i < j < |es| ==> es[i].key < es[j].key
  }

  function Insert(e: Entry, es: seq<Entry>): (r: seq<Entry>)
    ensures forall x :: x in r <==> x == e || x in es
  {
    if es == [] then [e]
    else if e.key <= es[0].key then [e] + es
    else [es[0]] + Insert(e, es[1..])
  }

  function Sort(es: seq<Entry>): (r: seq<Entry>)
    ensures forall x :: x in r <==> x in es
  {
    if es == [] then [] else Insert(es[0], Sort(es[1..]))
  }

  lemma {:induction false} InsertSorts(e: Entry, es: seq<Entry>)
    requires Sorted(es) && forall x :: x in es ==> x.key != e.key
    ensures Sorted(Insert(e, es))
  {
    if es != [] && e.key > es[0].key {
      InsertSorts(e, es[1..]);
      var rest := Insert(e, es[1..]);
      forall j | 0 <= j < |rest| ensures es[0].key < rest[j].key { assert rest[j] in rest; }
    }
  }

  lemma {:induction false} SortSorts(es: seq<Entry>)
    requires DistinctKeys(es)
    ensures Sorted(Sort(es))
  {
    if es != [] {
      SortSorts(es[1..]);
      InsertSorts(es[0], Sort(es[1..]));
    }
  }

  function Canon(v: Json): Json {
    match v
    case Null => Null
    case Leaf(_) => v
    case Arr(items) => Arr(seq(|items|, i requires 0 <= i < |items| => Canon(items[i])))
    case Obj(es) => Obj(Sort(seq(|es|, i requires 0 <= i < |es| => Entry(es[i].key, Canon(es[i].value)))))
  }

  function CanonEntries(es: seq<Entry>): (r: seq<Entry>)
    ensures |r| == |es| && forall i :: 0 <= i < |es| ==> r[i] == Entry(es[i].key, Canon(es[i].value))
  {
    seq(|es|, i requires 0 <= i < |es| => Entry(es[i].key, Canon(es[i].value)))
  }

  lemma HeadIsMember(b: seq<Entry>)
    requires b != []
    ensures b[0] in b
  {
  }

  /** Strictly sorted lists with the same members are the same list. */
  lemma {:induction false} SortedUnique(a: seq<Entry>, b: seq<Entry>)
    requires Sorted(a) && Sorted(b) && forall x :: x in a <==> x in b
    ensures a == b
  {
    if a == [] {
      if b != [] { HeadIsMember(b); }
    } else {
      assert a[0] in b && b[0] in a;
      assert a[0] == b[0];
      forall x ensures x in a[1..] <==> x in b[1..] {
        if x in a[1..] { assert x in a; }
        if x in b[1..] { assert x in b; }
      }
      SortedUnique(a[1..], b[1..]);
    }
  }

  /** Canonical forms are well formed and say the same thing. */
  lemma {:induction false} CanonKeepsMeaning(v: Json)
    requires WellFormed(v)
    ensures WellFormed(Canon(v)) && MeaningOf(Canon(v)) == MeaningOf(v)
    decreases v
  {
    match v
    case Null =>
    case Leaf(_) =>
    case Arr(items) =>
      forall i | 0 <= i < |items| ensures WellFormed(Canon(items[i])) && MeaningOf(Canon(items[i])) == MeaningOf(items[i]) {
        CanonKeepsMeaning(items[i]);
      }
    case Obj(es) =>
      forall i | 0 <= i < |es| ensures WellFormed(Canon(es[i].value)) && MeaningOf(Canon(es[i].value)) == MeaningOf(es[i].value) {
        CanonKeepsMeaning(es[i].value);
      }
      SortedKeepsMeaning(es);
  }

  /** Entries whose values mean the same, in any order, are the same fields. */
  lemma SameFields(es: seq<Entry>, fs: seq<Entry>)
    requires WellFormed(Obj(es)) && WellFormed(Obj(fs))
    requires forall i :: 0 <= i < |es| ==>
               exists k :: 0 <= k < |fs| && fs[k].key == es[i].key && MeaningOf(fs[k].value) == MeaningOf(es[i].value)
    requires forall k :: 0 <= k < |fs| ==> HasField(es, fs[k].key)
    ensures MeaningOf(Obj(fs)) == MeaningOf(Obj(es))
  {
    FieldsAre(es);
    FieldsAre(fs);
    var before, after := FieldsOf(es), FieldsOf(fs);
    forall x | x in before ensures x in after && after[x] == before[x] {
      var i :| 0 <= i < |es| && es[i].key == x;
      var k :| 0 <= k < |fs| && fs[k].key == es[i].key && MeaningOf(fs[k].value) == MeaningOf(es[i].value);
    }
    forall x | x in after ensures x in before {
      var k :| 0 <= k < |fs| && fs[k].key == x;
    }
    assert before == after;
  }

  lemma SortedKeepsMeaning(es: seq<Entry>)
    requires DistinctKeys(es)
    requires forall i :: 0 <= i < |es| ==>
               WellFormed(es[i].value) && WellFormed(Canon(es[i].value)) && MeaningOf(Canon(es[i].value)) == MeaningOf(es[i].value)
    ensures WellFormed(Canon(Obj(es))) && MeaningOf(Canon(Obj(es))) == MeaningOf(Obj(es))
  {
    var mapped := CanonEntries(es);
    var sorted := Sort(mapped);
    SortSorts(mapped);
    CanonOfObject(es);
    forall k | 0 <= k < |sorted|
      ensures WellFormed(sorted[k].value) && HasField(es, sorted[k].key)
    {
      assert sorted[k] in mapped;
      var i :| 0 <= i < |mapped| && mapped[i] == sorted[k];
      assert es[i].key == sorted[k].key;
    }
    forall i | 0 <= i < |es|
      ensures exists k :: 0 <= k < |sorted| && sorted[k].key == es[i].key && MeaningOf(sorted[k].value) == MeaningOf(es[i].value)
    {
      assert mapped[i] in sorted;
      var k :| 0 <= k < |sorted| && sorted[k] == mapped[i];
    }
    SameFields(es, sorted);
  }

  lemma CanonOfObject(es: seq<Entry>)
    ensures Canon(Obj(es)) == Obj(Sort(CanonEntries(es)))
  {
    assert CanonEntries(es) == seq(|es|, i requires 0 <= i < |es| => Entry(es[i].key, Canon(es[i].value)));
  }

  /** Values that say the same thing have one canonical form. */
  lemma {:induction false} SameMeaningSameCanon(v: Json, w: Json)
    requires WellFormed(v) && WellFormed(w) && MeaningOf(v) == MeaningOf(w)
    ensures Canon(v) == Canon(w)
    decreases v
  {
    match v
    case Null =>
    case Leaf(_) =>
    case Arr(items) =>
      assert |w.items| == |items|;
      forall i | 0 <= i < |items| ensures Canon(items[i]) == Canon(w.items[i]) {
        assert MeaningOf(v).items[i] == MeaningOf(items[i]) && MeaningOf(w).items[i] == MeaningOf(w.items[i]);
        SameMeaningSameCanon(items[i], w.items[i]);
      }
    case Obj(es) =>
      var fs := w.entries;
      forall i, j | 0 <= i < |es| && 0 <= j < |fs| && MeaningOf(es[i].value) == MeaningOf(fs[j].value)
        ensures Canon(es[i].value) == Canon(fs[j].value)
      {
        SameMeaningSameCanon(es[i].value, fs[j].value);
      }
      EntriesCovered(es, fs);
      EntriesCovered(fs, es);
      CanonOfObject(es);
      CanonOfObject(fs);
      SortSorts(CanonEntries(es));
      SortSorts(CanonEntries(fs));
      SortedUnique(Sort(CanonEntries(es)), Sort(CanonEntries(fs)));
  }

  lemma EntriesCovered(es: seq<Entry>, fs: seq<Entry>)
    requires WellFormed(Obj(es)) && WellFormed(Obj(fs)) && MeaningOf(Obj(es)) == MeaningOf(Obj(fs))
    requires forall i, j :: 0 <= i < |es| && 0 <= j < |fs| && MeaningOf(es[i].value) == MeaningOf(fs[j].value) ==>
               Canon(es[i].value) == Canon(fs[j].value)
    ensures forall x :: x in CanonEntries(es) ==> x in CanonEntries(fs)
  {
    FieldsAre(es);
    FieldsAre(fs);
    forall i | 0 <= i < |es| ensures CanonEntries(es)[i] in CanonEntries(fs) {
      assert HasField(fs, es[i].key);
      var j :| 0 <= j < |fs| && fs[j].key == es[i].key;
      assert CanonEntries(fs)[j] == CanonEntries(es)[i];
    }
  }

  /** The digest decides sameness of state: canonical forms agree exactly when the values say the same. */
  lemma CanonicalExactly(v: Json, w: Json)
    requires WellFormed(v) && WellFormed(w)
    ensures Canon(v) == Canon(w) <==> MeaningOf(v) == MeaningOf(w)
    ensures Canon(Canon(v)) == Canon(v)
  {
    CanonKeepsMeaning(v);
    CanonKeepsMeaning(w);
    SameMeaningSameCanon(Canon(v), v);
    if MeaningOf(v) == MeaningOf(w) { SameMeaningSameCanon(v, w); }
  }
}
