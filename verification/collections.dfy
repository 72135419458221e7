/**
 * Generic sequence operations that the bookkeeping document is built from: lookup of a
 * record by its id (JavaScript's `find` / `findIndex`), the upsert every editor form
 * performs, delete by id (`findIndex` followed by `splice`), `filter`, and the running
 * sums that the report loops accumulate.
 */
module Collections {
  import opened Wrappers

  /** No two records of `s` carry the same id. */
  ghost predicate UniqueIds<T>(s: seq<T>, idOf: T -> string) {
    forall i, j :: 0 <= i < j < |s| ==> idOf(s[i]) != idOf(s[j])
  }

  /** The index of the first record whose id is `key`, or None when there is none. */
  function FindIndex<T>(s: seq<T>, idOf: T -> string, key: string): (r: Option<nat>)
    ensures r.Some? ==> r.value < |s| && idOf(s[r.value]) == key
    ensures r.Some? ==> forall j :: 0 <= j < r.value ==> idOf(s[j]) != key
    ensures r.None? <==> forall j :: 0 <= j < |s| ==> idOf(s[j]) != key
    decreases |s|
  {
    if s == [] then None
    else if idOf(s[0]) == key then Some(0)
    else match FindIndex(s[1..], idOf, key)
      case None => None
      case Some(i) => Some(i + 1)
  }

  /** Lookup by id sees only the ids: two collections with the same ids, position by position,
      have the same first match. */
  lemma {:induction false} FindIndexSameIds<T>(a: seq<T>, b: seq<T>, idOf: T -> string, key: string)
    requires |a| == |b|
    requires forall i :: 0 <= i < |a| ==> idOf(a[i]) == idOf(b[i])
    ensures FindIndex(a, idOf, key) == FindIndex(b, idOf, key)
    decreases |a|
  {
    if a != [] && idOf(a[0]) != key {
      FindIndexSameIds(a[1..], b[1..], idOf, key);
    }
  }

  /**
   * The upsert of the editor forms: an empty form id appends `record`; a non-empty form
   * id replaces the first record with that id, and changes nothing when no record has it.
   */
  function Upsert<T>(s: seq<T>, idOf: T -> string, formId: string, record: T): (r: seq<T>)
    ensures formId == "" ==> r == s + [record]
    ensures formId != "" && FindIndex(s, idOf, formId).None? ==> r == s
    ensures formId != "" && FindIndex(s, idOf, formId).Some? ==>
      var i := FindIndex(s, idOf, formId).value;
      |r| == |s| && r[i] == record && forall j :: 0 <= j < |s| && j != i ==> r[j] == s[j]
  {
    if formId == "" then s + [record]
    else match FindIndex(s, idOf, formId)
      case None => s
      case Some(i) => s[i := record]
  }

  /**
   * An upsert keeps ids unique, provided an edited record keeps the form's id and a new
   * record's (freshly generated) id is not already taken. An edit never changes the ids.
   */
  lemma UpsertKeepsIdsUnique<T>(s: seq<T>, idOf: T -> string, formId: string, record: T)
    requires UniqueIds(s, idOf)
    requires formId != "" ==> idOf(record) == formId
    requires formId == "" ==> forall j :: 0 <= j < |s| ==> idOf(s[j]) != idOf(record)
    ensures UniqueIds(Upsert(s, idOf, formId, record), idOf)
    ensures formId != "" ==>
      forall j :: 0 <= j < |s| ==> idOf(Upsert(s, idOf, formId, record)[j]) == idOf(s[j])
  {
    var r := Upsert(s, idOf, formId, record);
    if formId == "" {
      forall i, j | 0 <= i < j < |r| ensures idOf(r[i]) != idOf(r[j]) {
        if j == |s| { assert r[j] == record && r[i] == s[i]; }
      }
    }
  }

  /** Uniqueness depends only on the ids, position by position. */
  lemma SameIdsKeepUnique<T>(a: seq<T>, b: seq<T>, idOf: T -> string)
    requires UniqueIds(a, idOf)
    requires |a| == |b| && forall i :: 0 <= i < |a| ==> idOf(a[i]) == idOf(b[i])
    ensures UniqueIds(b, idOf)
  {
  }

  /** Saving the same edit twice has the effect of saving it once. */
  lemma UpsertIdempotent<T>(s: seq<T>, idOf: T -> string, formId: string, record: T)
    requires formId != "" && idOf(record) == formId
    ensures Upsert(Upsert(s, idOf, formId, record), idOf, formId, record)
         == Upsert(s, idOf, formId, record)
  {
    var r := Upsert(s, idOf, formId, record);
    match FindIndex(s, idOf, formId)
    case None =>
    case Some(i) =>
      var k := FindIndex(r, idOf, formId);
      assert k.Some? by { assert idOf(r[i]) == formId; }
      assert k.value == i;
      assert r[i := record] == r;
  }

  /** Delete by id: removes the first record with id `key`, or nothing when there is none. */
  function RemoveFirst<T>(s: seq<T>, idOf: T -> string, key: string): (r: seq<T>)
    ensures FindIndex(s, idOf, key).None? ==> r == s
    ensures FindIndex(s, idOf, key).Some? ==>
      var i := FindIndex(s, idOf, key).value;
      |r| == |s| - 1 && multiset(r) + multiset{s[i]} == multiset(s)
    ensures FindIndex(s, idOf, key).Some? ==>
      var i := FindIndex(s, idOf, key).value;
      (forall j :: 0 <= j < i ==> r[j] == s[j]) && (forall j :: i < j < |s| ==> r[j - 1] == s[j])
  {
    match FindIndex(s, idOf, key)
    case None => s
    case Some(i) =>
      assert s == s[..i] + [s[i]] + s[i + 1..];
      s[..i] + s[i + 1..]
  }

  /** In a collection with unique ids, a delete by id leaves no record with that id and keeps
      the ids unique. */
  lemma RemoveFirstLeavesNoMatch<T>(s: seq<T>, idOf: T -> string, key: string)
    requires UniqueIds(s, idOf)
    ensures UniqueIds(RemoveFirst(s, idOf, key), idOf)
    ensures forall j :: 0 <= j < |RemoveFirst(s, idOf, key)| ==> idOf(RemoveFirst(s, idOf, key)[j]) != key
  {
    var r := RemoveFirst(s, idOf, key);
    match FindIndex(s, idOf, key)
    case None =>
    case Some(i) =>
      assert r == s[..i] + s[i + 1..];
      forall j | 0 <= j < |r| ensures idOf(r[j]) != key {
        if j >= i { assert r[j] == s[j + 1]; }
      }
      forall a, b | 0 <= a < b < |r| ensures idOf(r[a]) != idOf(r[b]) {
        var a', b' := if a < i then a else a + 1, if b < i then b else b + 1;
        assert r[a] == s[a'] && r[b] == s[b'];
      }
  }

  /** Removal adds nothing: every record left was there before. */
  lemma RemoveFirstKeeps<T>(s: seq<T>, idOf: T -> string, key: string)
    ensures forall x :: x in RemoveFirst(s, idOf, key) ==> x in s
  {
    var r := RemoveFirst(s, idOf, key);
    var k := FindIndex(s, idOf, key);
    if k.Some? {
      forall x | x in r ensures x in s {
        var j :| 0 <= j < |r| && r[j] == x;
        if j < k.value {
          assert x == s[j];
        } else {
          assert x == s[j + 1];
        }
      }
    }
  }

  /** The records of `s` that `keep` accepts, in their original order (`Array.prototype.filter`). */
  function Filter<T(!new)>(s: seq<T>, keep: T -> bool): (r: seq<T>)
    ensures |r| <= |s|
    ensures forall x :: x in r <==> x in s && keep(x)
    decreases |s|
  {
    if s == [] then []
    else
      var init, last := s[..|s| - 1], s[|s| - 1];
      assert s == init + [last];
      var r0 := Filter(init, keep);
      if keep(last) then r0 + [last] else r0
  }

  /** The filter keeps every accepted record as many times as it occurs, and no other. */
  lemma {:induction false} FilterMultiset<T(!new)>(s: seq<T>, keep: T -> bool)
    ensures forall x :: multiset(Filter(s, keep))[x] == if keep(x) then multiset(s)[x] else 0
    decreases |s|
  {
    if s != [] {
      var init, last := s[..|s| - 1], s[|s| - 1];
      assert s == init + [last];
      FilterMultiset(init, keep);
    }
  }

  /** One step of a `forEach` loop that filters: the filter of a longer prefix. */
  lemma FilterStep<T(!new)>(s: seq<T>, i: nat, keep: T -> bool)
    requires i < |s|
    ensures Filter(s[..i + 1], keep) == Filter(s[..i], keep) + (if keep(s[i]) then [s[i]] else [])
  {
    assert s[..i + 1][..i] == s[..i];
  }

  /** The size of the filter of a longer prefix. */
  lemma FilterCountStep<T(!new)>(s: seq<T>, i: nat, keep: T -> bool)
    requires i < |s|
    ensures |Filter(s[..i + 1], keep)| == |Filter(s[..i], keep)| + (if keep(s[i]) then 1 else 0)
  {
    FilterStep(s, i, keep);
  }

  /** The sum of `f` over the records of `s`. */
  function Sum<T>(s: seq<T>, f: T -> real): real
    decreases |s|
  {
    if s == [] then 0.0 else Sum(s[..|s| - 1], f) + f(s[|s| - 1])
  }

  lemma SumSnoc<T>(s: seq<T>, x: T, f: T -> real)
    ensures Sum(s + [x], f) == Sum(s, f) + f(x)
  {
    assert (s + [x])[..|s|] == s;
  }

  lemma {:induction false} SumAppend<T>(u: seq<T>, v: seq<T>, f: T -> real)
    ensures Sum(u + v, f) == Sum(u, f) + Sum(v, f)
    decreases |v|
  {
    if v == [] {
      assert u + v == u;
    } else {
      var v', x := v[..|v| - 1], v[|v| - 1];
      assert v == v' + [x];
      assert u + v == (u + v') + [x];
      SumAppend(u, v', f);
      SumSnoc(u + v', x, f);
      SumSnoc(v', x, f);
    }
  }

  /** The running sum over a filtered prefix, one element further. */
  lemma FilterSumStep<T(!new)>(s: seq<T>, i: nat, keep: T -> bool, f: T -> real)
    requires i < |s|
    ensures Sum(Filter(s[..i + 1], keep), f)
         == Sum(Filter(s[..i], keep), f) + (if keep(s[i]) then f(s[i]) else 0.0)
  {
    var before := Filter(s[..i], keep);
    FilterStep(s, i, keep);
    if keep(s[i]) {
      SumSnoc(before, s[i], f);
    } else {
      assert Filter(s[..i + 1], keep) == before + [] == before;
    }
  }

  /** Taking one record out of the middle takes its value out of the sum. */
  lemma SumRemoveAt<T>(b: seq<T>, j: nat, f: T -> real)
    requires j < |b|
    ensures Sum(b, f) == Sum(b[..j] + b[j + 1..], f) + f(b[j])
  {
    var u, x, v := b[..j], b[j], b[j + 1..];
    assert b == u + ([x] + v);
    SumAppend(u, [x] + v, f);
    SumAppend([x], v, f);
    SumAppend(u, v, f);
    assert Sum([x], f) == f(x) by {
      assert [x][..0] == [];
    }
  }

  /** Removing an occurrence of `x` from two sequences with the same elements leaves two
      sequences with the same elements. */
  lemma MultisetRemove<T>(a: seq<T>, b: seq<T>, j: nat)
    requires multiset(a) == multiset(b) && |a| > 0 && j < |b| && b[j] == a[|a| - 1]
    ensures multiset(a[..|a| - 1]) == multiset(b[..j] + b[j + 1..])
  {
    var a', x := a[..|a| - 1], a[|a| - 1];
    assert a == a' + [x];
    assert b == b[..j] + [x] + b[j + 1..];
    assert multiset(a') == multiset(a) - multiset{x};
    assert multiset(b[..j] + b[j + 1..]) == multiset(b) - multiset{x};
  }

  /** A sum does not depend on the order of the records it adds up. */
  lemma {:induction false} SumPermutation<T>(a: seq<T>, b: seq<T>, f: T -> real)
    requires multiset(a) == multiset(b)
    ensures Sum(a, f) == Sum(b, f)
    decreases |a|
  {
    if a == [] {
      assert |b| == |multiset(b)| == 0;
    } else {
      var a', x := a[..|a| - 1], a[|a| - 1];
      assert x in multiset(b) by { assert x in multiset(a); }
      var j :| 0 <= j < |b| && b[j] == x;
      MultisetRemove(a, b, j);
      SumPermutation(a', b[..j] + b[j + 1..], f);
      SumRemoveAt(b, j, f);
    }
  }
}
