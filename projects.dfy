/**
 * The project registry view: the organization-shared key/value snapshot
 * filtered down to well-formed project entries.
 */
module Projects {
  import opened Common

  /** A stored value; each of the three properties the filter tests may be absent. */
  datatype StoredValue = StoredValue(id: Option<string>, url: Option<string>, name: Option<string>)

  /** One key/value pair of the shared scope, in `Object.keys` order. */
  type Entry = (string, StoredValue)

  const ProjectKeyPrefix: string := "prj-"

  /** The value has own properties `id`, `url` and `name`. */
  predicate IsComplete(v: StoredValue)
  {
    v.id.Some? && v.url.Some? && v.name.Some?
  }

  /** An entry the registry keeps: project key and complete value. */
  predicate IsProjectEntry(e: Entry)
  {
    StartsWith(e.0, ProjectKeyPrefix) && IsComplete(e.1)
  }

  /** First stage: keep the keys that start with the project prefix. */
  function KeepProjectKeys(s: seq<Entry>): (r: seq<Entry>)
    ensures |r| <= |s|
    ensures forall k :: 0 <= k < |r| ==> StartsWith(r[k].0, ProjectKeyPrefix) && r[k] in s
    ensures forall e :: e in s && StartsWith(e.0, ProjectKeyPrefix) ==> e in r
  {
    if s == [] then []
    else if StartsWith(s[0].0, ProjectKeyPrefix) then [s[0]] + KeepProjectKeys(s[1..])
    else KeepProjectKeys(s[1..])
  }

  /** Second stage: keep the entries whose value has all three properties. */
  function KeepComplete(s: seq<Entry>): (r: seq<Entry>)
    ensures |r| <= |s|
    ensures forall k :: 0 <= k < |r| ==> IsComplete(r[k].1) && r[k] in s
    ensures forall e :: e in s && IsComplete(e.1) ==> e in r
  {
    if s == [] then []
    else if IsComplete(s[0].1) then [s[0]] + KeepComplete(s[1..])
    else KeepComplete(s[1..])
  }

  /** The prefix stage keeps key order: a split snapshot is filtered part by part. */
  lemma {:induction false} KeepProjectKeysAppend(a: seq<Entry>, b: seq<Entry>)
    ensures KeepProjectKeys(a + b) == KeepProjectKeys(a) + KeepProjectKeys(b)
  {
    if a == [] {
      assert a + b == b;
    } else {
      assert (a + b)[1..] == a[1..] + b;
      KeepProjectKeysAppend(a[1..], b);
    }
  }

  /** The property stage keeps order: a split list is filtered part by part. */
  lemma {:induction false} KeepCompleteAppend(a: seq<Entry>, b: seq<Entry>)
    ensures KeepComplete(a + b) == KeepComplete(a) + KeepComplete(b)
  {
    if a == [] {
      assert a + b == b;
    } else {
      assert (a + b)[1..] == a[1..] + b;
      KeepCompleteAppend(a[1..], b);
    }
  }

  /** Third stage: drop the keys. */
  function Values(s: seq<Entry>): (r: seq<StoredValue>)
    ensures |r| == |s|
    ensures forall k :: 0 <= k < |s| ==> r[k] == s[k].1
  {
    if s == [] then [] else [s[0].1] + Values(s[1..])
  }

  /** `getProjectAssignedCards`: the values of the well-formed project entries. */
  function ProjectEntries(s: seq<Entry>): (r: seq<StoredValue>)
    ensures |r| <= |s|
    ensures forall k :: 0 <= k < |r| ==> IsComplete(r[k])
  {
    Values(KeepComplete(KeepProjectKeys(s)))
  }

  /** A one-pass reference definition: keep each qualifying entry's value, in order. */
  function Qualifying(s: seq<Entry>): seq<StoredValue>
  {
    if s == [] then []
    else if IsProjectEntry(s[0]) then [s[0].1] + Qualifying(s[1..])
    else Qualifying(s[1..])
  }

  /** The three-stage pipeline equals the one-pass reference definition. */
  lemma {:induction false} ProjectEntriesIsQualifying(s: seq<Entry>)
    ensures ProjectEntries(s) == Qualifying(s)
  {
    if s != [] {
      ProjectEntriesIsQualifying(s[1..]);
    }
  }

  lemma {:induction false} QualifyingAppend(a: seq<Entry>, b: seq<Entry>)
    ensures Qualifying(a + b) == Qualifying(a) + Qualifying(b)
  {
    if a == [] {
      assert a + b == b;
    } else {
      assert (a + b)[1..] == a[1..] + b;
      QualifyingAppend(a[1..], b);
    }
  }

  /**
   * The result is determined piece by piece: the entries of a split snapshot
   * are the entries of each part, one after the other, and a single entry
   * contributes its value exactly when it qualifies.
   */
  lemma ProjectEntriesAppend(a: seq<Entry>, b: seq<Entry>)
    ensures ProjectEntries(a + b) == ProjectEntries(a) + ProjectEntries(b)
  {
    ProjectEntriesIsQualifying(a + b);
    ProjectEntriesIsQualifying(a);
    ProjectEntriesIsQualifying(b);
    QualifyingAppend(a, b);
  }

  lemma ProjectEntriesSingle(e: Entry)
    ensures ProjectEntries([e]) == if IsProjectEntry(e) then [e.1] else []
  {
    ProjectEntriesIsQualifying([e]);
    assert [e][1..] == [];
  }

  lemma {:induction false} QualifyingMembership(s: seq<Entry>, v: StoredValue)
    ensures v in Qualifying(s) <==> exists i :: 0 <= i < |s| && IsProjectEntry(s[i]) && s[i].1 == v
  {
    if s != [] {
      QualifyingMembership(s[1..], v);
      if exists i :: 0 <= i < |s| && IsProjectEntry(s[i]) && s[i].1 == v {
        var i :| 0 <= i < |s| && IsProjectEntry(s[i]) && s[i].1 == v;
        if i > 0 {
          assert s[1..][i - 1] == s[i];
        }
      }
      if exists i :: 0 <= i < |s[1..]| && IsProjectEntry(s[1..][i]) && s[1..][i].1 == v {
        var i :| 0 <= i < |s[1..]| && IsProjectEntry(s[1..][i]) && s[1..][i].1 == v;
        assert s[i + 1] == s[1..][i];
      }
    }
  }

  /**
   * A value is returned exactly when some entry with a project key and a
   * complete value holds it: nothing else gets in, nothing qualifying is lost.
   */
  lemma ProjectEntriesMembership(s: seq<Entry>, v: StoredValue)
    ensures v in ProjectEntries(s) <==> exists i :: 0 <= i < |s| && IsProjectEntry(s[i]) && s[i].1 == v
  {
    ProjectEntriesIsQualifying(s);
    QualifyingMembership(s, v);
  }

  /** Pairs values with keys, as a re-stored list of entries. */
  function Rekey(keys: seq<string>, vs: seq<StoredValue>): (r: seq<Entry>)
    requires |keys| == |vs|
    ensures |r| == |vs|
    ensures forall k :: 0 <= k < |r| ==> r[k] == (keys[k], vs[k])
  {
    if vs == [] then [] else [(keys[0], vs[0])] + Rekey(keys[1..], vs[1..])
  }

  /**
   * Storing the returned values again under project keys and filtering gives
   * back the same list: the filter is idempotent.
   */
  lemma {:induction false} ProjectEntriesIdempotent(s: seq<Entry>, keys: seq<string>)
    requires |keys| == |ProjectEntries(s)|
    requires forall k :: 0 <= k < |keys| ==> StartsWith(keys[k], ProjectKeyPrefix)
    ensures ProjectEntries(Rekey(keys, ProjectEntries(s))) == ProjectEntries(s)
  {
    RekeyedCompleteKept(keys, ProjectEntries(s));
  }

  lemma {:induction false} RekeyedCompleteKept(keys: seq<string>, vs: seq<StoredValue>)
    requires |keys| == |vs|
    requires forall k :: 0 <= k < |keys| ==> StartsWith(keys[k], ProjectKeyPrefix)
    requires forall k :: 0 <= k < |vs| ==> IsComplete(vs[k])
    ensures ProjectEntries(Rekey(keys, vs)) == vs
  {
    ProjectEntriesIsQualifying(Rekey(keys, vs));
    QualifyingRekeyed(keys, vs);
  }

  lemma {:induction false} QualifyingRekeyed(keys: seq<string>, vs: seq<StoredValue>)
    requires |keys| == |vs|
    requires forall k :: 0 <= k < |keys| ==> StartsWith(keys[k], ProjectKeyPrefix)
    requires forall k :: 0 <= k < |vs| ==> IsComplete(vs[k])
    ensures Qualifying(Rekey(keys, vs)) == vs
  {
    if vs != [] {
      var s := Rekey(keys, vs);
      assert IsProjectEntry(s[0]);
      assert s[1..] == Rekey(keys[1..], vs[1..]);
      QualifyingRekeyed(keys[1..], vs[1..]);
    }
  }

  /**
   * A complete project entry is kept; an incomplete one under a project key
   * and a complete one under another key are both dropped.
   */
  lemma MixedSnapshotExample()
    ensures ProjectEntries([
      ("prj-1", StoredValue(Some("p1"), Some("u1"), Some("Apollo"))),
      ("prj-2", StoredValue(Some("p2"), None, None)),
      ("other", StoredValue(Some("x"), Some("y"), Some("z")))])
      == [StoredValue(Some("p1"), Some("u1"), Some("Apollo"))]
  {
    var a := ("prj-1", StoredValue(Some("p1"), Some("u1"), Some("Apollo")));
    var b := ("prj-2", StoredValue(Some("p2"), None, None));
    var c := ("other", StoredValue(Some("x"), Some("y"), Some("z")));
    assert IsProjectEntry(a) by {
      assert a.0[..|ProjectKeyPrefix|] == ProjectKeyPrefix;
    }
    assert !IsProjectEntry(b);
    assert !IsProjectEntry(c) by {
      assert c.0[0] != ProjectKeyPrefix[0];
    }
    ProjectEntriesSingle(a);
    ProjectEntriesSingle(b);
    ProjectEntriesSingle(c);
    ProjectEntriesAppend([a], [b]);
    ProjectEntriesAppend([a] + [b], [c]);
    assert [a, b, c] == [a] + [b] + [c];
  }
}
