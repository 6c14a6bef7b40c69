/**
 * The `std::map<std::string, bool>` that records, per input tag, whether a
 * packet has been seen: an association list kept in ascending key order,
 * which is the order a `std::map` iterates in.
 */
module FeatureMaps {
  import opened Statuses

  /** Byte-wise lexicographic order of `std::string`'s `operator<`. */
  predicate Less(a: string, b: string)
    decreases |a|
  {
    if a == [] then b != []
    else if b == [] then false
    else a[0] < b[0] || (a[0] == b[0] && Less(a[1..], b[1..]))
  }

  lemma {:induction false} LessIrreflexive(a: string)
    ensures !Less(a, a)
    decreases |a|
  {
    if a != [] {
      LessIrreflexive(a[1..]);
    }
  }

  lemma {:induction false} LessTransitive(a: string, b: string, c: string)
    requires Less(a, b) && Less(b, c)
    ensures Less(a, c)
    decreases |a|
  {
    if a != [] && b != [] && c != [] && a[0] == b[0] && b[0] == c[0] {
      LessTransitive(a[1..], b[1..], c[1..]);
    }
  }

  /** Any two different strings are ordered one way or the other. */
  lemma {:induction false} LessTotal(a: string, b: string)
    requires a != b
    ensures Less(a, b) || Less(b, a)
    decreases |a|
  {
    if a != [] && b != [] && a[0] == b[0] {
      LessTotal(a[1..], b[1..]);
    }
  }

  /** One entry of the map: a tag and whether its stream has delivered a packet. */
  datatype Entry = Entry(tag: string, present: bool)

  /** Consecutive keys ascend strictly. */
  predicate Sorted(m: seq<Entry>)
  {
    forall i :: 0 <= i < |m| - 1 ==> Less(m[i].tag, m[i + 1].tag)
  }

  function Keys(m: seq<Entry>): set<string>
  {
    set e | e in m :: e.tag
  }

  /** The value stored under `k`, if any. */
  function Lookup(m: seq<Entry>, k: string): Option<bool>
    decreases |m|
  {
    if m == [] then None
    else if m[0].tag == k then Some(m[0].present)
    else Lookup(m[1..], k)
  }

  /** The map's `operator[]` assignment: overwrite the entry of `k`, or insert it in key order. */
  function Assign(m: seq<Entry>, k: string, v: bool): (r: seq<Entry>)
    requires Sorted(m)
    ensures Sorted(r)
    ensures r != [] && (r[0].tag == k || (m != [] && r[0].tag == m[0].tag))
    decreases |m|
  {
    if m == [] then [Entry(k, v)]
    else if m[0].tag == k then [Entry(k, v)] + m[1..]
    else if Less(k, m[0].tag) then [Entry(k, v)] + m
    else
      LessTotal(k, m[0].tag);
      [m[0]] + Assign(m[1..], k, v)
  }

  /** After assigning to `k` the map's keys are its old keys and `k`. */
  lemma {:induction false} AssignKeys(m: seq<Entry>, k: string, v: bool)
    requires Sorted(m)
    ensures Keys(Assign(m, k, v)) == Keys(m) + {k}
    decreases |m|
  {
    if m != [] {
      assert Keys(m) == {m[0].tag} + Keys(m[1..]) by { assert m == [m[0]] + m[1..]; }
      if m[0].tag == k {
        assert Keys([Entry(k, v)] + m[1..]) == {k} + Keys(m[1..]);
      } else if !Less(k, m[0].tag) {
        AssignKeys(m[1..], k, v);
        assert Keys([m[0]] + Assign(m[1..], k, v)) == {m[0].tag} + Keys(Assign(m[1..], k, v));
      }
    }
  }

  /** After assigning `v` to `k` the map holds `v` under `k` and every other key keeps its value. */
  lemma {:induction false} AssignLookup(m: seq<Entry>, k: string, v: bool, k': string)
    requires Sorted(m)
    ensures Lookup(Assign(m, k, v), k') == if k' == k then Some(v) else Lookup(m, k')
    decreases |m|
  {
    if m != [] && m[0].tag != k && !Less(k, m[0].tag) {
      AssignLookup(m[1..], k, v, k');
    }
  }

  /** Every key of a sorted map comes after every key before it. */
  lemma {:induction false} SortedAscends(m: seq<Entry>, i: int, j: int)
    requires Sorted(m)
    requires 0 <= i < j < |m|
    ensures Less(m[i].tag, m[j].tag)
    decreases j - i
  {
    if j > i + 1 {
      SortedAscends(m, i, j - 1);
      LessTransitive(m[i].tag, m[j - 1].tag, m[j].tag);
    }
  }

  /** In a sorted map each key is stored once, so `Lookup` sees the only entry of a key. */
  lemma {:induction false} LookupFindsEntry(m: seq<Entry>, i: int)
    requires Sorted(m)
    requires 0 <= i < |m|
    ensures Lookup(m, m[i].tag) == Some(m[i].present)
    decreases i
  {
    if i > 0 {
      SortedAscends(m, 0, i);
      if m[0].tag == m[i].tag {
        LessIrreflexive(m[0].tag);
      }
      LookupFindsEntry(m[1..], i - 1);
    }
  }

  /** The keys whose value is false, in the order the map iterates over them. */
  function MissingTags(m: seq<Entry>): (r: seq<string>)
    ensures |r| <= |m|
    decreases |m|
  {
    if m == [] then []
    else (if m[0].present then [] else [m[0].tag]) + MissingTags(m[1..])
  }

  /** Each missing tag followed by ", ", as `StrAppend` writes them. */
  function JoinTags(tags: seq<string>): string
    decreases |tags|
  {
    if tags == [] then "" else tags[0] + ", " + JoinTags(tags[1..])
  }

  const MissingFeaturesPrefix: string := "Missing features - "

  /** What `VerifySequence` returns for the map `m`. */
  function VerifyStatus(m: seq<Entry>): Status
  {
    if MissingTags(m) == [] then Ok
    else Error(NotFound, MissingFeaturesPrefix + JoinTags(MissingTags(m)))
  }

  /**
   * The missing tags are exactly the keys stored with false, and they come
   * out of a sorted map in strictly ascending order.
   */
  lemma {:induction false} MissingTagsAreFalseKeys(m: seq<Entry>)
    requires Sorted(m)
    ensures forall k :: k in MissingTags(m) <==> Lookup(m, k) == Some(false)
    ensures forall i :: 0 <= i < |MissingTags(m)| - 1 ==> Less(MissingTags(m)[i], MissingTags(m)[i + 1])
    ensures forall t :: t in MissingTags(m) ==> m != [] && !Less(t, m[0].tag)
    decreases |m|
  {
    if m != [] {
      var rest := m[1..];
      assert Sorted(rest);
      MissingTagsAreFalseKeys(rest);
      forall t | t in MissingTags(rest)
        ensures Less(m[0].tag, t)
      {
        MissingTagWitness(rest, t);
        var j :| 0 <= j < |rest| && rest[j].tag == t && !rest[j].present;
        SortedAscends(m, 0, j + 1);
      }
      forall k
        ensures k in MissingTags(m) <==> Lookup(m, k) == Some(false)
      {
        if k == m[0].tag && k in MissingTags(rest) {
          LessIrreflexive(k);
        }
      }
      forall t | t in MissingTags(m)
        ensures !Less(t, m[0].tag)
      {
        if t == m[0].tag {
          LessIrreflexive(t);
        } else if Less(t, m[0].tag) {
          LessTransitive(m[0].tag, t, m[0].tag);
          LessIrreflexive(m[0].tag);
        }
      }
    }
  }

  /** A missing tag of the map is a stored tag whose value is false. */
  lemma {:induction false} MissingTagWitness(m: seq<Entry>, t: string)
    requires t in MissingTags(m)
    ensures exists j :: 0 <= j < |m| && m[j].tag == t && !m[j].present
    decreases |m|
  {
    if !(!m[0].present && t == m[0].tag) {
      MissingTagWitness(m[1..], t);
      var j :| 0 <= j < |m[1..]| && m[1..][j].tag == t && !m[1..][j].present;
      assert m[j + 1].tag == t;
    }
  }

  /**
   * `VerifySequence` succeeds exactly when every key of the map holds true;
   * otherwise it reports NotFound, naming the keys that hold false.
   */
  lemma VerifyStatusOkExactly(m: seq<Entry>)
    requires Sorted(m)
    ensures VerifyStatus(m) == Ok <==> forall k :: k in Keys(m) ==> Lookup(m, k) == Some(true)
    ensures VerifyStatus(m) != Ok ==>
      VerifyStatus(m).code == NotFound &&
      VerifyStatus(m).message == MissingFeaturesPrefix + JoinTags(MissingTags(m))
  {
    MissingTagsAreFalseKeys(m);
    if MissingTags(m) == [] {
      forall k | k in Keys(m)
        ensures Lookup(m, k) == Some(true)
      {
        var i :| 0 <= i < |m| && m[i].tag == k;
        LookupFindsEntry(m, i);
      }
    } else {
      var t := MissingTags(m)[0];
      MissingTagWitness(m, t);
      assert t in Keys(m);
    }
  }
}
