/** Registry tags: the `[{"Key": k, "Value": v}, ...]` list form the
    registry API uses, the dict form of a component definition, and the tag
    delta the repository reconciler computes between them. */
module Tags {
  import opened Json

  datatype Tag = Tag(key: string, value: Json)

  /** The `{"Key": k, "Value": v}` dict the registry API takes. */
  function TagJson(t: Tag): Json {
    JObj([("Key", JStr(t.key)), ("Value", t.value)])
  }

  /** `format_tags` as evidently intended: one tag per (key, value) pair of
      the dict, in the dict's order. */
  function FormatTags(d: Dict): (r: seq<Tag>)
    ensures |r| == |d|
  {
    seq(|d|, i requires 0 <= i < |d| => Tag(d[i].0, d[i].1))
  }

  /** `unformat_tags`: a dict comprehension over the tag list, so a later
      tag with the same key overwrites the value in place. */
  function UnformatTags(l: seq<Tag>): (d: Dict)
  {
    if l == [] then [] else Set(UnformatTags(l[..|l| - 1]), l[|l| - 1].key, l[|l| - 1].value)
  }

  /** The list `unformat_tags` reads back has distinct keys, and its mapping
      gives each key the value of its last tag. */
  lemma {:induction false} UnformatTagsMap(l: seq<Tag>)
    ensures DistinctKeys(UnformatTags(l))
    ensures forall k :: k in ToMap(UnformatTags(l)) <==> exists i :: 0 <= i < |l| && l[i].key == k
    ensures forall i :: 0 <= i < |l| && LastWithKey(l, i) ==>
      l[i].key in ToMap(UnformatTags(l)) && ToMap(UnformatTags(l))[l[i].key] == l[i].value
  {
    UnformatTagsKeys(l);
    UnformatTagsLast(l);
  }

  lemma {:induction false} UnformatTagsKeys(l: seq<Tag>)
    ensures DistinctKeys(UnformatTags(l))
    ensures forall k :: k in ToMap(UnformatTags(l)) <==> exists i :: 0 <= i < |l| && l[i].key == k
  {
    UnformatTagsDistinct(l);
    UnformatTagsDomain(l);
  }

  lemma {:induction false} UnformatTagsDistinct(l: seq<Tag>)
    ensures DistinctKeys(UnformatTags(l))
  {
    if l != [] {
      var p := l[..|l| - 1];
      var last := l[|l| - 1];
      UnformatTagsDistinct(p);
      var u := UnformatTags(p);
      ToMapKeys(u);
      if last.key in ToMap(u) {
        SetKeepsDistinct(u, last.key, last.value);
      } else {
        assert Set(u, last.key, last.value) == u + [(last.key, last.value)];
        assert last.key !in Keys(u);
      }
    }
  }

  lemma {:induction false} UnformatTagsDomain(l: seq<Tag>)
    ensures forall k :: k in ToMap(UnformatTags(l)) <==> exists i :: 0 <= i < |l| && l[i].key == k
  {
    if l != [] {
      var p := l[..|l| - 1];
      var last := l[|l| - 1];
      UnformatTagsDomain(p);
      var u := UnformatTags(p);
      assert ToMap(UnformatTags(l)) == ToMap(u)[last.key := last.value];
      forall k ensures k in ToMap(UnformatTags(l)) <==> exists i :: 0 <= i < |l| && l[i].key == k {
        if k in ToMap(u) {
          var i :| 0 <= i < |p| && p[i].key == k;
          assert l[i] == p[i];
        }
        if exists i :: 0 <= i < |l| && l[i].key == k {
          var i :| 0 <= i < |l| && l[i].key == k;
          if i < |p| { assert p[i] == l[i]; } else { assert k == last.key; }
        }
      }
    }
  }

  lemma {:induction false} UnformatTagsLast(l: seq<Tag>)
    ensures forall i :: 0 <= i < |l| && LastWithKey(l, i) ==>
      l[i].key in ToMap(UnformatTags(l)) && ToMap(UnformatTags(l))[l[i].key] == l[i].value
  {
    if l != [] {
      var p := l[..|l| - 1];
      var last := l[|l| - 1];
      UnformatTagsLast(p);
      assert ToMap(UnformatTags(l)) == ToMap(UnformatTags(p))[last.key := last.value];
      forall i | 0 <= i < |p| && LastWithKey(l, i)
        ensures l[i].key in ToMap(UnformatTags(l)) && ToMap(UnformatTags(l))[l[i].key] == l[i].value
      {
        assert l[i] == p[i];
        assert LastWithKey(p, i) by {
          forall j | i < j < |p| ensures p[j].key != p[i].key {
            assert p[j] == l[j];
          }
        }
      }
    }
  }

  /** No later tag of `l` has the key of its `i`-th tag. */
  predicate LastWithKey(l: seq<Tag>, i: nat)
    requires i < |l|
  {
    forall j :: i < j < |l| ==> l[j].key != l[i].key
  }

  lemma SetKeepsDistinct(d: Dict, k: string, v: Json)
    requires DistinctKeys(d) && k in ToMap(d)
    ensures DistinctKeys(Set(d, k, v))
  {
    ReplaceKeys(d, k, v);
  }

  lemma {:induction false} ReplaceKeys(d: Dict, k: string, v: Json)
    ensures |Replace(d, k, v)| == |d|
    ensures forall i :: 0 <= i < |d| ==> Replace(d, k, v)[i].0 == d[i].0
  {
    if d != [] {
      ReplaceKeys(d[..|d| - 1], k, v);
    }
  }

  /** Reading back what `format_tags` wrote gives the dict again. */
  lemma {:induction false} UnformatFormat(d: Dict)
    requires DistinctKeys(d)
    ensures UnformatTags(FormatTags(d)) == d
  {
    if d != [] {
      var p := d[..|d| - 1];
      var last := d[|d| - 1];
      var f := FormatTags(d);
      assert f[..|f| - 1] == FormatTags(p);
      assert f[|f| - 1] == Tag(last.0, last.1);
      DistinctKeysPrefix(d, |d| - 1);
      UnformatFormat(p);
      assert UnformatTags(f) == Set(p, last.0, last.1);
      LastKeyFresh(d);
      assert d == p + [last];
    }
  }

  /** In a dict with distinct keys, the last key is not among the earlier ones. */
  lemma LastKeyFresh(d: Dict)
    requires d != [] && DistinctKeys(d)
    ensures d[|d| - 1].0 !in ToMap(d[..|d| - 1])
  {
    var p := d[..|d| - 1];
    ToMapKeys(p);
    forall i | 0 <= i < |p| ensures Keys(p)[i] != d[|d| - 1].0 {
      assert d[i] == p[i];
    }
  }

  /** The message Python gives when a string of length `n` is unpacked into
      two names. */
  function UnpackError(n: nat): string {
    if n < 2 then "not enough values to unpack (expected 2, got " + Itoa(n) + ")"
    else "too many values to unpack (expected 2)"
  }

  /** `format_tags` as written: `for k, v in tags_dict` iterates the KEYS,
      and unpacks each key string into two characters. */
  function FormatTagsAsWritten(d: Dict): (r: Result<seq<Tag>>)
  {
    if d == [] then Ok([])
    else
      match FormatTagsAsWritten(d[..|d| - 1])
      case Raised(m) => Raised(m)
      case Ok(p) =>
        var k := d[|d| - 1].0;
        if |k| == 2 then Ok(p + [Tag([k[0]], JStr([k[1]]))]) else Raised(UnpackError(|k|))
  }

  /** As written, every dict with a key that is not exactly two characters
      long raises, and a dict whose keys all are two characters long turns
      into tags that split each key and drop every value. */
  lemma {:induction false} FormatTagsAsWrittenOutcome(d: Dict)
    ensures (exists i :: 0 <= i < |d| && |d[i].0| != 2) <==> FormatTagsAsWritten(d).Raised?
    ensures FormatTagsAsWritten(d).Ok? ==>
      |FormatTagsAsWritten(d).value| == |d| &&
      forall i :: 0 <= i < |d| ==> FormatTagsAsWritten(d).value[i] == Tag([d[i].0[0]], JStr([d[i].0[1]]))
  {
    if d != [] {
      var p := d[..|d| - 1];
      FormatTagsAsWrittenOutcome(p);
      assert forall i :: 0 <= i < |p| ==> p[i] == d[i];
    }
  }

  /** The tags `{"env": "prod"}`: the source raises where the intended
      formatter yields one tag. */
  lemma FormatTagsCounterexample()
    ensures FormatTagsAsWritten([("env", JStr("prod"))]) == Raised("too many values to unpack (expected 2)")
    ensures FormatTags([("env", JStr("prod"))]) == [Tag("env", JStr("prod"))]
  {
    var d := [("env", JStr("prod"))];
    assert d[..0] == [];
  }

  // ----- the tag delta of `get_repository` -----

  /** `[k for k in current_tags.keys() if k not in tags]` */
  function RemovedKeys(current: Dict, desired: Dict): (r: seq<string>)
  {
    if current == [] then []
    else
      var k := current[|current| - 1].0;
      RemovedKeys(current[..|current| - 1], desired) + (if k in ToMap(desired) then [] else [k])
  }

  /** `{k: v for k, v in tags.items() if k not in current_tags.keys()}` */
  function AddedTags(desired: Dict, current: Dict): (r: Dict)
  {
    if desired == [] then []
    else
      var last := desired[|desired| - 1];
      AddedTags(desired[..|desired| - 1], current) + (if last.0 in ToMap(current) then [] else [last])
  }

  /** The keys removed are exactly the current keys the definition lacks. */
  lemma {:induction false} RemovedKeysExactly(current: Dict, desired: Dict)
    ensures forall k :: k in RemovedKeys(current, desired) <==> k in ToMap(current) && k !in ToMap(desired)
    ensures DistinctKeys(current) ==> NoDuplicates(RemovedKeys(current, desired))
  {
    if current != [] {
      var p := current[..|current| - 1];
      var last := current[|current| - 1];
      RemovedKeysExactly(p, desired);
      ToMapSnoc(p, last);
      assert current == p + [last];
      if DistinctKeys(current) {
        DistinctKeysPrefix(current, |current| - 1);
        ToMapKeys(p);
        assert last.0 !in ToMap(p) by {
          forall i | 0 <= i < |p| ensures Keys(p)[i] != last.0 {
            assert current[i] == p[i];
          }
        }
      }
    }
  }

  predicate NoDuplicates(ks: seq<string>) {
    forall i, j :: 0 <= i < j < |ks| ==> ks[i] != ks[j]
  }

  /** The tags added are exactly the definition's pairs whose key the
      repository lacks. */
  lemma {:induction false} AddedTagsExactly(desired: Dict, current: Dict)
    ensures forall x :: x in AddedTags(desired, current) <==> x in desired && x.0 !in ToMap(current)
  {
    if desired != [] {
      var p := desired[..|desired| - 1];
      AddedTagsExactly(p, current);
      assert desired == p + [desired[|desired| - 1]];
    }
  }

  /** A key both sides have is neither removed nor added, whatever its two
      values are. */
  lemma SharedKeyUntouched(current: Dict, desired: Dict, k: string)
    requires k in ToMap(current) && k in ToMap(desired)
    ensures k !in RemovedKeys(current, desired)
    ensures forall x :: x in AddedTags(desired, current) ==> x.0 != k
  {
    RemovedKeysExactly(current, desired);
    AddedTagsExactly(desired, current);
  }

  /** Equal tag dicts give an empty delta. */
  lemma EqualTagsNoDelta(current: Dict, desired: Dict)
    requires ToMap(current) == ToMap(desired)
    ensures RemovedKeys(current, desired) == [] && AddedTags(desired, current) == []
  {
    RemovedKeysExactly(current, desired);
    AddedTagsExactly(desired, current);
    if RemovedKeys(current, desired) != [] {
      assert RemovedKeys(current, desired)[0] in RemovedKeys(current, desired);
    }
    if AddedTags(desired, current) != [] {
      var x := AddedTags(desired, current)[0];
      assert x in AddedTags(desired, current);
      ToMapKeys(desired);
    }
  }

  function StrList(ks: seq<string>): (r: seq<Json>)
    ensures |r| == |ks| && forall i :: 0 <= i < |ks| ==> r[i] == JStr(ks[i])
  {
    seq(|ks|, i requires 0 <= i < |ks| => JStr(ks[i]))
  }

  /** The strings of a JSON list, as `untag_resource` receives them. */
  function Strs(l: seq<Json>): (r: seq<string>)
    ensures forall i :: 0 <= i < |l| && l[i].JStr? ==> l[i].s in r
  {
    if l == [] then []
    else Strs(l[..|l| - 1]) + (if l[|l| - 1].JStr? then [l[|l| - 1].s] else [])
  }

  lemma {:induction false} StrsStrList(ks: seq<string>)
    ensures Strs(StrList(ks)) == ks
  {
    if ks != [] {
      var p := ks[..|ks| - 1];
      assert StrList(ks)[..|ks| - 1] == StrList(p);
      StrsStrList(p);
      assert ks == p + [ks[|ks| - 1]];
    }
  }

  /** As a mapping, the tags added are the definition's mapping without the
      repository's keys. */
  lemma {:induction false} AddedTagsMap(desired: Dict, current: Dict)
    ensures ToMap(AddedTags(desired, current)) == ToMap(desired) - ToMap(current).Keys
  {
    if desired != [] {
      var p := desired[..|desired| - 1];
      var last := desired[|desired| - 1];
      AddedTagsMap(p, current);
      var a := AddedTags(p, current);
      var c := ToMap(current).Keys;
      assert desired == p + [last];
      ToMapSnoc(p, last);
      if last.0 !in c {
        assert AddedTags(desired, current) == a + [last];
        ToMapSnoc(a, last);
        RemoveUpdateOther(ToMap(p), last.0, last.1, c);
      } else {
        assert AddedTags(desired, current) == a;
        RemoveUpdateSame(ToMap(p), last.0, last.1, c);
      }
    }
  }

  /** The repository's tags once both ops have been applied: the current
      mapping without the removed keys, plus the added pairs. */
  function TagsAfter(current: Dict, desired: Dict): map<string, Json> {
    (ToMap(current) - (set k | k in RemovedKeys(current, desired))) + ToMap(AddedTags(desired, current))
  }

  /** After the delta the repository carries exactly the definition's keys;
      a key that was new gets the definition's value and a key that was
      already there keeps the repository's value. */
  lemma TagDeltaConverges(current: Dict, desired: Dict)
    ensures TagsAfter(current, desired).Keys == ToMap(desired).Keys
    ensures forall k :: k in ToMap(desired) ==>
      TagsAfter(current, desired)[k] == if k in ToMap(current) then ToMap(current)[k] else ToMap(desired)[k]
  {
    RemovedKeysExactly(current, desired);
    AddedTagsMap(desired, current);
    var c, d := ToMap(current), ToMap(desired);
    assert (set k | k in RemovedKeys(current, desired)) == c.Keys - d.Keys;
    assert TagsAfter(current, desired) == (c - (c.Keys - d.Keys)) + (d - c.Keys);
  }
}
