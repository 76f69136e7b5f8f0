/** Python values as the two reconcilers see them: JSON-like data read from
    the invocation event, and insertion-ordered dictionaries. */
module Json {

  datatype Option<+T> = None | Some(value: T)

  /** A computation that either yields a value or raises a Python exception
      whose `str(e)` is `msg`. */
  datatype Result<+T> = Ok(value: T) | Raised(msg: string)

  datatype Json =
    | JNull
    | JBool(b: bool)
    | JInt(i: int)
    | JStr(s: string)
    | JList(items: seq<Json>)
    | JObj(fields: seq<(string, Json)>)

  /** A Python dict: the key/value pairs in insertion order. */
  type Dict = seq<(string, Json)>

  /** Python truthiness (`if x`, `x or y`). */
  predicate Truthy(j: Json) {
    match j
    case JNull => false
    case JBool(b) => b
    case JInt(i) => i != 0
    case JStr(s) => s != ""
    case JList(l) => l != []
    case JObj(f) => f != []
  }

  /** `value or default` applied to the result of a `dict.get`. */
  function OrDefault(v: Option<Json>, default: Json): (r: Json)
    ensures v.Some? && Truthy(v.value) ==> r == v.value
    ensures !(v.Some? && Truthy(v.value)) ==> r == default
  {
    if v.Some? && Truthy(v.value) then v.value else default
  }

  function Keys(d: Dict): (ks: seq<string>)
    ensures |ks| == |d|
    ensures forall i :: 0 <= i < |d| ==> ks[i] == d[i].0
  {
    seq(|d|, i requires 0 <= i < |d| => d[i].0)
  }

  predicate DistinctKeys(d: Dict) {
    forall i, j :: 0 <= i < j < |d| ==> d[i].0 != d[j].0
  }

  /** The mapping a dict denotes; a later pair for the same key wins, as in
      a Python dict display. */
  function ToMap(d: Dict): (m: map<string, Json>)
  {
    if d == [] then map[] else ToMap(d[..|d| - 1])[d[|d| - 1].0 := d[|d| - 1].1]
  }

  lemma {:induction false} ToMapKeys(d: Dict)
    ensures forall k :: k in ToMap(d) <==> k in Keys(d)
  {
    if d != [] {
      var p := d[..|d| - 1];
      ToMapKeys(p);
      assert Keys(d) == Keys(p) + [d[|d| - 1].0];
    }
  }

  /** `d.get(k)`. */
  function Get(d: Dict, k: string): Option<Json> {
    if k in ToMap(d) then Some(ToMap(d)[k]) else None
  }

  lemma {:induction false} ToMapAt(d: Dict, i: nat)
    requires DistinctKeys(d) && i < |d|
    ensures d[i].0 in ToMap(d) && ToMap(d)[d[i].0] == d[i].1
  {
    if i < |d| - 1 {
      var p := d[..|d| - 1];
      assert p[i] == d[i];
      DistinctKeysPrefix(d, |d| - 1);
      ToMapAt(p, i);
    }
  }

  lemma ToMapSnoc(p: Dict, x: (string, Json))
    ensures ToMap(p + [x]) == ToMap(p)[x.0 := x.1]
  {
    assert (p + [x])[..|p|] == p;
  }

  /** Replaces the value of every pair whose key is `k`. */
  function Replace(d: Dict, k: string, v: Json): (r: Dict)
  {
    if d == [] then []
    else
      var last := d[|d| - 1];
      Replace(d[..|d| - 1], k, v) + [if last.0 == k then (k, v) else last]
  }

  lemma {:induction false} ReplaceToMap(d: Dict, k: string, v: Json)
    ensures ToMap(Replace(d, k, v)) == if k in ToMap(d) then ToMap(d)[k := v] else ToMap(d)
  {
    if d != [] {
      var p := d[..|d| - 1];
      var last := d[|d| - 1];
      var rp := Replace(p, k, v);
      ReplaceToMap(p, k, v);
      var last' := if last.0 == k then (k, v) else last;
      assert Replace(d, k, v) == rp + [last'];
      ToMapSnoc(rp, last');
    }
  }

  /** `d[k] = v`: an existing key keeps its position, a new one is appended. */
  function Set(d: Dict, k: string, v: Json): (r: Dict)
    ensures ToMap(r) == ToMap(d)[k := v]
    ensures k !in ToMap(d) ==> r == d + [(k, v)]
  {
    if k in ToMap(d) then
      ReplaceToMap(d, k, v);
      Replace(d, k, v)
    else
      ToMapSnoc(d, (k, v));
      d + [(k, v)]
  }

  /** The pairs of a JSON object; anything else reads as an empty dict. */
  function ObjFields(j: Json): Dict {
    if j.JObj? then j.fields else []
  }

  /** `d.get(k)` with None for a missing key. */
  function GetOrNull(d: Dict, k: string): Json {
    match Get(d, k)
    case Some(x) => x
    case None => JNull
  }

  /** `m.get(k)` on one of the handler's maps. */
  function PropOrNull(m: map<string, Json>, k: string): Json {
    if k in m then m[k] else JNull
  }

  /** The name Python gives the type of a value in its error messages. */
  function TypeName(j: Json): string {
    match j
    case JNull => "NoneType"
    case JBool(_) => "bool"
    case JInt(_) => "int"
    case JStr(_) => "str"
    case JList(_) => "list"
    case JObj(_) => "dict"
  }

  /** `d.pop(k, None)`: the dict without key `k`, order otherwise kept. */
  function Pop(d: Dict, k: string): (r: Dict)
  {
    if d == [] then []
    else
      var last := d[|d| - 1];
      Pop(d[..|d| - 1], k) + (if last.0 == k then [] else [last])
  }

  lemma {:induction false} PopToMap(d: Dict, k: string)
    ensures ToMap(Pop(d, k)) == ToMap(d) - {k}
  {
    if d != [] {
      var p := d[..|d| - 1];
      var last := d[|d| - 1];
      PopToMap(p, k);
      assert d == p + [last];
      ToMapSnoc(p, last);
      if last.0 != k {
        assert Pop(d, k) == Pop(p, k) + [last];
        ToMapSnoc(Pop(p, k), last);
        RemoveUpdateOther(ToMap(p), last.0, last.1, {k});
      } else {
        assert Pop(d, k) == Pop(p, k);
        RemoveUpdateSame(ToMap(p), k, last.1, {k});
      }
    }
  }

  lemma RemoveUpdateOther(m: map<string, Json>, a: string, b: Json, ks: set<string>)
    requires a !in ks
    ensures m[a := b] - ks == (m - ks)[a := b]
  {
  }

  lemma RemoveUpdateSame(m: map<string, Json>, a: string, b: Json, ks: set<string>)
    requires a in ks
    ensures m[a := b] - ks == m - ks
  {
  }

  lemma {:induction false} PopIdempotent(d: Dict, k: string)
    ensures Pop(Pop(d, k), k) == Pop(d, k)
  {
    if d != [] {
      var p := d[..|d| - 1];
      var last := d[|d| - 1];
      PopIdempotent(p, k);
      if last.0 != k {
        var r := Pop(p, k) + [last];
        assert Pop(d, k) == r;
        assert r[..|r| - 1] == Pop(p, k);
      } else {
        assert Pop(d, k) == Pop(p, k);
      }
    }
  }

  lemma {:induction false} PopReplace(d: Dict, k: string, v: Json)
    ensures Pop(Replace(d, k, v), k) == Pop(d, k)
  {
    if d != [] {
      var p := d[..|d| - 1];
      var last := d[|d| - 1];
      PopReplace(p, k, v);
      var q := Replace(p, k, v) + [if last.0 == k then (k, v) else last];
      assert Replace(d, k, v) == q;
      assert q[..|q| - 1] == Replace(p, k, v);
    }
  }

  /** Popping a key forgets whatever was written under it. */
  lemma PopSet(d: Dict, k: string, v: Json)
    ensures Pop(Set(d, k, v), k) == Pop(d, k)
  {
    if k in ToMap(d) {
      PopReplace(d, k, v);
    } else {
      var q := d + [(k, v)];
      assert q[..|q| - 1] == d;
    }
  }

  /** `d.update(o)`: every pair of `o` written into `d`, in order. */
  function Update(d: Dict, o: Dict): (r: Dict)
  {
    if o == [] then d
    else Set(Update(d, o[..|o| - 1]), o[|o| - 1].0, o[|o| - 1].1)
  }

  lemma {:induction false} UpdateToMap(d: Dict, o: Dict)
    ensures ToMap(Update(d, o)) == ToMap(d) + ToMap(o)
  {
    if o != [] {
      var p := o[..|o| - 1];
      var k, v := o[|o| - 1].0, o[|o| - 1].1;
      UpdateToMap(d, p);
      assert ToMap(Update(d, o)) == ToMap(Update(d, p))[k := v];
      assert ToMap(o) == ToMap(p)[k := v];
      UnionUpdate(ToMap(d), ToMap(p), k, v);
    }
  }

  lemma UnionUpdate(a: map<string, Json>, b: map<string, Json>, k: string, v: Json)
    ensures a + b[k := v] == (a + b)[k := v]
  {
  }

  /** A prefix of a dict with distinct keys has distinct keys. */
  lemma DistinctKeysPrefix(d: Dict, n: nat)
    requires n <= |d| && DistinctKeys(d)
    ensures DistinctKeys(d[..n])
  {
    forall i, j | 0 <= i < j < n ensures d[..n][i].0 != d[..n][j].0 {
      assert d[..n][i] == d[i] && d[..n][j] == d[j];
    }
  }

  /** Drops the pairs whose value is None (`remove_none_attributes`, one level). */
  function RemoveNone(d: Dict): (r: Dict)
    ensures forall x :: x in r <==> x in d && x.1 != JNull
  {
    if d == [] then []
    else
      var last := d[|d| - 1];
      assert d == d[..|d| - 1] + [last];
      RemoveNone(d[..|d| - 1]) + (if last.1 == JNull then [] else [last])
  }

  lemma {:induction false} RemoveNoneDistinct(d: Dict)
    requires DistinctKeys(d)
    ensures DistinctKeys(RemoveNone(d))
  {
    if d != [] {
      var p := d[..|d| - 1];
      var last := d[|d| - 1];
      DistinctKeysPrefix(d, |d| - 1);
      RemoveNoneDistinct(p);
      if last.1 != JNull {
        var r := RemoveNone(p);
        forall i | 0 <= i < |r| ensures r[i].0 != last.0 {
          assert r[i] in r;
          var m :| 0 <= m < |p| && p[m] == r[i];
          assert d[m] == p[m];
        }
      }
    }
  }

  /** In a dict with distinct keys, a pair it holds is what `get` finds. */
  lemma GetPair(d: Dict, k: string, v: Json)
    requires DistinctKeys(d) && (k, v) in d
    ensures Get(d, k) == Some(v)
  {
    var i :| 0 <= i < |d| && d[i] == (k, v);
    ToMapAt(d, i);
  }

  /** A key no pair holds is what `get` misses. */
  lemma GetMissing(d: Dict, k: string)
    requires forall x :: x in d ==> x.0 != k
    ensures Get(d, k) == None
  {
    forall i | 0 <= i < |d| ensures Keys(d)[i] != k {
      assert d[i] in d;
    }
    ToMapKeys(d);
  }

  /** After dropping None values, `get` finds a pair's value unless it was None. */
  lemma GetRemoveNone(d: Dict, i: nat)
    requires DistinctKeys(d) && i < |d|
    ensures Get(RemoveNone(d), d[i].0) == if d[i].1 == JNull then None else Some(d[i].1)
  {
    var r := RemoveNone(d);
    RemoveNoneDistinct(d);
    if d[i].1 != JNull {
      assert d[i] in d;
      GetPair(r, d[i].0, d[i].1);
    } else {
      forall x | x in r ensures x.0 != d[i].0 {
        var j :| 0 <= j < |d| && d[j] == x;
      }
      GetMissing(r, d[i].0);
    }
  }

  /** The decimal digits of a natural number, as `f"{n}"` prints it. */
  function Itoa(n: nat): (s: string)
    ensures |s| >= 1
    ensures forall i :: 0 <= i < |s| ==> '0' <= s[i] <= '9'
  {
    if n < 10 then [Digit(n)] else Itoa(n / 10) + [Digit(n % 10)]
  }

  function Digit(d: nat): (c: char)
    requires d < 10
    ensures '0' <= c <= '9'
  {
    ['0', '1', '2', '3', '4', '5', '6', '7', '8', '9'][d]
  }

  /** Reads back a string of decimal digits; the inverse of `Itoa`. */
  function Atoi(s: string): int
    requires forall i :: 0 <= i < |s| ==> '0' <= s[i] <= '9'
  {
    if s == [] then 0 else Atoi(s[..|s| - 1]) * 10 + (s[|s| - 1] as int - '0' as int)
  }

  lemma {:induction false} AtoiItoa(n: nat)
    ensures Atoi(Itoa(n)) == n
  {
    var s := Itoa(n);
    if n < 10 {
      assert s[..0] == [];
    } else {
      assert s[..|s| - 1] == Itoa(n / 10);
      AtoiItoa(n / 10);
    }
  }

  lemma ItoaInjective(a: nat, b: nat)
    requires Itoa(a) == Itoa(b)
    ensures a == b
  {
    AtoiItoa(a);
    AtoiItoa(b);
  }

  /** An f-string rendering of a value; strings, None, booleans and integers
      as Python prints them, containers only schematically. */
  function Show(j: Json): string {
    match j
    case JNull => "None"
    case JBool(b) => if b then "True" else "False"
    case JInt(i) => if i < 0 then "-" + Itoa(-i) else Itoa(i)
    case JStr(s) => s
    case JList(_) => "[...]"
    case JObj(_) => "{...}"
  }
}
