/** JSON values as the Python code sees them after `json.loads`: objects are
    dicts, which keep their keys in insertion order, so an object is an ordered
    sequence of key/value pairs.  The functions below are the handful of dict,
    list and str operations the normaliser and the mock generator use, each
    returning `None` where Python would raise. */
module Json {
  import opened Wrappers

  datatype Json =
    | JNull
    | JBool(b: bool)
    | JNum(n: int)
    | JStr(s: string)
    | JArr(items: seq<Json>)
    | JObj(fields: seq<(string, Json)>)

  type Fields = seq<(string, Json)>

  /** The keys of an object, in iteration order. */
  function Keys(fs: Fields): seq<string>
  {
    seq(|fs|, i requires 0 <= i < |fs| => fs[i].0)
  }

  predicate HasKey(fs: Fields, k: string)
  {
    k in Keys(fs)
  }

  /** A Python dict never holds the same key twice. */
  predicate DistinctKeys(fs: Fields)
  {
    forall i, j :: 0 <= i < j < |fs| ==> fs[i].0 != fs[j].0
  }

  /** `d[k]` for a key that may be absent. */
  function Lookup(fs: Fields, k: string): (r: Option<Json>)
    ensures r.Some? <==> HasKey(fs, k)
    ensures r.Some? ==> exists i :: 0 <= i < |fs| && fs[i] == (k, r.value)
  {
    if fs == [] then None
    else if fs[0].0 == k then assert Keys(fs)[0] == k; Some(fs[0].1)
    else
      var r := Lookup(fs[1..], k);
      assert Keys(fs) == [fs[0].0] + Keys(fs[1..]);
      assert r.Some? ==> exists i :: 0 <= i < |fs| && fs[i] == (k, r.value) by {
        if r.Some? {
          var i :| 0 <= i < |fs[1..]| && fs[1..][i] == (k, r.value);
          assert fs[i + 1] == (k, r.value);
        }
      }
      r
  }

  /** In a dict every key finds its own pair. */
  lemma {:induction false} LookupAt(fs: Fields, i: nat)
    requires DistinctKeys(fs) && i < |fs|
    ensures Lookup(fs, fs[i].0) == Some(fs[i].1)
  {
    if i > 0 {
      LookupAt(fs[1..], i - 1);
      assert fs[1..][i - 1] == fs[i];
    }
  }

  /** A key finds the first pair that holds it. */
  lemma {:induction false} LookupFirst(fs: Fields, i: nat)
    requires i < |fs| && forall j :: 0 <= j < i ==> fs[j].0 != fs[i].0
    ensures Lookup(fs, fs[i].0) == Some(fs[i].1)
  {
    if i > 0 {
      assert fs[1..][i - 1] == fs[i];
      assert forall j :: 0 <= j < i - 1 ==> fs[1..][j].0 != fs[i].0 by {
        forall j | 0 <= j < i - 1 ensures fs[1..][j].0 != fs[i].0 { assert fs[1..][j] == fs[j + 1]; }
      }
      LookupFirst(fs[1..], i - 1);
    }
  }

  /** `d.get(k, default)` on a value already known to be a dict. */
  function Field(fs: Fields, k: string, default: Json): Json
  {
    match Lookup(fs, k)
    case Some(v) => v
    case None => default
  }

  /** `.get` yields the stored value when the key is present and the default
      otherwise. */
  lemma FieldDefault(fs: Fields, k: string, default: Json)
    ensures Field(fs, k, default) == if HasKey(fs, k) then Field(fs, k, JNull) else default
  {
  }

  /** `x.get(k, default)`: anything but a dict has no `get` and raises. */
  function Get(x: Json, k: string, default: Json): (r: Option<Json>)
    ensures r.None? <==> !x.JObj?
    ensures r.Some? ==> r.value == if HasKey(x.fields, k) then Lookup(x.fields, k).value else default
  {
    if x.JObj? then Some(Field(x.fields, k, default)) else None
  }

  /** `x.items()`: only dicts have it. */
  function Items(x: Json): Option<Fields>
  {
    if x.JObj? then Some(x.fields) else None
  }

  /** `x.items()` raises exactly when `x` is not a dict, and lists the pairs
      in insertion order otherwise. */
  lemma ItemsRaises(x: Json)
    ensures Items(x).None? <==> !x.JObj?
    ensures x.JObj? ==> Items(x) == Some(x.fields)
  {
  }

  /** `for y in x`: a list yields its items, a dict its keys, a str its
      characters; numbers, booleans and None are not iterable. */
  function Iter(x: Json): (r: Option<seq<Json>>)
    ensures r.None? <==> x.JNull? || x.JBool? || x.JNum?
  {
    match x
    case JArr(items) => Some(items)
    case JObj(fs) => Some(seq(|fs|, i requires 0 <= i < |fs| => JStr(fs[i].0)))
    case JStr(s) => Some(seq(|s|, i requires 0 <= i < |s| => JStr([s[i]])))
    case _ => None
  }

  /** What iterating yields: a list its items, a dict its keys in insertion
      order, a str its characters one by one. */
  lemma IterYields(x: Json)
    ensures x.JArr? ==> Iter(x) == Some(x.items)
    ensures x.JObj? ==>
      |Iter(x).value| == |x.fields| && forall i :: 0 <= i < |x.fields| ==> Iter(x).value[i] == JStr(Keys(x.fields)[i])
    ensures x.JStr? ==>
      |Iter(x).value| == |x.s| && forall i :: 0 <= i < |x.s| ==> Iter(x).value[i] == JStr([x.s[i]])
  {
  }

  /** Python truthiness (`if x:`). */
  predicate Truthy(x: Json)
  {
    match x
    case JNull => false
    case JBool(b) => b
    case JNum(n) => n != 0
    case JStr(s) => s != ""
    case JArr(items) => items != []
    case JObj(fs) => fs != []
  }

  /** The falsy values are exactly None, False, 0, "", [] and {}. */
  lemma FalsyValues(x: Json)
    ensures !Truthy(x) <==>
      x == JNull || x == JBool(false) || x == JNum(0) || x == JStr("") || x == JArr([]) || x == JObj([])
  {
  }

  /** `k in x` for a string `k`: key membership for a dict, element membership
      for a list, substring test for a str; anything else raises. */
  function Contains(x: Json, k: string): (r: Option<bool>)
    ensures r.None? <==> x.JNull? || x.JBool? || x.JNum?
  {
    match x
    case JObj(fs) => Some(HasKey(fs, k))
    case JArr(items) => Some(JStr(k) in items)
    case JStr(s) => Some(IsSubstring(k, s))
    case _ => None
  }

  predicate IsSubstring(sub: string, s: string)
    decreases |s|
  {
    (|sub| <= |s| && s[..|sub|] == sub) || (s != [] && IsSubstring(sub, s[1..]))
  }

  /** `sub` occurs in `s` starting at position `i`. */
  predicate OccursAt(sub: string, s: string, i: nat)
  {
    i + |sub| <= |s| && s[i..i + |sub|] == sub
  }

  /** The substring test holds exactly when `sub` occurs at some position. */
  lemma {:induction false} SubstringOccurs(sub: string, s: string)
    ensures IsSubstring(sub, s) <==> exists i: nat :: i <= |s| && OccursAt(sub, s, i)
    decreases |s|
  {
    if s != [] {
      SubstringOccurs(sub, s[1..]);
      if |sub| <= |s| && s[..|sub|] == sub {
        assert OccursAt(sub, s, 0);
      }
      if IsSubstring(sub, s[1..]) {
        var i: nat :| i <= |s[1..]| && OccursAt(sub, s[1..], i);
        assert s[1..][i..i + |sub|] == s[i + 1..i + 1 + |sub|];
        assert OccursAt(sub, s, i + 1);
      }
      if exists i: nat :: i <= |s| && OccursAt(sub, s, i) {
        var i: nat :| i <= |s| && OccursAt(sub, s, i);
        if i > 0 {
          assert s[1..][i - 1..i - 1 + |sub|] == s[i..i + |sub|];
          assert OccursAt(sub, s[1..], i - 1);
        } else {
          assert s[..|sub|] == s[0..|sub|];
        }
      }
    } else if sub == [] {
      assert s[..0] == sub && OccursAt(sub, s, 0);
    }
  }

  /** `d[k] = v`: an existing key keeps its position and takes the new value,
      a new key is appended. */
  function Put(fs: Fields, k: string, v: Json): Fields
  {
    if fs == [] then [(k, v)]
    else if fs[0].0 == k then [(k, v)] + fs[1..]
    else [fs[0]] + Put(fs[1..], k, v)
  }

  lemma {:induction false} PutLookup(fs: Fields, k: string, v: Json, k': string)
    ensures Lookup(Put(fs, k, v), k') == if k' == k then Some(v) else Lookup(fs, k')
  {
    if fs != [] && fs[0].0 != k {
      PutLookup(fs[1..], k, v, k');
    }
  }

  lemma {:induction false} PutKeys(fs: Fields, k: string, v: Json)
    ensures Keys(Put(fs, k, v)) == if HasKey(fs, k) then Keys(fs) else Keys(fs) + [k]
  {
    if fs == [] {
    } else if fs[0].0 == k {
      assert Keys(fs)[0] == k;
      assert Keys(Put(fs, k, v)) == Keys(fs);
    } else {
      PutKeys(fs[1..], k, v);
      assert Keys(fs) == [fs[0].0] + Keys(fs[1..]);
      assert Keys(Put(fs, k, v)) == [fs[0].0] + Keys(Put(fs[1..], k, v));
    }
  }

  /** Assigning a key the dict does not hold yet appends the pair. */
  lemma {:induction false} PutFresh(fs: Fields, k: string, v: Json)
    requires !HasKey(fs, k)
    ensures Put(fs, k, v) == fs + [(k, v)]
  {
    if fs != [] {
      assert Keys(fs) == [fs[0].0] + Keys(fs[1..]);
      PutFresh(fs[1..], k, v);
      assert fs == [fs[0]] + fs[1..];
    }
  }

  /** Assigning into a dict keeps its keys distinct. */
  lemma {:induction false} PutDistinct(fs: Fields, k: string, v: Json)
    requires DistinctKeys(fs)
    ensures DistinctKeys(Put(fs, k, v))
  {
    if fs != [] && fs[0].0 != k {
      PutDistinct(fs[1..], k, v);
      PutKeys(fs[1..], k, v);
      var p := Put(fs, k, v);
      forall j | 1 <= j < |p| ensures p[0].0 != p[j].0 {
        assert p[j].0 == Keys(Put(fs[1..], k, v))[j - 1];
        assert fs[0].0 !in Keys(fs[1..]) by {
          forall m | 0 <= m < |fs[1..]| ensures Keys(fs[1..])[m] != fs[0].0 { assert fs[1..][m] == fs[m + 1]; }
        }
      }
    }
  }

  /** Every value of the updated dict is either the new value or an old one. */
  lemma {:induction false} PutValues(fs: Fields, k: string, v: Json, i: nat)
    requires i < |Put(fs, k, v)|
    ensures Put(fs, k, v)[i].1 == v || exists j :: 0 <= j < |fs| && fs[j].1 == Put(fs, k, v)[i].1
  {
    if fs != [] && fs[0].0 != k && i > 0 {
      PutValues(fs[1..], k, v, i - 1);
      if Put(fs, k, v)[i].1 != v {
        var j :| 0 <= j < |fs[1..]| && fs[1..][j].1 == Put(fs[1..], k, v)[i - 1].1;
        assert fs[j + 1].1 == Put(fs, k, v)[i].1;
      }
    } else if fs != [] && fs[0].0 == k && i > 0 {
      assert Put(fs, k, v)[i] == fs[i];
    }
  }
}
