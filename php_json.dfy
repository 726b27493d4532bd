/** The PHP value semantics the webhook relies on: decoded JSON values,
    truthiness (`if ($x)`, `!$x`, `empty()`), the `isset`/`??` lookup that
    degrades to a default, the `?:` operator and `strpos(...) !== false`. */
module PhpJson {

  datatype Option<+T> = None | Some(value: T)

  /** A value produced by `json_decode($text, true)`: objects become
      associative arrays, modelled here as maps from string keys. */
  datatype Json =
    | JNull
    | JBool(b: bool)
    | JInt(i: int)
    | JStr(s: string)
    | JArr(items: seq<Json>)
    | JObj(fields: map<string, Json>)

  /** PHP truthiness of a string: only "" and "0" are falsy, so every
      string of two or more characters is truthy, even "00" or "0 ". */
  predicate TruthyString(s: string): (b: bool)
    ensures b <==> |s| >= 2 || (|s| == 1 && s[0] != '0')
  {
    s != "" && s != "0"
  }

  /** The seven decoded values PHP reads as false. */
  const FalsyValues: set<Json> :=
    {JNull, JBool(false), JInt(0), JStr(""), JStr("0"), JArr([]), JObj(map[])}

  /** PHP truthiness of a decoded value: null, false, 0, "", "0" and the
      empty array (an empty JSON list or object) are falsy. */
  predicate Truthy(v: Json): (b: bool)
    ensures b <==> v !in FalsyValues
  {
    match v
    case JNull => false
    case JBool(b) => b
    case JInt(i) => i != 0
    case JStr(s) => TruthyString(s)
    case JArr(items) => items != []
    case JObj(fields) => fields != map[]
  }

  /** `isset($v[$key])`, and then `$v[$key]`: present only when `v` is an
      array holding `key` with a non-null value. Every key the webhook looks
      up is non-numeric, so a list or a string never holds it. */
  function Get(v: Json, key: string): (r: Option<Json>)
    ensures r.Some? <==> v.JObj? && key in v.fields && v.fields[key] != JNull
    ensures r.Some? ==> r.value == v.fields[key]
    ensures r == Path(v, [key])
  {
    assert [key][0] == key && [key][1..] == [];
    if v.JObj? && key in v.fields && v.fields[key] != JNull then Some(v.fields[key]) else None
  }

  /** The nested lookup `$v[k0][k1]...` under `isset`/`??`: a missing key, a
      null anywhere on the way, or indexing into a non-array all yield None. */
  function Path(v: Json, keys: seq<string>): (r: Option<Json>)
    ensures r.Some? ==> r.value != JNull
    decreases |keys|
  {
    if keys == [] then
      (if v == JNull then None else Some(v))
    else if v.JObj? && keys[0] in v.fields then
      Path(v.fields[keys[0]], keys[1..])
    else
      None
  }

  /** `$x ?? $default` applied to a lookup. */
  function Coalesce(o: Option<Json>, default: Json): (r: Json)
    ensures o.Some? ==> r == o.value
    ensures o.None? ==> r == default
  {
    if o.Some? then o.value else default
  }

  /** `$x ?: $default`. */
  function Elvis(v: Json, default: Json): (r: Json)
    ensures Truthy(v) ==> r == v
    ensures !Truthy(v) ==> r == default
  {
    if Truthy(v) then v else default
  }

  /** `p` occurs in `s` starting at index `i`. */
  predicate OccursAt(s: string, p: string, i: int)
  {
    0 <= i <= |s| - |p| && s[i..i + |p|] == p
  }

  /** `strpos($s, $p) !== false`: `s` splits as some prefix, `p`, and some
      suffix. */
  predicate Contains(s: string, p: string): (b: bool)
    ensures b <==> exists x, y :: s == x + p + y
  {
    OccursAtIffSplit(s, p);
    exists i :: 0 <= i <= |s| - |p| && OccursAt(s, p, i)
  }

  lemma OccursAtIffSplit(s: string, p: string)
    ensures (exists i :: 0 <= i <= |s| - |p| && OccursAt(s, p, i)) <==> exists x, y :: s == x + p + y
  {
    if exists i :: 0 <= i <= |s| - |p| && OccursAt(s, p, i) {
      var i :| 0 <= i <= |s| - |p| && OccursAt(s, p, i);
      assert s == s[..i] + p + s[i + |p|..];
    }
    if exists x, y :: s == x + p + y {
      var x, y :| s == x + p + y;
      assert s[|x|..|x| + |p|] == p;
      assert OccursAt(s, p, |x|);
    }
  }

  /** Looking up `a + b` is looking up `a` and then `b` in what was found:
      a chained `$v[..][..]` degrades to the default as soon as any prefix of
      the path is unset. */
  lemma {:induction false} PathConcat(v: Json, a: seq<string>, b: seq<string>)
    ensures Path(v, a + b) == if Path(v, a).Some? then Path(Path(v, a).value, b) else None
    decreases |a|
  {
    if a == [] {
      assert a + b == b;
      if v == JNull {
        if b != [] {
          assert !v.JObj?;
        }
      }
    } else if v.JObj? && a[0] in v.fields {
      assert (a + b)[0] == a[0];
      assert (a + b)[1..] == a[1..] + b;
      PathConcat(v.fields[a[0]], a[1..], b);
    } else {
      assert (a + b)[0] == a[0];
    }
  }

  /** `$v[k0][k1][k2]` read as three successive `isset` checks, one level
      at a time. */
  function Nested(v: Json, k0: string, k1: string, k2: string): Option<Json>
  {
    match Get(v, k0)
    case None => None
    case Some(a) =>
      match Get(a, k1)
      case None => None
      case Some(b) => Get(b, k2)
  }

  /** A three-key path such as `$data['origin']['country']['code']` is three
      successive `isset` lookups. */
  lemma PathThree(v: Json, k0: string, k1: string, k2: string)
    ensures Path(v, [k0, k1, k2]) == Nested(v, k0, k1, k2)
  {
    PathConcat(v, [k0], [k1, k2]);
    assert [k0] + [k1, k2] == [k0, k1, k2];
    if Get(v, k0).Some? {
      var u := Get(v, k0).value;
      PathConcat(u, [k1], [k2]);
      assert [k1] + [k2] == [k1, k2];
    }
  }

  /** A pattern whose first character never occurs in `s` is not found in it. */
  lemma NotContainsFirstChar(s: string, p: string)
    requires p != [] && p[0] !in s
    ensures !Contains(s, p)
  {
  }
}
