/**
 The JSON documents the parsers write and the topology generator reads, as the
 Python values json.load produces: None, bool, int, str, list and dict. A dict
 keeps its insertion order; `get` finds a key's first entry.
 */
module JsonValue {
  import opened Wrappers
  import opened Text

  datatype Field = Field(key: string, val: Value)

  datatype Value =
    | Null
    | Bool(b: bool)
    | Int(n: int)
    | Str(s: string)
    | List(items: seq<Value>)
    | Obj(fields: seq<Field>)

  /** Python truthiness: None, False, 0, "", [] and {} are false. */
  predicate Truthy(v: Value) {
    match v
    case Null => false
    case Bool(b) => b
    case Int(n) => n != 0
    case Str(s) => s != ""
    case List(xs) => |xs| > 0
    case Obj(fs) => |fs| > 0
  }

  function Keys(fs: seq<Field>): (ks: seq<string>)
    ensures |ks| == |fs|
    ensures forall i :: 0 <= i < |fs| ==> ks[i] == fs[i].key
  {
    if |fs| == 0 then [] else [fs[0].key] + Keys(fs[1..])
  }

  /** The value stored under `k`, if the dict has that key. */
  function Lookup(fs: seq<Field>, k: string): (r: Option<Value>)
    ensures r.Some? <==> k in Keys(fs)
    ensures r.Some? ==> exists i :: 0 <= i < |fs| && fs[i] == Field(k, r.value)
  {
    if |fs| == 0 then None
    else if fs[0].key == k then Some(fs[0].val)
    else
      var r := Lookup(fs[1..], k);
      assert r.Some? ==> exists i :: 0 <= i < |fs[1..]| && fs[1..][i] == Field(k, r.value);
      r
  }

  /** dict.get(k, default) on a dict value. */
  function GetOr(v: Value, k: string, default: Value): Value
    requires v.Obj?
  {
    match Lookup(v.fields, k)
    case Some(x) => x
    case None => default
  }

  /** dict.get(k): None when the key is absent. */
  function Get(v: Value, k: string): Value
    requires v.Obj?
  {
    GetOr(v, k, Null)
  }

  predicate Has(v: Value, k: string)
    requires v.Obj?
  {
    k in Keys(v.fields)
  }

  /** d[k] = x: an existing key keeps its position, a new key goes last. */
  function Set(fs: seq<Field>, k: string, x: Value): seq<Field>
    decreases |fs|
  {
    if |fs| == 0 then [Field(k, x)]
    else if fs[0].key == k then [Field(k, x)] + fs[1..]
    else [fs[0]] + Set(fs[1..], k, x)
  }

  /** After `d[k] = x`, `d.get(k)` is `x`. */
  lemma {:induction false} SetFound(fs: seq<Field>, k: string, x: Value)
    ensures Lookup(Set(fs, k, x), k) == Some(x)
    decreases |fs|
  {
    if |fs| > 0 && fs[0].key != k {
      SetFound(fs[1..], k, x);
      assert Set(fs, k, x)[1..] == Set(fs[1..], k, x);
    }
  }

  /** `d[k] = x` leaves every other key's value as it was. */
  lemma {:induction false} SetOther(fs: seq<Field>, k: string, x: Value, k': string)
    requires k' != k
    ensures Lookup(Set(fs, k, x), k') == Lookup(fs, k')
    decreases |fs|
  {
    if |fs| > 0 {
      var r := Set(fs, k, x);
      if fs[0].key == k {
        assert r[1..] == fs[1..];
      } else {
        SetOther(fs[1..], k, x, k');
        assert r[1..] == Set(fs[1..], k, x);
      }
    }
  }

  /** An existing key keeps its position; a new key is appended after the others. */
  lemma {:induction false} SetKeys(fs: seq<Field>, k: string, x: Value)
    ensures k in Keys(fs) ==> Keys(Set(fs, k, x)) == Keys(fs)
    ensures k !in Keys(fs) ==> Keys(Set(fs, k, x)) == Keys(fs) + [k]
    decreases |fs|
  {
    if |fs| > 0 {
      var r := Set(fs, k, x);
      assert Keys(fs) == [fs[0].key] + Keys(fs[1..]);
      if fs[0].key == k {
        assert r[1..] == fs[1..];
        assert Keys(r) == [k] + Keys(fs[1..]);
      } else {
        SetKeys(fs[1..], k, x);
        assert r[1..] == Set(fs[1..], k, x);
        assert Keys(r) == [fs[0].key] + Keys(Set(fs[1..], k, x));
      }
    }
  }

  /** Re-assigning a key the value it already holds leaves the dict as it was. */
  lemma {:induction false} SetExisting(fs: seq<Field>, k: string, x: Value)
    requires Lookup(fs, k) == Some(x)
    ensures Set(fs, k, x) == fs
    decreases |fs|
  {
    if fs[0].key != k {
      SetExisting(fs[1..], k, x);
      assert fs == [fs[0]] + fs[1..];
    }
  }

  function JoinWith(parts: seq<string>, sep: string): string {
    if |parts| == 0 then "" else if |parts| == 1 then parts[0] else parts[0] + sep + JoinWith(parts[1..], sep)
  }

  /** repr() of a value; strings are always quoted with single quotes (escaping is not modelled). */
  function Repr(v: Value): string
    decreases v
  {
    match v
    case Null => "None"
    case Bool(b) => if b then "True" else "False"
    case Int(n) => IntToString(n)
    case Str(s) => "'" + s + "'"
    case List(xs) => "[" + JoinWith(seq(|xs|, i requires 0 <= i < |xs| => Repr(xs[i])), ", ") + "]"
    case Obj(fs) =>
      "{" + JoinWith(seq(|fs|, i requires 0 <= i < |fs| => "'" + fs[i].key + "': " + Repr(fs[i].val)), ", ") + "}"
  }

  /** str() of a value: a string is itself, anything else its repr. */
  function PyStr(v: Value): (r: string)
    ensures v.Str? ==> r == v.s
    ensures !v.Str? ==> r != ""
  {
    if v.Str? then v.s else Repr(v)
  }
}
