/**
 * JSON values as the JavaScript core sees them after `JSON.parse`: a tagged
 * union in place of duck typing.  An object is a list of members, because
 * `Object.keys` order is observable (the `extra` list of the request
 * validator, the later-key-wins rule of the sanitiser).  The list is read as
 * the object's enumeration order, but nothing enforces that: a list that
 * repeats a key, or that lists an array-index key ("0", "1", ...) after
 * another key, stands for no object `JSON.parse` produces (JavaScript lists
 * array-index keys first, in ascending order).  Lemmas that need distinct
 * keys require them through their own predicates (`Helper.DistinctNames` for
 * a validator specification, `Helper.StrippedDistinct` for the sanitiser).
 * Numbers are integers; floating point is not modelled.
 */
module Json {

  datatype Option<+T> = None | Some(value: T)

  datatype Value =
    | Str(s: string)
    | Num(n: int)
    | Bool(b: bool)
    | Obj(fields: seq<Field>)
    | Arr(items: seq<Value>)
    | Null

  datatype Field = Field(key: string, value: Value)

  /** The name JavaScript's `typeof` gives a parsed JSON value. */
  function TypeOf(v: Value): string {
    match v
    case Str(_) => "string"
    case Num(_) => "number"
    case Bool(_) => "boolean"
    case _ => "object"
  }

  /** `Object.keys(o)`, in enumeration order. */
  function KeysOf(fs: seq<Field>): (ks: seq<string>)
    ensures |ks| == |fs|
    ensures forall i :: 0 <= i < |fs| ==> ks[i] == fs[i].key
  {
    if fs == [] then [] else [fs[0].key] + KeysOf(fs[1..])
  }

  predicate HasKey(fs: seq<Field>, k: string) {
    exists i :: 0 <= i < |fs| && fs[i].key == k
  }

  /** `o[k]` (`None` is `undefined`): the value of the first member named `k`. */
  function Lookup(fs: seq<Field>, k: string): (r: Option<Value>)
    ensures r.None? <==> !HasKey(fs, k)
    ensures r.Some? ==> exists i :: 0 <= i < |fs| && fs[i] == Field(k, r.value)
  {
    if fs == [] then None
    else if fs[0].key == k then Some(fs[0].value)
    else
      var r := Lookup(fs[1..], k);
      assert forall i :: 0 <= i < |fs| - 1 ==> fs[1..][i] == fs[i + 1];
      r
  }

  /**
   * `o[k] = v`: an existing member keeps its position and takes the new
   * value; a new member is added at the end.  That is JavaScript's order for
   * every key that is not an array index.
   */
  function Put(fs: seq<Field>, k: string, v: Value): (r: seq<Field>)
    ensures Lookup(r, k) == Some(v)
    ensures forall k' :: k' != k ==> Lookup(r, k') == Lookup(fs, k')
    ensures |r| == if HasKey(fs, k) then |fs| else |fs| + 1
  {
    if fs == [] then [Field(k, v)]
    else if fs[0].key == k then [Field(k, v)] + fs[1..]
    else
      var r := [fs[0]] + Put(fs[1..], k, v);
      assert r[1..] == Put(fs[1..], k, v);
      HasKeyCons(fs, k);
      r
  }

  /** Writes the members of `src` into `dst` one after the other, as a `for…in` loop of assignments does. */
  function PutAll(dst: seq<Field>, src: seq<Field>): seq<Field>
    decreases |src|
  {
    if src == [] then dst else PutAll(Put(dst, src[0].key, src[0].value), src[1..])
  }

  /** After writing `src` into `dst`, a key takes its last value in `src`, or keeps its value in `dst` when `src` does not name it. */
  lemma {:induction false} PutAllLookup(dst: seq<Field>, src: seq<Field>, k: string)
    ensures Lookup(PutAll(dst, src), k) == if HasKey(src, k) then Lookup(Reversed(src), k) else Lookup(dst, k)
    decreases |src|
  {
    if src != [] {
      var d := Put(dst, src[0].key, src[0].value);
      PutAllLookup(d, src[1..], k);
      ReversedCons(src);
      LookupAppend(Reversed(src[1..]), [src[0]], k);
      HasKeyReversed(src[1..], k);
      HasKeyCons(src, k);
    }
  }

  function Reversed(fs: seq<Field>): (r: seq<Field>)
    ensures |r| == |fs|
  {
    if fs == [] then [] else Reversed(fs[1..]) + [fs[0]]
  }

  lemma ReversedCons(fs: seq<Field>)
    requires fs != []
    ensures Reversed(fs) == Reversed(fs[1..]) + [fs[0]]
  {
  }

  lemma {:induction false} HasKeyReversed(fs: seq<Field>, k: string)
    ensures HasKey(Reversed(fs), k) <==> HasKey(fs, k)
  {
    if fs != [] {
      HasKeyReversed(fs[1..], k);
      HasKeyCons(fs, k);
      HasKeyAppend(Reversed(fs[1..]), [fs[0]], k);
      assert [fs[0]][0] == fs[0];
      assert HasKey([fs[0]], k) <==> fs[0].key == k;
    } else {
      assert Reversed(fs) == [];
    }
  }

  lemma HasKeyCons(fs: seq<Field>, k: string)
    requires fs != []
    ensures HasKey(fs, k) <==> fs[0].key == k || HasKey(fs[1..], k)
  {
    if HasKey(fs, k) && fs[0].key != k {
      var i :| 0 <= i < |fs| && fs[i].key == k;
      assert fs[1..][i - 1].key == k;
    }
    if HasKey(fs[1..], k) {
      var i :| 0 <= i < |fs| - 1 && fs[1..][i].key == k;
      assert fs[i + 1].key == k;
    }
  }

  lemma HasKeyAppend(a: seq<Field>, b: seq<Field>, k: string)
    ensures HasKey(a + b, k) <==> HasKey(a, k) || HasKey(b, k)
  {
    if HasKey(a + b, k) {
      var i :| 0 <= i < |a + b| && (a + b)[i].key == k;
      if i >= |a| { assert b[i - |a|].key == k; }
    }
    if HasKey(a, k) {
      var i :| 0 <= i < |a| && a[i].key == k;
      assert (a + b)[i].key == k;
    }
    if HasKey(b, k) {
      var i :| 0 <= i < |b| && b[i].key == k;
      assert (a + b)[|a| + i].key == k;
    }
  }

  /** Looking a key up in a concatenation finds it in the first part when it is there. */
  lemma {:induction false} LookupAppend(a: seq<Field>, b: seq<Field>, k: string)
    ensures Lookup(a + b, k) == if HasKey(a, k) then Lookup(a, k) else Lookup(b, k)
  {
    if a != [] {
      assert (a + b)[1..] == a[1..] + b;
      LookupAppend(a[1..], b, k);
      HasKeyCons(a, k);
    } else {
      assert a + b == b;
    }
  }

  /** Leading `$` test shared by the sanitiser: `s.charAt(0) == "$"`. */
  predicate StartsWithDollar(s: string) {
    |s| > 0 && s[0] == '$'
  }

  /** Decimal text of an id, as string concatenation renders it in messages. */
  function NatText(n: nat): (r: string)
    ensures |r| > 0
  {
    if n < 10 then [DigitChar(n)] else NatText(n / 10) + [DigitChar(n % 10)]
  }

  function DigitChar(d: nat): char
    requires d < 10
  {
    "0123456789"[d]
  }
}
