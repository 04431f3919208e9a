/**
 * The JavaScript values that a query description is built from, and the few
 * language operations the compiler applies to them: truthiness, property
 * read and write, `Object.entries`, `Object.keys(x)[0]` and `String(x)`.
 */
module JsValues {

  datatype Option<+T> = None | Some(value: T)

  /**
   * A JavaScript value as the compiler sees it.
   *  - `Obj` is a plain object; its entries are its own enumerable
   *    properties in the order `Object.entries` lists them (keys distinct).
   *  - `Other` is any remaining primitive (number, boolean, BigInt), carried
   *    as the text `String(x)` gives for it.
   */
  datatype Value =
    | Undefined
    | Null
    | Str(s: string)
    | Arr(items: seq<Value>)
    | Obj(entries: seq<(string, Value)>)
    | Other(text: string)

  /** `null` or `undefined`: the values whose properties cannot be read. */
  predicate IsNullish(v: Value) {
    v.Undefined? || v.Null?
  }

  /**
   * JavaScript truthiness. Of the primitives `Other` stands for, exactly
   * `false`, `0`, `-0`, `0n` and `NaN` are falsy; `String` renders them as
   * "false", "0" or "NaN", and no truthy primitive renders as one of those.
   */
  predicate Truthy(v: Value)
    ensures Truthy(v) ==> !IsNullish(v)
  {
    match v
    case Undefined => false
    case Null => false
    case Str(s) => s != ""
    case Arr(_) => true
    case Obj(_) => true
    case Other(t) => t != "false" && t != "0" && t != "NaN"
  }

  /** `value !== null && typeof value === "object"`: an array or an object. */
  predicate IsObject(v: Value) {
    v.Arr? || v.Obj?
  }

  predicate StartsWithChar(s: string, c: char) {
    |s| > 0 && s[0] == c
  }

  /** `" ".repeat(n)` */
  function Spaces(n: nat): (r: string)
    ensures |r| == n
    ensures forall i :: 0 <= i < n ==> r[i] == ' '
  {
    if n == 0 then "" else Spaces(n - 1) + " "
  }

  /** `parts.join(sep)` */
  function Join(sep: string, parts: seq<string>): string {
    if |parts| == 0 then ""
    else if |parts| == 1 then parts[0]
    else parts[0] + sep + Join(sep, parts[1..])
  }

  /** The decimal text of an array or string index, as `Object.entries` keys it. */
  function Decimal(n: nat): (r: string)
    ensures |r| > 0
    ensures forall i :: 0 <= i < |r| ==> '0' <= r[i] <= '9'
  {
    if n < 10 then ["0123456789"[n]] else Decimal(n / 10) + ["0123456789"[n % 10]]
  }

  /** Position of the first entry with key `k`, or `|es|` when there is none. */
  function Find(es: seq<(string, Value)>, k: string): (r: nat)
    ensures r <= |es|
  {
    if es == [] then 0 else if es[0].0 == k then 0 else 1 + Find(es[1..], k)
  }

  /** Find gives the first entry with key `k`, or `|es|` when no entry has it. */
  lemma {:induction false} FindFirst(es: seq<(string, Value)>, k: string)
    ensures Find(es, k) < |es| ==> es[Find(es, k)].0 == k
    ensures forall j :: 0 <= j < Find(es, k) ==> es[j].0 != k
  {
    if es != [] && es[0].0 != k {
      FindFirst(es[1..], k);
      forall j | 0 <= j < Find(es, k)
        ensures es[j].0 != k
      {
        if j > 0 {
          assert es[j] == es[1..][j - 1];
        }
      }
    }
  }

  /**
   * The property read `v[k]` for the `_`-prefixed keys the compiler reads:
   * an object's own entry, and `undefined` for a missing key or a value
   * that is not a plain object (arrays and primitives have no such key).
   */
  function Get(v: Value, k: string): Value {
    if v.Obj? && Find(v.entries, k) < |v.entries| then v.entries[Find(v.entries, k)].1 else Undefined
  }

  /**
   * The assignment `v[k] = x` on a plain object: an existing key keeps its
   * position and takes the new value; a new key is appended last.
   */
  function SetField(v: Value, k: string, x: Value): (r: Value)
    requires v.Obj?
    ensures r.Obj?
    ensures Find(v.entries, k) < |v.entries| ==> |r.entries| == |v.entries|
    ensures Find(v.entries, k) == |v.entries| ==> r.entries == v.entries + [(k, x)]
  {
    var i := Find(v.entries, k);
    if i < |v.entries| then Obj(v.entries[i := (k, x)]) else Obj(v.entries + [(k, x)])
  }

  /** The first entry with key `k` is at `r` exactly when `r` meets Find's description. */
  lemma {:induction false} FindIs(es: seq<(string, Value)>, k: string, r: nat)
    requires r <= |es|
    requires r < |es| ==> es[r].0 == k
    requires forall j :: 0 <= j < r ==> es[j].0 != k
    ensures Find(es, k) == r
  {
    if r > 0 {
      assert es[0].0 != k;
      forall j | 0 <= j < r - 1
        ensures es[1..][j].0 != k
      {
        assert es[1..][j] == es[j + 1];
      }
      FindIs(es[1..], k, r - 1);
    }
  }

  /** After `v[k] = x`, reading `k` gives `x` and every other key reads as before. */
  lemma SetFieldGet(v: Value, k: string, x: Value)
    requires v.Obj?
    ensures Get(SetField(v, k, x), k) == x
    ensures forall k' :: k' != k ==> Get(SetField(v, k, x), k') == Get(v, k')
  {
    var es := v.entries;
    var i := Find(es, k);
    var es' := SetField(v, k, x).entries;
    FindFirst(es, k);
    assert forall j :: 0 <= j < |es'| ==> es'[j].0 == (if j < |es| then es[j].0 else k);
    FindIs(es', k, i);
    forall k' | k' != k
      ensures Get(SetField(v, k, x), k') == Get(v, k')
    {
      FindFirst(es, k');
      var i' := Find(es, k');
      FindIs(es', k', if i' < |es| then i' else |es'|);
    }
  }

  /** Assigning the same key twice leaves only the second value. */
  lemma SetFieldTwice(v: Value, k: string, x: Value, y: Value)
    requires v.Obj?
    ensures SetField(SetField(v, k, x), k, y) == SetField(v, k, y)
  {
    var es := v.entries;
    var i := Find(es, k);
    FindFirst(es, k);
    if i < |es| {
      var es' := es[i := (k, x)];
      forall j | 0 <= j < i
        ensures es'[j].0 != k
      {
        assert es'[j] == es[j];
      }
      FindIs(es', k, i);
      assert es'[i := (k, y)] == es[i := (k, y)];
    } else {
      var es' := es + [(k, x)];
      forall j | 0 <= j < |es|
        ensures es'[j].0 != k
      {
        assert es'[j] == es[j];
      }
      FindIs(es', k, |es|);
      assert es'[|es| := (k, y)] == es + [(k, y)];
    }
  }

  /** Assigning a key the value it already has changes nothing. */
  lemma SetFieldSame(v: Value, k: string)
    requires v.Obj? && Find(v.entries, k) < |v.entries|
    ensures SetField(v, k, Get(v, k)) == v
  {
    var i := Find(v.entries, k);
    FindFirst(v.entries, k);
    assert v.entries[i := (k, Get(v, k))] == v.entries;
  }

  /**
   * `Object.entries(v)` for a value that is neither `null` nor `undefined`:
   * an object's entries, an array's or a string's elements keyed by their
   * decimal index, and nothing for the other primitives.
   */
  function Entries(v: Value): (r: seq<(string, Value)>)
    requires !IsNullish(v)
    ensures v.Obj? ==> r == v.entries
    ensures v.Arr? ==> |r| == |v.items| && forall i :: 0 <= i < |r| ==> r[i] == (Decimal(i), v.items[i])
    ensures v.Str? ==> |r| == |v.s| && forall i :: 0 <= i < |r| ==> r[i] == (Decimal(i), Str([v.s[i]]))
    ensures v.Other? ==> r == []
  {
    match v
    case Obj(es) => es
    case Arr(items) => seq(|items|, i requires 0 <= i < |items| => (Decimal(i), items[i]))
    case Str(s) => seq(|s|, i requires 0 <= i < |s| => (Decimal(i), Str([s[i]])))
    case Other(_) => []
  }

  /**
   * The pair `[Object.keys(field)[0], field[Object.keys(field)[0]]]` for an
   * array or object entry of an array-style selection. With no keys at all
   * the key is `undefined`, which prints as "undefined", and the value read
   * under it is `undefined`.
   */
  function FirstKeyed(field: Value): (r: (string, Value))
    requires IsObject(field)
    ensures field.Obj? && field.entries != [] ==> r == field.entries[0]
    ensures field.Arr? && field.items != [] ==> r == ("0", field.items[0])
    ensures (field.Obj? && field.entries == []) || (field.Arr? && field.items == []) ==> r == ("undefined", Undefined)
  {
    match field
    case Obj(es) => if es == [] then ("undefined", Undefined) else es[0]
    case Arr(items) => if items == [] then ("undefined", Undefined) else ("0", items[0])
  }

  /**
   * `String(v)`, which is also what a template literal inserts: arrays join
   * their elements with "," (a `null` or `undefined` element prints as
   * nothing) and a plain object prints as "[object Object]".
   */
  function ToString(v: Value): string
    decreases v, 1
  {
    match v
    case Undefined => "undefined"
    case Null => "null"
    case Str(s) => s
    case Other(t) => t
    case Obj(_) => "[object Object]"
    case Arr(items) => ElementsToString(v, 0)
  }

  /** `v.slice(k).join(",")` for an array `v`, elements rendered as `Array.prototype.join` does. */
  function ElementsToString(v: Value, k: nat): string
    requires v.Arr? && k <= |v.items|
    decreases v, 0, |v.items| - k
  {
    if k == |v.items| then ""
    else
      var e := v.items[k];
      var t := if IsNullish(e) then "" else ToString(e);
      if k == |v.items| - 1 then t else t + "," + ElementsToString(v, k + 1)
  }
}
