/**
 * Rendering of field arguments as GraphQL value literals
 * (`_formatArguments` and `_formatArgumentValue`).
 */
module Arguments {
  import opened JsValues

  /**
   * The literal for one argument value: `null`; a string starting with `$`
   * verbatim (a variable reference); any other string between double quotes,
   * unescaped; an array as `[v1, v2]`; an object as `{k1: v1, k2: v2}` in
   * entry order; anything else as `String(value)`.
   */
  function FormatArgumentValue(v: Value): (r: string)
    ensures v.Null? ==> r == "null"
    ensures v.Str? && StartsWithChar(v.s, '$') ==> r == v.s
    ensures v.Str? && !StartsWithChar(v.s, '$') ==> r == "\"" + v.s + "\""
    ensures v.Arr? ==> |r| >= 2 && r[0] == '[' && r[|r| - 1] == ']'
    ensures v.Obj? ==> |r| >= 2 && r[0] == '{' && r[|r| - 1] == '}'
    ensures v.Undefined? || v.Other? ==> r == ToString(v)
    decreases v, 1
  {
    match v
    case Null => "null"
    case Str(s) => if StartsWithChar(s, '$') then s else "\"" + s + "\""
    case Arr(_) => "[" + FormatItems(v, 0) + "]"
    case Obj(_) => "{" + FormatEntries(v, 0) + "}"
    case Undefined => ToString(v)
    case Other(_) => ToString(v)
  }

  /** The elements of array `v` from position `k` on, formatted and joined by ", ". */
  function FormatItems(v: Value, k: nat): string
    requires v.Arr? && k <= |v.items|
    decreases v, 0, |v.items| - k
  {
    if k == |v.items| then ""
    else if k == |v.items| - 1 then FormatArgumentValue(v.items[k])
    else FormatArgumentValue(v.items[k]) + ", " + FormatItems(v, k + 1)
  }

  /** The entries of object `v` from position `k` on, as `key: value` joined by ", ". */
  function FormatEntries(v: Value, k: nat): string
    requires v.Obj? && k <= |v.entries|
    decreases v, 0, |v.entries| - k
  {
    if k == |v.entries| then ""
    else
      var e := v.entries[k];
      var pair := e.0 + ": " + FormatArgumentValue(e.1);
      if k == |v.entries| - 1 then pair else pair + ", " + FormatEntries(v, k + 1)
  }

  /**
   * The text between the parentheses of an argument clause: the
   * `Object.entries` of `args` as `key: value` joined by ", " (the same
   * text as the inside of an object literal with those entries).
   */
  function FormatArguments(args: Value): (r: string)
    requires !IsNullish(args)
    ensures r == "" <==> Entries(args) == []
    ensures Entries(args) != [] ==> var key := Entries(args)[0].0;
                                    |r| >= |key| + 2 && r[..|key| + 2] == key + ": "
  {
    FormatEntries(Obj(Entries(args)), 0)
  }

  // The same literals as the source writes them: map each element, then join.

  /** The literal of every value in `xs`, in order. */
  function Literals(xs: seq<Value>): (r: seq<string>)
    ensures |r| == |xs|
    ensures forall i :: 0 <= i < |xs| ==> r[i] == FormatArgumentValue(xs[i])
  {
    if xs == [] then [] else [FormatArgumentValue(xs[0])] + Literals(xs[1..])
  }

  /** The `key: literal` pair of every entry in `es`, in order. */
  function Pairs(es: seq<(string, Value)>): (r: seq<string>)
    ensures |r| == |es|
    ensures forall i :: 0 <= i < |es| ==> r[i] == es[i].0 + ": " + FormatArgumentValue(es[i].1)
  {
    if es == [] then [] else [es[0].0 + ": " + FormatArgumentValue(es[0].1)] + Pairs(es[1..])
  }

  /** The elements from position `k` on are their literals joined by ", ". */
  lemma {:induction false} FormatItemsJoin(v: Value, k: nat)
    requires v.Arr? && k <= |v.items|
    ensures FormatItems(v, k) == Join(", ", Literals(v.items[k..]))
    decreases |v.items| - k
  {
    var parts := Literals(v.items[k..]);
    if k < |v.items| - 1 {
      FormatItemsJoin(v, k + 1);
      assert parts[1..] == Literals(v.items[k + 1..]);
    } else if k == |v.items| - 1 {
      assert |parts| == 1;
    }
  }

  /** The entries from position `k` on are their `key: literal` pairs joined by ", ". */
  lemma {:induction false} FormatEntriesJoin(v: Value, k: nat)
    requires v.Obj? && k <= |v.entries|
    ensures FormatEntries(v, k) == Join(", ", Pairs(v.entries[k..]))
    decreases |v.entries| - k
  {
    var parts := Pairs(v.entries[k..]);
    if k < |v.entries| - 1 {
      FormatEntriesJoin(v, k + 1);
      assert parts[1..] == Pairs(v.entries[k + 1..]);
    } else if k == |v.entries| - 1 {
      assert |parts| == 1;
    }
  }

  /** An array argument is `[`, its elements' literals joined by ", ", and `]`. */
  lemma ArrayLiteral(v: Value)
    requires v.Arr?
    ensures FormatArgumentValue(v) == "[" + Join(", ", Literals(v.items)) + "]"
  {
    FormatItemsJoin(v, 0);
    assert v.items[0..] == v.items;
  }

  /** An object argument is `{`, its `key: literal` pairs joined by ", ", and `}`. */
  lemma ObjectLiteral(v: Value)
    requires v.Obj?
    ensures FormatArgumentValue(v) == "{" + Join(", ", Pairs(v.entries)) + "}"
  {
    FormatEntriesJoin(v, 0);
    assert v.entries[0..] == v.entries;
  }

  /** An argument clause's text is the `key: literal` pairs of `Object.entries(args)` joined by ", ". */
  lemma ArgumentsJoin(args: Value)
    requires !IsNullish(args)
    ensures FormatArguments(args) == Join(", ", Pairs(Entries(args)))
  {
    var es := Entries(args);
    FormatEntriesJoin(Obj(es), 0);
    assert es[0..] == es;
  }
}
