/**
 * How the two selection styles relate, and what each does with entries it
 * cannot nest: a map-style selection renders exactly like the array-style
 * selection of its kept entries, each wrapped as a one-key object, while a
 * scalar under a key is a leaf line in array style and nothing in map style.
 */
module Selections {
  import opened JsValues
  import opened Compiler

  /** A map-style entry is rendered: its key does not start with `_` and its value is an array or object. */
  predicate Kept(e: (string, Value)) {
    !StartsWithChar(e.0, '_') && IsObject(e.1)
  }

  /** The kept entries, in order, each as the one-key object an array-style selection would hold. */
  function Wrapped(es: seq<(string, Value)>): (r: seq<Value>)
    ensures |r| <= |es|
  {
    if es == [] then []
    else
      var last := es[|es| - 1];
      Wrapped(es[..|es| - 1]) + (if Kept(last) then [Obj([last])] else [])
  }

  /** Rendering a prefix of an array-style selection does not look past the prefix. */
  lemma {:induction false} FieldsArrayPrefix(a: seq<Value>, b: seq<Value>, k: nat, indent: nat, size: nat)
    requires k <= |a|
    ensures FieldsArrayText(Arr(a + b), k, indent, size) == FieldsArrayText(Arr(a), k, indent, size)
  {
    if k > 0 {
      FieldsArrayPrefix(a, b, k - 1, indent, size);
      assert (a + b)[k - 1] == a[k - 1];
    }
  }

  /** Appending an entry to an array-style selection appends its text. */
  lemma FieldsArraySnoc(a: seq<Value>, x: Value, indent: nat, size: nat)
    ensures FieldsArrayText(Arr(a + [x]), |a| + 1, indent, size)
         == FieldsArrayText(Arr(a), |a|, indent, size) + ArrayEntryText(x, indent, size)
  {
    var w := Arr(a + [x]);
    assert w.items[|a|] == x;
    assert FieldsArrayText(w, |a| + 1, indent, size)
        == FieldsArrayText(w, |a|, indent, size) + ArrayEntryText(w.items[|a|], indent, size);
    FieldsArrayPrefix(a, [x], |a|, indent, size);
  }

  /** A one-key object whose value nests renders as that field, in either style. */
  lemma WrappedEntry(name: string, value: Value, indent: nat, size: nat)
    requires IsObject(value)
    ensures ArrayEntryText(Obj([(name, value)]), indent, size) == ObjectFieldText(name, value, indent, size)
  {
    assert FirstKeyed(Obj([(name, value)])) == (name, value);
  }

  /** The array-style selection text of the kept entries of `es`. */
  function WrappedText(es: seq<(string, Value)>, indent: nat, size: nat): string {
    var w := Wrapped(es);
    FieldsArrayText(Arr(w), |w|, indent, size)
  }

  /**
   * The first `n` entries of a map-style selection render exactly as the
   * array-style selection of their kept entries.
   */
  lemma {:induction false} FieldsObjectAsArray(fields: Value, n: nat, indent: nat, size: nat)
    requires fields.Obj? && n <= |fields.entries|
    ensures FieldsObjectText(fields, n, indent, size) == WrappedText(fields.entries[..n], indent, size)
  {
    var es := fields.entries;
    if n == 0 {
      assert es[..0] == [];
    } else {
      var last := es[n - 1];
      var w0 := Wrapped(es[..n - 1]);
      var w := Wrapped(es[..n]);
      var before := FieldsObjectText(fields, n - 1, indent, size);
      FieldsObjectAsArray(fields, n - 1, indent, size);
      assert before == WrappedText(es[..n - 1], indent, size);
      FieldsObjectStep(fields, n, indent, size);
      WrappedStep(es, n);
      if Kept(last) {
        KeptEntryStep(w0, w, last, indent, size);
        assert FieldsObjectText(fields, n, indent, size) == before + ObjectFieldText(last.0, last.1, indent, size);
      } else {
        assert w == w0;
        assert FieldsObjectText(fields, n, indent, size) == before;
      }
    }
  }

  /** Appending a kept entry, wrapped, to an array-style selection appends its field. */
  lemma KeptEntryStep(w0: seq<Value>, w: seq<Value>, e: (string, Value), indent: nat, size: nat)
    requires Kept(e) && w == w0 + [Obj([e])]
    ensures FieldsArrayText(Arr(w), |w|, indent, size)
         == FieldsArrayText(Arr(w0), |w0|, indent, size) + ObjectFieldText(e.0, e.1, indent, size)
  {
    FieldsArraySnoc(w0, Obj([e]), indent, size);
    WrappedEntry(e.0, e.1, indent, size);
  }

  /** One step of a map-style selection: the last entry adds its field when it is kept. */
  lemma FieldsObjectStep(fields: Value, n: nat, indent: nat, size: nat)
    requires fields.Obj? && 0 < n <= |fields.entries|
    ensures var e := fields.entries[n - 1];
            && (Kept(e) ==> FieldsObjectText(fields, n, indent, size)
                            == FieldsObjectText(fields, n - 1, indent, size) + ObjectFieldText(e.0, e.1, indent, size))
            && (!Kept(e) ==> FieldsObjectText(fields, n, indent, size) == FieldsObjectText(fields, n - 1, indent, size))
  {
  }

  /** Extending the entries by one extends the kept list by that entry when it is kept. */
  lemma WrappedStep(es: seq<(string, Value)>, n: nat)
    requires 0 < n <= |es|
    ensures Wrapped(es[..n]) == Wrapped(es[..n - 1]) + (if Kept(es[n - 1]) then [Obj([es[n - 1]])] else [])
  {
    var p := es[..n];
    assert p[..|p| - 1] == es[..n - 1];
    assert p[|p| - 1] == es[n - 1];
  }

  /** A whole map-style selection is the array-style selection of its kept entries. */
  lemma MapStyleIsArrayStyle(fields: Value, indent: nat, size: nat)
    requires fields.Obj?
    ensures var w := Wrapped(fields.entries);
            FieldsText(fields, indent, size) == FieldsText(Arr(w), indent, size)
  {
    FieldsObjectAsArray(fields, |fields.entries|, indent, size);
    assert fields.entries[..|fields.entries|] == fields.entries;
  }

  /**
   * A key whose value is a scalar: in an array-style selection it is a leaf
   * line with the key, in a map-style selection it gives nothing.
   */
  lemma ScalarUnderKey(name: string, x: Value, indent: nat, size: nat)
    requires !IsObject(x)
    ensures FieldsText(Arr([Obj([(name, x)])]), indent, size) == Spaces(indent) + name + "\n"
    ensures FieldsText(Obj([(name, x)]), indent, size) == ""
  {
    var entry := Obj([(name, x)]);
    assert FirstKeyed(entry) == (name, x);
    assert FieldsArrayText(Arr([entry]), 0, indent, size) == "";
    assert FieldsArrayText(Arr([entry]), 1, indent, size) == "" + ArrayEntryText(entry, indent, size);
    assert FieldsObjectText(entry, 1, indent, size) == FieldsObjectText(entry, 0, indent, size) + "";
  }

  /** An object with no keys in an array-style selection prints its missing first key as `undefined`. */
  lemma EmptyObjectEntry(indent: nat, size: nat)
    ensures FieldsText(Arr([Obj([])]), indent, size) == Spaces(indent) + "undefined\n"
  {
  }
}
