/**
 * Properties of the compiler's text layout: every selection block is a run
 * of complete lines, a node with an operation type closes with a line made
 * of its own indent and `}`, and the indent options change nothing but the
 * spaces of the output.
 */
module Layout {
  import opened JsValues
  import opened Compiler

  // ---------------------------------------------------------------------
  // Selections end on a line break.

  predicate EndsWithNewline(t: string) {
    |t| > 0 && t[|t| - 1] == '\n'
  }

  lemma AppendEndsWithNewline(a: string, b: string)
    requires EndsWithNewline(b)
    ensures EndsWithNewline(a + b)
  {
    assert (a + b)[|a + b| - 1] == b[|b| - 1];
  }

  /** A field with a nested value always ends its closing line with a line break. */
  lemma ObjectFieldEndsWithNewline(name: string, value: Value, indent: nat, size: nat)
    requires IsObject(value)
    ensures EndsWithNewline(ObjectFieldText(name, value, indent, size))
  {
    var block := ArrayOrObjectText(value, indent + size, size);
    var t := FieldLines(indent, DisplayName(name, value), ArgumentClause(value), block);
    AppendEndsWithNewline(t[..|t| - 1], "\n");
    assert t == t[..|t| - 1] + "\n";
  }

  /** Each entry of an array-style selection is empty or ends with a line break. */
  lemma ArrayEntryEndsWithNewline(field: Value, indent: nat, size: nat)
    ensures ArrayEntryText(field, indent, size) == "" || EndsWithNewline(ArrayEntryText(field, indent, size))
  {
    match field
    case Str(s) =>
      AppendEndsWithNewline(Spaces(indent) + s, "\n");
    case Arr(_) =>
      KeyedEntryEndsWithNewline(field, indent, size);
    case Obj(_) =>
      KeyedEntryEndsWithNewline(field, indent, size);
    case _ =>
  }

  lemma KeyedEntryEndsWithNewline(field: Value, indent: nat, size: nat)
    requires IsObject(field)
    ensures EndsWithNewline(KeyedEntryText(field, indent, size))
  {
    var (name, value) := FirstKeyed(field);
    if IsObject(value) {
      ObjectFieldEndsWithNewline(name, value, indent, size);
    } else {
      AppendEndsWithNewline(Spaces(indent) + name, "\n");
    }
  }

  /** The first `n` entries of an array-style selection form whole lines. */
  lemma {:induction false} FieldsArrayEndsWithNewline(fields: Value, n: nat, indent: nat, size: nat)
    requires fields.Arr? && n <= |fields.items|
    ensures FieldsArrayText(fields, n, indent, size) == ""
         || EndsWithNewline(FieldsArrayText(fields, n, indent, size))
  {
    if n > 0 {
      FieldsArrayEndsWithNewline(fields, n - 1, indent, size);
      var entry := ArrayEntryText(fields.items[n - 1], indent, size);
      ArrayEntryEndsWithNewline(fields.items[n - 1], indent, size);
      if entry != "" {
        AppendEndsWithNewline(FieldsArrayText(fields, n - 1, indent, size), entry);
      } else {
        assert FieldsArrayText(fields, n, indent, size) == FieldsArrayText(fields, n - 1, indent, size) + "";
      }
    }
  }

  /** The first `n` entries of a map-style selection form whole lines. */
  lemma {:induction false} FieldsObjectEndsWithNewline(fields: Value, n: nat, indent: nat, size: nat)
    requires fields.Obj? && n <= |fields.entries|
    ensures FieldsObjectText(fields, n, indent, size) == ""
         || EndsWithNewline(FieldsObjectText(fields, n, indent, size))
  {
    if n > 0 {
      FieldsObjectEndsWithNewline(fields, n - 1, indent, size);
      var (name, value) := fields.entries[n - 1];
      var before := FieldsObjectText(fields, n - 1, indent, size);
      if StartsWithChar(name, '_') || !IsObject(value) {
        assert FieldsObjectText(fields, n, indent, size) == before + "";
      } else {
        ObjectFieldEndsWithNewline(name, value, indent, size);
        AppendEndsWithNewline(before, ObjectFieldText(name, value, indent, size));
      }
    }
  }

  /** A selection block, in either style, is empty or ends with a line break. */
  lemma FieldsTextEndsWithNewline(fields: Value, indent: nat, size: nat)
    requires IsObject(fields)
    ensures FieldsText(fields, indent, size) == "" || EndsWithNewline(FieldsText(fields, indent, size))
  {
    if fields.Arr? {
      FieldsArrayEndsWithNewline(fields, |fields.items|, indent, size);
    } else {
      FieldsObjectEndsWithNewline(fields, |fields.entries|, indent, size);
    }
  }

  // ---------------------------------------------------------------------
  // The shape of a node with an operation type.

  /**
   * With a truthy `_type`, the text opens with the operation line and its
   * last line is exactly the node's indent followed by `}`.
   */
  lemma TypedNodeShape(obj: Value, indent: nat, size: nat)
    requires Truthy(Get(obj, "_type"))
    ensures var t := QueryObjectText(obj, indent, size);
            && |Header(obj)| + indent + 1 <= |t|
            && t[..|Header(obj)|] == Header(obj)
            && t[|t| - indent - 1..] == Spaces(indent) + "}"
            && t[|t| - indent - 2] == '\n'
  {
    var h := Header(obj);
    var fields := Get(obj, "_fields");
    var close := Spaces(indent) + "}";
    HeaderEndsWithNewline(obj);
    if IsObject(fields) {
      var body := FieldsText(fields, indent + size, size);
      QueryObjectUnfold(obj, indent, size, indent + size, h, body);
      FieldsTextEndsWithNewline(fields, indent + size, size);
      ClosedBlock(h, body, close);
    } else {
      QueryObjectUnfold(obj, indent, size, indent + size, h, "");
      ClosedBlock(h, "", close);
    }
  }

  lemma HeaderEndsWithNewline(obj: Value)
    ensures EndsWithNewline(Header(obj))
  {
    AppendEndsWithNewline(ToString(Get(obj, "_type")) + NamePart(obj) + VariablesPart(obj), " {\n");
  }

  /** Lines followed by a last line: the last line starts just after a line break. */
  lemma ClosedBlock(h: string, body: string, last: string)
    requires EndsWithNewline(h)
    requires body == "" || EndsWithNewline(body)
    ensures var t := h + body + last;
            && t[..|h|] == h
            && t[|t| - |last|..] == last
            && t[|t| - |last| - 1] == '\n'
  {
    var hb := h + body;
    if body != "" {
      AppendEndsWithNewline(h, body);
    } else {
      assert hb == h;
    }
    assert hb[|hb| - 1] == '\n';
    var t := hb + last;
    assert t[|t| - |last| - 1] == hb[|hb| - 1];
  }

  /**
   * A field whose value is an empty list has an empty block: its opening
   * line ends with a bare space and its closing line is only the indent,
   * so no `{}` pair is written.
   */
  lemma EmptyListField(name: string, indent: nat, size: nat)
    ensures ObjectFieldText(name, Arr([]), indent, size) == Spaces(indent) + name + " \n" + Spaces(indent) + "\n"
  {
    var block := ArrayOrObjectText(Arr([]), indent + size, size);
    assert block == "";
    ObjectFieldUnfold(name, Arr([]), indent, size);
    assert DisplayName(name, Arr([])) == name && ArgumentClause(Arr([])) == "";
  }

  // ---------------------------------------------------------------------
  // Indentation changes only spaces.

  /** The text with every space removed. */
  function Strip(t: string): (r: string)
    ensures |r| <= |t|
  {
    if t == [] then []
    else if t[0] == ' ' then Strip(t[1..])
    else [t[0]] + Strip(t[1..])
  }

  lemma {:induction false} StripAppend(a: string, b: string)
    ensures Strip(a + b) == Strip(a) + Strip(b)
  {
    if a != [] {
      assert (a + b)[1..] == a[1..] + b;
      StripAppend(a[1..], b);
    } else {
      assert a + b == b;
    }
  }

  lemma {:induction false} StripSpaces(n: nat)
    ensures Strip(Spaces(n)) == ""
  {
    if n > 0 {
      StripSpaces(n - 1);
      StripAppend(Spaces(n - 1), " ");
    }
  }

  /** Space-free text is unchanged by a leading run of spaces. */
  lemma StripIndented(n: nat, t: string)
    ensures Strip(Spaces(n) + t) == Strip(t)
  {
    StripAppend(Spaces(n), t);
    StripSpaces(n);
  }

  /** A field's lines at two indents, around blocks that agree without their spaces. */
  lemma FieldLinesStrip(i1: nat, i2: nat, name: string, args: string, b1: string, b2: string)
    requires Strip(b1) == Strip(b2) && (b1 == "" <==> b2 == "")
    ensures Strip(FieldLines(i1, name, args, b1)) == Strip(FieldLines(i2, name, args, b2))
  {
    var open := if b1 != "" then "{" else "";
    var close := if b1 != "" then "}" else "";
    FieldLinesSplit(i1, name, args, b1);
    FieldLinesSplit(i2, name, args, b2);
    OpeningLineStrip(i1, name + args, open);
    OpeningLineStrip(i2, name + args, open);
    ClosingLineStrip(i1, close);
    ClosingLineStrip(i2, close);
  }

  lemma FieldLinesSplit(indent: nat, name: string, args: string, block: string)
    ensures var open := if block != "" then "{" else "";
            var close := if block != "" then "}" else "";
            Strip(FieldLines(indent, name, args, block))
            == Strip(Spaces(indent) + (name + args) + (" " + open + "\n")) + Strip(block) + Strip(Spaces(indent) + (close + "\n"))
  {
    var open := if block != "" then "{" else "";
    var close := if block != "" then "}" else "";
    var line1 := Spaces(indent) + (name + args) + (" " + open + "\n");
    var line2 := Spaces(indent) + (close + "\n");
    assert FieldLines(indent, name, args, block) == line1 + block + line2;
    StripAppend(line1 + block, line2);
    StripAppend(line1, block);
  }

  lemma OpeningLineStrip(indent: nat, head: string, open: string)
    ensures Strip(Spaces(indent) + head + (" " + open + "\n")) == Strip(head) + Strip(open) + "\n"
  {
    StripAppend(Spaces(indent) + head, " " + open + "\n");
    StripIndented(indent, head);
    StripAppend(" " + open, "\n");
    StripAppend(" ", open);
  }

  lemma ClosingLineStrip(indent: nat, close: string)
    ensures Strip(Spaces(indent) + (close + "\n")) == Strip(close) + "\n"
  {
    StripIndented(indent, close + "\n");
    StripAppend(close, "\n");
  }

  /**
   * A node's text at two different indents and indent sizes differs only in
   * its spaces, and is empty at one exactly when it is empty at the other.
   */
  lemma {:induction false} QueryObjectStrip(obj: Value, i1: nat, s1: nat, i2: nat, s2: nat)
    ensures Strip(QueryObjectText(obj, i1, s1)) == Strip(QueryObjectText(obj, i2, s2))
    ensures QueryObjectText(obj, i1, s1) == "" <==> QueryObjectText(obj, i2, s2) == ""
    decreases obj, 1
  {
    var typed := Truthy(Get(obj, "_type"));
    var fields := Get(obj, "_fields");
    var in1 := if typed then i1 + s1 else i1;
    var in2 := if typed then i2 + s2 else i2;
    var h := if typed then Header(obj) else "";
    var b1 := if IsObject(fields) then FieldsText(fields, in1, s1) else "";
    var b2 := if IsObject(fields) then FieldsText(fields, in2, s2) else "";
    if IsObject(fields) {
      FieldsStrip(fields, in1, s1, in2, s2);
    }
    var c1 := if typed then Spaces(i1) + "}" else "";
    var c2 := if typed then Spaces(i2) + "}" else "";
    QueryObjectUnfold(obj, i1, s1, in1, h, b1);
    QueryObjectUnfold(obj, i2, s2, in2, h, b2);
    StripAppend(h + b1, c1);
    StripAppend(h, b1);
    StripAppend(h + b2, c2);
    StripAppend(h, b2);
    if typed {
      StripIndented(i1, "}");
      StripIndented(i2, "}");
    }
  }

  lemma {:induction false} FieldsStrip(fields: Value, i1: nat, s1: nat, i2: nat, s2: nat)
    requires IsObject(fields)
    ensures Strip(FieldsText(fields, i1, s1)) == Strip(FieldsText(fields, i2, s2))
    ensures FieldsText(fields, i1, s1) == "" <==> FieldsText(fields, i2, s2) == ""
    decreases fields, 2
  {
    if fields.Arr? {
      FieldsArrayStrip(fields, |fields.items|, i1, s1, i2, s2);
    } else {
      FieldsObjectStrip(fields, |fields.entries|, i1, s1, i2, s2);
    }
  }

  lemma {:induction false} FieldsArrayStrip(fields: Value, n: nat, i1: nat, s1: nat, i2: nat, s2: nat)
    requires fields.Arr? && n <= |fields.items|
    ensures Strip(FieldsArrayText(fields, n, i1, s1)) == Strip(FieldsArrayText(fields, n, i2, s2))
    ensures FieldsArrayText(fields, n, i1, s1) == "" <==> FieldsArrayText(fields, n, i2, s2) == ""
    decreases fields, 1, n
  {
    if n > 0 {
      var field := fields.items[n - 1];
      FieldsArrayStrip(fields, n - 1, i1, s1, i2, s2);
      ArrayEntryStrip(field, i1, s1, i2, s2);
      StripAppend(FieldsArrayText(fields, n - 1, i1, s1), ArrayEntryText(field, i1, s1));
      StripAppend(FieldsArrayText(fields, n - 1, i2, s2), ArrayEntryText(field, i2, s2));
    }
  }

  lemma {:induction false} ArrayEntryStrip(field: Value, i1: nat, s1: nat, i2: nat, s2: nat)
    ensures Strip(ArrayEntryText(field, i1, s1)) == Strip(ArrayEntryText(field, i2, s2))
    ensures ArrayEntryText(field, i1, s1) == "" <==> ArrayEntryText(field, i2, s2) == ""
    decreases field, 5
  {
    match field
    case Str(s) =>
      LeafStrip(s, i1, i2);
    case Arr(_) =>
      KeyedEntryStrip(field, i1, s1, i2, s2);
    case Obj(_) =>
      KeyedEntryStrip(field, i1, s1, i2, s2);
    case _ =>
  }

  /** A leaf line `name` at two indents. */
  lemma LeafStrip(name: string, i1: nat, i2: nat)
    ensures Strip(Spaces(i1) + name + "\n") == Strip(Spaces(i2) + name + "\n")
  {
    assert Spaces(i1) + name + "\n" == Spaces(i1) + (name + "\n");
    assert Spaces(i2) + name + "\n" == Spaces(i2) + (name + "\n");
    StripIndented(i1, name + "\n");
    StripIndented(i2, name + "\n");
  }

  lemma {:induction false} KeyedEntryStrip(field: Value, i1: nat, s1: nat, i2: nat, s2: nat)
    requires IsObject(field)
    ensures Strip(KeyedEntryText(field, i1, s1)) == Strip(KeyedEntryText(field, i2, s2))
    ensures KeyedEntryText(field, i1, s1) != "" && KeyedEntryText(field, i2, s2) != ""
    decreases field, 4
  {
    var (name, value) := FirstKeyed(field);
    if IsObject(value) {
      ObjectFieldStrip(name, value, i1, s1, i2, s2);
    } else {
      LeafStrip(name, i1, i2);
    }
  }

  lemma {:induction false} FieldsObjectStrip(fields: Value, n: nat, i1: nat, s1: nat, i2: nat, s2: nat)
    requires fields.Obj? && n <= |fields.entries|
    ensures Strip(FieldsObjectText(fields, n, i1, s1)) == Strip(FieldsObjectText(fields, n, i2, s2))
    ensures FieldsObjectText(fields, n, i1, s1) == "" <==> FieldsObjectText(fields, n, i2, s2) == ""
    decreases fields, 1, n
  {
    if n > 0 {
      var (name, value) := fields.entries[n - 1];
      FieldsObjectStrip(fields, n - 1, i1, s1, i2, s2);
      var before1 := FieldsObjectText(fields, n - 1, i1, s1);
      var before2 := FieldsObjectText(fields, n - 1, i2, s2);
      if StartsWithChar(name, '_') || !IsObject(value) {
        assert FieldsObjectText(fields, n, i1, s1) == before1;
        assert FieldsObjectText(fields, n, i2, s2) == before2;
      } else {
        ObjectFieldStrip(name, value, i1, s1, i2, s2);
        StripAppend(before1, ObjectFieldText(name, value, i1, s1));
        StripAppend(before2, ObjectFieldText(name, value, i2, s2));
      }
    }
  }

  lemma {:induction false} ObjectFieldStrip(name: string, value: Value, i1: nat, s1: nat, i2: nat, s2: nat)
    requires IsObject(value)
    ensures Strip(ObjectFieldText(name, value, i1, s1)) == Strip(ObjectFieldText(name, value, i2, s2))
    ensures ObjectFieldText(name, value, i1, s1) != "" && ObjectFieldText(name, value, i2, s2) != ""
    decreases value, 3
  {
    var shown := DisplayName(name, value);
    var args := ArgumentClause(value);
    var b1 := ArrayOrObjectText(value, i1 + s1, s1);
    var b2 := ArrayOrObjectText(value, i2 + s2, s2);
    ArrayOrObjectStrip(value, i1 + s1, s1, i2 + s2, s2);
    ObjectFieldUnfold(name, value, i1, s1);
    ObjectFieldUnfold(name, value, i2, s2);
    FieldLinesStrip(i1, i2, shown, args, b1, b2);
    FieldLinesNonEmpty(i1, shown, args, b1);
    FieldLinesNonEmpty(i2, shown, args, b2);
  }

  lemma FieldLinesNonEmpty(indent: nat, name: string, args: string, block: string)
    ensures FieldLines(indent, name, args, block) != ""
  {
  }

  lemma {:induction false} ArrayOrObjectStrip(value: Value, i1: nat, s1: nat, i2: nat, s2: nat)
    ensures Strip(ArrayOrObjectText(value, i1, s1)) == Strip(ArrayOrObjectText(value, i2, s2))
    ensures ArrayOrObjectText(value, i1, s1) == "" <==> ArrayOrObjectText(value, i2, s2) == ""
    decreases value, 2
  {
    if value.Arr? {
      FieldsArrayStrip(value, |value.items|, i1, s1, i2, s2);
    } else {
      QueryObjectStrip(value, i1, s1, i2, s2);
    }
  }
}
