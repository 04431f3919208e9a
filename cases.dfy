/**
 * Outputs for inputs of index.test.js with the default options: the whole
 * text for four of its tests, and the argument clause or the variable list
 * for five more.
 */
module Cases {
  import opened JsValues
  import opened Compiler
  import opened Api
  import Selections
  import VariableDefinitions
  import opened Arguments

  /** With the default options, a node typed `t` with no name and no variables and its selections. */
  lemma DefaultLayout(node: Value, t: string, body: string)
    requires Get(node, "_type") == Str(t) && t != ""
    requires Get(node, "_name") == Undefined && Get(node, "_variables") == Undefined
    requires IsObject(Get(node, "_fields")) && FieldsText(Get(node, "_fields"), 2, 2) == body
    ensures QueryObjectText(node, 0, 2) == t + " {\n" + body + "}"
  {
    assert Header(node) == t + " {\n";
    QueryObjectUnfold(node, 0, 2, 2, t + " {\n", body);
  }

  /** A root with only `_fields`, once `query` or `mutation` has typed it. */
  lemma FieldsOnlyRoot(fields: Value, t: string)
    ensures var node := WithType(Obj([("_fields", fields)]), t);
            Get(node, "_type") == Str(t) && Get(node, "_fields") == fields
            && Get(node, "_name") == Undefined && Get(node, "_variables") == Undefined
  {
    var root := Obj([("_fields", fields)]);
    assert Get(root, "_fields") == fields;
    assert Get(root, "_name") == Undefined;
    assert Get(root, "_variables") == Undefined;
  }

  /** `query({_fields: {_thoughts: [...]}})`: a key starting with `_` is never a field, so the operation is empty. */
  lemma UnderscoreFieldCase(fields: seq<Value>)
    ensures QueryObjectText(WithType(Obj([("_fields", Obj([("_thoughts", Arr(fields))]))]), "query"), 0, 2)
         == "query {\n}"
  {
    var selection := Obj([("_thoughts", Arr(fields))]);
    var node := WithType(Obj([("_fields", selection)]), "query");
    FieldsOnlyRoot(selection, "query");
    Selections.FieldsObjectStep(selection, 1, 2, 2);
    DefaultLayout(node, "query", "");
    EmptyOperationText();
  }

  /** `query` or `mutation` over a root whose `_fields` is a one-entry array. */
  lemma SingleEntryOperation(entry: Value, t: string)
    requires t != ""
    ensures QueryObjectText(WithType(Obj([("_fields", Arr([entry]))]), t), 0, 2)
         == t + " {\n" + ArrayEntryText(entry, 2, 2) + "}"
  {
    var fields := Arr([entry]);
    FieldsOnlyRoot(fields, t);
    assert FieldsArrayText(fields, 0, 2, 2) == "";
    assert FieldsText(fields, 2, 2) == "" + ArrayEntryText(entry, 2, 2);
    DefaultLayout(WithType(Obj([("_fields", fields)]), t), t, ArrayEntryText(entry, 2, 2));
  }

  /** `{a: "b"}` in an array-style selection (index.test.js:52-58): the bare key `a` on its own line. */
  lemma ScalarFieldCase()
    ensures QueryObjectText(WithType(Obj([("_fields", Arr([Obj([("a", Str("b"))])]))]), "query"), 0, 2)
         == "query {\n  a\n}"
  {
    SingleEntryOperation(Obj([("a", Str("b"))]), "query");
    ScalarEntry();
    ScalarFieldText();
  }

  /** The entry `{a: "b"}` at indent 2 is the leaf line `a`. */
  lemma ScalarEntry()
    ensures ArrayEntryText(Obj([("a", Str("b"))]), 2, 2) == "  a\n"
  {
    var entry := Obj([("a", Str("b"))]);
    assert FirstKeyed(entry) == ("a", Str("b"));
    assert Spaces(2) == "  ";
  }

  /**
   * `createQuery` on the root of index.test.js:11-17: the type defaults to
   * `query` and the list nests one level. The expected text is written line by line.
   */
  lemma DefaultTypeCase()
    ensures var root := Obj([("_fields", Arr([Obj([("thoughts", Arr([Str("id"), Str("name"), Str("thought")]))])]))]);
            QueryObjectText(Defaulted(root), 0, 2)
            == "query {\n" + "  thoughts {\n" + "    id\n" + "    name\n" + "    thought\n" + "  }\n" + "}"
  {
    var entry := Obj([("thoughts", Arr([Str("id"), Str("name"), Str("thought")]))]);
    var root := Obj([("_fields", Arr([entry]))]);
    assert Get(root, "_type") == Undefined;
    SingleEntryOperation(entry, "query");
    ThoughtsEntry(entry);
    QueryOpening();
    AppendLines("query {\n", "  thoughts {\n", "    id\n", "    name\n", "    thought\n", "  }\n");
  }

  /** The entry `{thoughts: ["id", "name", "thought"]}` at indent 2: a field with three leaves. */
  lemma ThoughtsEntry(entry: Value)
    requires entry == Obj([("thoughts", Arr([Str("id"), Str("name"), Str("thought")]))])
    ensures ArrayEntryText(entry, 2, 2) == "  thoughts {\n" + "    id\n" + "    name\n" + "    thought\n" + "  }\n"
  {
    var list := Arr([Str("id"), Str("name"), Str("thought")]);
    assert FirstKeyed(entry) == ("thoughts", list);
    ThreeLeaves(list);
    var block := "    id\n" + "    name\n" + "    thought\n";
    assert ArrayOrObjectText(list, 4, 2) == block;
    ObjectFieldUnfold("thoughts", list, 2, 2);
    assert DisplayName("thoughts", list) == "thoughts" && ArgumentClause(list) == "";
    var opening := Spaces(2) + "thoughts" + "" + " " + "{" + "\n";
    assert Spaces(2) == "  ";
    ThoughtsLines();
    var lines := FieldLines(2, "thoughts", "", block);
    assert lines == opening + block + Spaces(2) + "}" + "\n";
    Append(opening + block, Spaces(2) + "}", "\n");
    Append(opening + block, Spaces(2), "}");
    Append(opening, "    id\n" + "    name\n", "    thought\n");
    Append(opening, "    id\n", "    name\n");
  }

  /** The selection list `["id", "name", "thought"]` at indent 4, one line per leaf. */
  lemma ThreeLeaves(list: Value)
    requires list == Arr([Str("id"), Str("name"), Str("thought")])
    ensures FieldsArrayText(list, 3, 4, 2) == "    id\n" + "    name\n" + "    thought\n"
  {
    assert Spaces(4) == "    ";
    assert FieldsArrayText(list, 0, 4, 2) == "";
    assert FieldsArrayText(list, 1, 4, 2) == "    id\n";
  }

  /** A one-argument clause `b: literal`. */
  lemma OneArgument(x: Value)
    ensures FormatArguments(Obj([("b", x)])) == "b" + ": " + FormatArgumentValue(x)
  {
    var v := Obj([("b", x)]);
    assert Entries(v) == [("b", x)];
  }

  /** The argument values of index.test.js:60-122: `null`, a quoted string, an array, and a BigInt's text. */
  lemma ArgumentValueCases()
    ensures FormatArguments(Obj([("b", Null)])) == "b: null"
    ensures FormatArguments(Obj([("b", Str("str"))])) == "b: \"str\""
    ensures FormatArguments(Obj([("b", Arr([Str("c"), Str("d")]))])) == "b: [\"c\", \"d\"]"
    ensures FormatArguments(Obj([("b", Other("1"))])) == "b: 1"
  {
    OneArgument(Null);
    OneArgument(Str("str"));
    OneArgument(Other("1"));
    var list := Arr([Str("c"), Str("d")]);
    assert FormatItems(list, 1) == "\"" + "d" + "\"";
    assert FormatItems(list, 0) == "\"" + "c" + "\"" + ", " + ("\"" + "d" + "\"");
    OneArgument(list);
    ArgumentTexts();
  }

  /** index.test.js:108-122 as a whole: a field holding only `_arguments` has no braces. */
  lemma BigIntArgumentCase()
    ensures var value := Obj([("_arguments", Obj([("b", Other("1"))]))]);
            QueryObjectText(WithType(Obj([("_fields", Arr([Obj([("a", value)])]))]), "query"), 0, 2)
            == "query {\n" + "  a(b: 1) \n" + "  \n" + "}"
  {
    var entry := Obj([("a", Obj([("_arguments", Obj([("b", Other("1"))]))]))]);
    SingleEntryOperation(entry, "query");
    ArgumentsOnlyEntry(entry);
    QueryOpening();
    Append("query {\n", "  a(b: 1) \n", "  \n");
  }

  /** The entry `{a: {_arguments: {b: 1}}}` at indent 2: the clause, a bare space, and a line of bare indent. */
  lemma ArgumentsOnlyEntry(entry: Value)
    requires entry == Obj([("a", Obj([("_arguments", Obj([("b", Other("1"))]))]))])
    ensures ArrayEntryText(entry, 2, 2) == "  a(b: 1) \n" + "  \n"
  {
    var value := Obj([("_arguments", Obj([("b", Other("1"))]))]);
    assert FirstKeyed(entry) == ("a", value);
    ArgumentsOnlyValue(value);
    EmptyBlockField("a", value, 2, 2);
    BigIntClause(value);
    TwoSpaces();
    ArgumentsOnlyLines();
  }

  /** `{_arguments: {b: 1}}` has no `_type`, `_fields` or `_alias`. */
  lemma ArgumentsOnlyValue(value: Value)
    requires value == Obj([("_arguments", Obj([("b", Other("1"))]))])
    ensures Get(value, "_type") == Undefined && Get(value, "_fields") == Undefined
    ensures DisplayName("a", value) == "a"
  {
    assert Get(value, "_alias") == Undefined;
  }

  /** A field whose value has neither `_type` nor `_fields` has an empty block, so its lines carry no braces. */
  lemma EmptyBlockField(name: string, value: Value, indent: nat, size: nat)
    requires value.Obj? && Get(value, "_type") == Undefined && Get(value, "_fields") == Undefined
    ensures ObjectFieldText(name, value, indent, size)
         == Spaces(indent) + DisplayName(name, value) + ArgumentClause(value) + " " + "" + "\n" + "" + Spaces(indent) + "" + "\n"
  {
    assert ArrayOrObjectText(value, indent + size, size) == "";
    ObjectFieldUnfold(name, value, indent, size);
  }

  lemma BigIntClause(value: Value)
    requires value == Obj([("_arguments", Obj([("b", Other("1"))]))])
    ensures ArgumentClause(value) == "(" + "b: 1" + ")"
  {
    var args := Obj([("b", Other("1"))]);
    assert Get(value, "_arguments") == args;
    OneArgument(Other("1"));
    ArgumentTexts();
  }

  /** The arguments of index.test.js:124-153: variable references verbatim and a nested object. */
  lemma NestedArgumentsCase()
    ensures FormatArguments(Obj([("a", Str("$a")), ("b", Str("$b")), ("c", Obj([("d", Str("$d"))]))]))
         == "a: $a, b: $b, c: {d: $d}"
  {
    var args := Obj([("a", Str("$a")), ("b", Str("$b")), ("c", Obj([("d", Str("$d"))]))]);
    var inner := Obj([("d", Str("$d"))]);
    var d := "{" + ("d" + ": " + "$d") + "}";
    assert FormatArgumentValue(inner) == d;
    assert FormatEntries(args, 2) == "c" + ": " + d;
    assert FormatEntries(args, 1) == "b" + ": " + "$b" + ", " + ("c" + ": " + d);
    assert FormatEntries(args, 0) == "a" + ": " + "$a" + ", " + ("b" + ": " + "$b" + ", " + ("c" + ": " + d));
    NestedArgumentsText();
  }

  /** The variables of index.test.js:155-180: the `null`-typed variable is dropped. */
  lemma VariablesCase(node: Value)
    requires Get(node, "_variables") == Obj([("id", Str("Int")), ("name", Str("String")), ("empty", Null)])
    ensures VariablesPart(node) == "($id: Int, $name: String)"
  {
    var vars := Get(node, "_variables");
    VariablesPartOf(node, vars);
    ThreeVariableList(vars);
    VariablesText();
  }

  /** An object `_variables` is written as its definitions between parentheses. */
  lemma VariablesPartOf(node: Value, vars: Value)
    requires Get(node, "_variables") == vars && IsObject(vars)
    ensures VariablesPart(node) == "(" + VariableList(vars) + ")"
  {
  }

  lemma ThreeVariableList(vars: Value)
    requires vars == Obj([("id", Str("Int")), ("name", Str("String")), ("empty", Null)])
    ensures VariableList(vars) == "$" + "id" + ": " + "Int" + ", " + ("$" + "name" + ": " + "String")
  {
    var e1, e2, e3 := ("id", Str("Int")), ("name", Str("String")), ("empty", Null);
    var es := [e1, e2, e3];
    VariableDefinitions.DeclarationsAppend([e1, e2], [e3]);
    VariableDefinitions.DeclarationsNone([e3]);
    VariableDefinitions.DeclarationsAllStrings([e1, e2]);
    assert es == [e1, e2] + [e3];
    var ds := Declarations(es);
    assert ds == [Definition(e1), Definition(e2)];
  }

  // Proof plumbing, not properties of the compiler: each lemma below equates a
  // concatenation of string literals with another, or regroups a concatenation,
  // so that the lemmas above can state their expected texts line by line.

  lemma EmptyOperationText()
    ensures "query" + " {\n" + "" + "}" == "query {\n}"
  {
  }

  lemma ScalarFieldText()
    ensures "query" + " {\n" + "  a\n" + "}" == "query {\n  a\n}"
  {
  }

  lemma QueryOpening()
    ensures "query" + " {\n" == "query {\n"
  {
  }

  lemma ThoughtsLines()
    ensures "  " + "thoughts" + "" + " " + "{" + "\n" == "  thoughts {\n"
    ensures "  " + "}" + "\n" == "  }\n"
  {
  }

  /** Appending is associative. */
  lemma Append(a: string, b: string, c: string)
    ensures a + (b + c) == a + b + c
  {
  }

  /** Appending five lines after a prefix, grouped either way. */
  lemma AppendLines(p: string, a: string, b: string, c: string, d: string, e: string)
    ensures p + (a + b + c + d + e) == p + a + b + c + d + e
  {
    Append(p, a + b + c + d, e);
    Append(p, a + b + c, d);
    Append(p, a + b, c);
    Append(p, a, b);
  }

  lemma ArgumentTexts()
    ensures "b" + ": " + "null" == "b: null"
    ensures "b" + ": " + ("\"" + "str" + "\"") == "b: \"str\""
    ensures "b" + ": " + ("[" + ("\"" + "c" + "\"" + ", " + ("\"" + "d" + "\"")) + "]") == "b: [\"c\", \"d\"]"
    ensures "b" + ": " + "1" == "b: 1"
  {
  }

  lemma TwoSpaces()
    ensures Spaces(2) == "  "
  {
  }

  lemma ArgumentsOnlyLines()
    ensures "  " + "a" + ("(" + "b: 1" + ")") + " " + "" + "\n" + "" + "  " + "" + "\n" == "  a(b: 1) \n" + "  \n"
  {
  }

  lemma NestedArgumentsText()
    ensures "a" + ": " + "$a" + ", " + ("b" + ": " + "$b" + ", " + ("c" + ": " + ("{" + ("d" + ": " + "$d") + "}")))
         == "a: $a, b: $b, c: {d: $d}"
  {
  }

  lemma VariablesText()
    ensures "(" + ("$" + "id" + ": " + "Int" + ", " + ("$" + "name" + ": " + "String")) + ")" == "($id: Int, $name: String)"
  {
  }

}
