/**
 * The tree-to-text compiler: operation header, selection sets in array and
 * map style, field lines with aliases, argument clauses and nested blocks.
 *
 * The functions give the text each part of the compiler produces (a
 * reference rendering); the methods build that text the way the compiler
 * does, appending to a result string, and are proved to produce it.
 * Indents are counts of spaces.
 */
module Compiler {
  import opened JsValues
  import opened Arguments

  /** The definition `$name: Type` of a variable whose type is a string. */
  function Definition(e: (string, Value)): string
    requires e.1.Str?
  {
    "$" + e.0 + ": " + e.1.s
  }

  /**
   * The definitions of the variables whose type is a string, in entry order;
   * the others map to "" and are filtered out.
   */
  function Declarations(es: seq<(string, Value)>): seq<string> {
    if es == [] then []
    else (if es[0].1.Str? then [Definition(es[0])] else []) + Declarations(es[1..])
  }

  /** The text between the parentheses of the variable definitions. */
  function VariableList(vars: Value): string
    requires IsObject(vars)
  {
    Join(", ", Declarations(Entries(vars)))
  }

  /** The operation line: type, optional name, optional variable definitions, ` {` and a newline. */
  function Header(obj: Value): string {
    ToString(Get(obj, "_type")) + NamePart(obj) + VariablesPart(obj) + " {\n"
  }

  /** ` name` when `_name` is truthy. */
  function NamePart(obj: Value): string {
    var name := Get(obj, "_name");
    if Truthy(name) then " " + ToString(name) else ""
  }

  /** `(...)` whenever `_variables` is an array or object, even when no entry is a string. */
  function VariablesPart(obj: Value): string {
    var vars := Get(obj, "_variables");
    if IsObject(vars) then "(" + VariableList(vars) + ")" else ""
  }

  /**
   * The text for a node at indent `indent`: with a truthy `_type`, the header,
   * the selections one unit deeper and a closing brace at `indent`; without
   * one, only the selections, at `indent`.
   */
  function QueryObjectText(obj: Value, indent: nat, size: nat): string
    decreases obj, 1
  {
    var typed := Truthy(Get(obj, "_type"));
    var inner := if typed then indent + size else indent;
    var fields := Get(obj, "_fields");
    (if typed then Header(obj) else "")
    + (if IsObject(fields) then FieldsText(fields, inner, size) else "")
    + (if typed then Spaces(indent) + "}" else "")
  }

  /** A `_fields` value: an array of entries or an object of named fields. */
  function FieldsText(fields: Value, indent: nat, size: nat): string
    requires IsObject(fields)
    decreases fields, 2
  {
    if fields.Arr? then FieldsArrayText(fields, |fields.items|, indent, size)
    else FieldsObjectText(fields, |fields.entries|, indent, size)
  }

  /** The text for the first `n` entries of an array-style selection. */
  function FieldsArrayText(fields: Value, n: nat, indent: nat, size: nat): string
    requires fields.Arr? && n <= |fields.items|
    decreases fields, 1, n
  {
    if n == 0 then ""
    else FieldsArrayText(fields, n - 1, indent, size) + ArrayEntryText(fields.items[n - 1], indent, size)
  }

  /**
   * One entry of an array-style selection: a string is a leaf line; an array
   * or object stands for its first key, which becomes a field when its value
   * is an array or object and a leaf line otherwise; other entries give nothing.
   */
  function ArrayEntryText(field: Value, indent: nat, size: nat): string
    decreases field, 5
  {
    match field
    case Str(s) => Spaces(indent) + s + "\n"
    case Arr(_) => KeyedEntryText(field, indent, size)
    case Obj(_) => KeyedEntryText(field, indent, size)
    case _ => ""
  }

  function KeyedEntryText(field: Value, indent: nat, size: nat): string
    requires IsObject(field)
    decreases field, 4
  {
    var (name, value) := FirstKeyed(field);
    if IsObject(value) then ObjectFieldText(name, value, indent, size)
    else Spaces(indent) + name + "\n"
  }

  /**
   * The text for the first `n` entries of a map-style selection: keys that
   * start with `_` and values that are not arrays or objects give nothing.
   */
  function FieldsObjectText(fields: Value, n: nat, indent: nat, size: nat): string
    requires fields.Obj? && n <= |fields.entries|
    decreases fields, 1, n
  {
    if n == 0 then ""
    else
      var (name, value) := fields.entries[n - 1];
      FieldsObjectText(fields, n - 1, indent, size)
      + (if StartsWithChar(name, '_') || !IsObject(value) then "" else ObjectFieldText(name, value, indent, size))
  }

  /** The argument clause of a field: `(k: v, ...)` when `_arguments` is truthy, else nothing. */
  function ArgumentClause(value: Value): string {
    var args := Get(value, "_arguments");
    if Truthy(args) then "(" + FormatArguments(args) + ")" else ""
  }

  /** The name a field is written under: `alias: name` when `_alias` is truthy. */
  function DisplayName(name: string, value: Value): string {
    var alias := Get(value, "_alias");
    if Truthy(alias) then ToString(alias) + ": " + name else name
  }

  /**
   * A field with a nested value: its opening line, its block one unit deeper
   * and its closing line; the braces appear only around a non-empty block.
   */
  function ObjectFieldText(name: string, value: Value, indent: nat, size: nat): string
    requires IsObject(value)
    decreases value, 3
  {
    FieldLines(indent, DisplayName(name, value), ArgumentClause(value), ArrayOrObjectText(value, indent + size, size))
  }

  /** The opening line `name args {`, the block and the closing line `}`; with an empty block, no braces. */
  function FieldLines(indent: nat, name: string, args: string, block: string): string {
    Spaces(indent) + name + args + " " + (if block != "" then "{" else "") + "\n"
    + block
    + Spaces(indent) + (if block != "" then "}" else "") + "\n"
  }

  /** A field's block: an array value is a selection list, an object a full node. */
  function ArrayOrObjectText(value: Value, indent: nat, size: nat): string
    decreases value, 2
  {
    if value.Arr? then FieldsArrayText(value, |value.items|, indent, size)
    else QueryObjectText(value, indent, size)
  }

  // The compiler itself, appending to a result string as it goes.

  method ParseQueryObject(obj: Value, initialIndent: nat, indentSize: nat) returns (result: string)
    ensures result == QueryObjectText(obj, initialIndent, indentSize)
    decreases obj, 1
  {
    var indent := initialIndent;
    result := "";
    var t := Get(obj, "_type");
    ghost var head := "";
    if Truthy(t) {
      var line := OperationLine(obj);
      result := result + line;
      head := line;
      indent := indent + indentSize;
    }
    assert result == head;
    var fields := Get(obj, "_fields");
    ghost var body := if IsObject(fields) then FieldsText(fields, indent, indentSize) else "";
    if Truthy(fields) {
      var part := ParseFields(fields, indent, indentSize);
      result := result + part;
    }
    assert result == head + body;
    if Truthy(t) {
      result := result + Spaces(indent - indentSize) + "}";
    }
    QueryObjectUnfold(obj, initialIndent, indentSize, indent, head, body);
  }

  lemma QueryObjectUnfold(obj: Value, indent: nat, size: nat, inner: nat, head: string, body: string)
    requires var typed := Truthy(Get(obj, "_type"));
             var fields := Get(obj, "_fields");
             && inner == (if typed then indent + size else indent)
             && head == (if typed then Header(obj) else "")
             && body == (if IsObject(fields) then FieldsText(fields, inner, size) else "")
    ensures QueryObjectText(obj, indent, size) == head + body + (if Truthy(Get(obj, "_type")) then Spaces(indent) + "}" else "")
  {
  }

  /** The selections of a node whose `_fields` is truthy: array style, map style, or nothing. */
  method ParseFields(fields: Value, indent: nat, indentSize: nat) returns (result: string)
    requires Truthy(fields)
    ensures result == if IsObject(fields) then FieldsText(fields, indent, indentSize) else ""
    decreases fields, 2
  {
    if fields.Arr? {
      result := ParseFieldsArray(fields, indent, indentSize);
    } else if fields.Obj? {
      result := ParseFieldsObject(fields, indent, indentSize);
    } else {
      result := "";
    }
  }

  /** The operation line of a node with a truthy `_type`, appended piece by piece. */
  method OperationLine(obj: Value) returns (result: string)
    requires Truthy(Get(obj, "_type"))
    ensures result == Header(obj)
  {
    result := ToString(Get(obj, "_type"));
    var name := Get(obj, "_name");
    if Truthy(name) {
      result := result + (" " + ToString(name));
    }
    assert result == ToString(Get(obj, "_type")) + NamePart(obj);
    var vars := Get(obj, "_variables");
    if IsObject(vars) {
      result := result + ("(" + VariableList(vars) + ")");
    }
    assert result == ToString(Get(obj, "_type")) + NamePart(obj) + VariablesPart(obj);
    result := result + " {\n";
  }

  method ParseFieldsArray(fields: Value, indent: nat, indentSize: nat) returns (result: string)
    requires fields.Arr?
    ensures result == FieldsArrayText(fields, |fields.items|, indent, indentSize)
    decreases fields, 1
  {
    result := "";
    for i := 0 to |fields.items|
      invariant result == FieldsArrayText(fields, i, indent, indentSize)
    {
      var field := fields.items[i];
      ghost var before := result;
      if field.Str? {
        result := result + Spaces(indent) + field.s + "\n";
      } else if IsObject(field) {
        var (fieldName, fieldValue) := FirstKeyed(field);
        if IsObject(fieldValue) {
          var part := ParseObjectField(fieldName, fieldValue, indent, indentSize);
          result := result + part;
        } else {
          result := result + Spaces(indent) + fieldName + "\n";
        }
        assert result == before + KeyedEntryText(field, indent, indentSize);
      }
      assert result == before + ArrayEntryText(field, indent, indentSize);
    }
  }

  method ParseFieldsObject(fields: Value, indent: nat, indentSize: nat) returns (result: string)
    requires fields.Obj?
    ensures result == FieldsObjectText(fields, |fields.entries|, indent, indentSize)
    decreases fields, 1
  {
    result := "";
    for i := 0 to |fields.entries|
      invariant result == FieldsObjectText(fields, i, indent, indentSize)
    {
      var (fieldName, fieldValue) := fields.entries[i];
      if StartsWithChar(fieldName, '_') {
        continue;
      }
      if IsObject(fieldValue) {
        var part := ParseObjectField(fieldName, fieldValue, indent, indentSize);
        result := result + part;
      }
    }
  }

  method ParseObjectField(fieldName: string, fieldValue: Value, indent: nat, indentSize: nat)
    returns (result: string)
    requires IsObject(fieldValue)
    ensures result == ObjectFieldText(fieldName, fieldValue, indent, indentSize)
    decreases fieldValue, 3
  {
    result := "";
    assert result + Spaces(indent) == Spaces(indent);
    var args := Get(fieldValue, "_arguments");
    var fieldArgs := if Truthy(args) then "(" + FormatArguments(args) + ")" else "";
    var block := ParseArrayOrObject(fieldValue, indent + indentSize, indentSize);
    var alias := Get(fieldValue, "_alias");
    var field := if Truthy(alias) then ToString(alias) + ": " + fieldName else fieldName;
    assert fieldArgs == ArgumentClause(fieldValue) && field == DisplayName(fieldName, fieldValue);
    result := result + Spaces(indent) + field + fieldArgs + " " + (if block != "" then "{" else "") + "\n";
    result := result + block;
    result := result + Spaces(indent) + (if block != "" then "}" else "") + "\n";
    assert result == FieldLines(indent, field, fieldArgs, block);
    ObjectFieldUnfold(fieldName, fieldValue, indent, indentSize);
  }

  lemma ObjectFieldUnfold(name: string, value: Value, indent: nat, size: nat)
    requires IsObject(value)
    ensures ObjectFieldText(name, value, indent, size)
         == FieldLines(indent, DisplayName(name, value), ArgumentClause(value), ArrayOrObjectText(value, indent + size, size))
  {
  }

  method ParseArrayOrObject(value: Value, indent: nat, indentSize: nat) returns (result: string)
    ensures result == ArrayOrObjectText(value, indent, indentSize)
    decreases value, 2
  {
    if value.Arr? {
      result := ParseFieldsArray(value, indent, indentSize);
    } else {
      result := ParseQueryObject(value, indent, indentSize);
    }
  }
}
