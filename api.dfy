/**
 * The library's entry points: `compile` with its indent options, `query`
 * and `mutation`, which force the operation type, and `createQuery`, which
 * checks the root, defaults the operation type to `query` and hands the
 * variables back. The write of `_type` into the caller's object is modelled
 * as returning the updated node.
 */
module Api {
  import opened JsValues
  import opened Compiler
  import Layout

  /** The options object; an absent option takes its default. */
  datatype Options = Options(indentSize: Option<nat>, initialIndent: Option<nat>)

  const NoOptions := Options(None, None)

  /** `indentSize`, 2 by default. */
  function IndentSize(options: Options): nat {
    match options.indentSize
    case None => 2
    case Some(n) => n
  }

  /** `initialIndent`, 0 by default. */
  function InitialIndent(options: Options): nat {
    match options.initialIndent
    case None => 0
    case Some(n) => n
  }

  datatype Error =
    | TypeError            // a property of `null` or `undefined` was read
    | MissingTypeAndFields // "root object must have _type or _fields property"

  datatype Result<T> = Success(value: T) | Failure(error: Error)

  /** What `createQuery` returns, with the root as updated in place. */
  datatype Created = Created(query: string, variables: Value, node: Value)

  /** The root after `_type` is set to the operation type `t`. */
  function WithType(root: Value, t: string): (r: Value)
    requires root.Obj?
    ensures r.Obj? && Get(r, "_type") == Str(t)
    ensures forall k :: k != "_type" ==> Get(r, k) == Get(root, k)
  {
    SetFieldGet(root, "_type", Str(t));
    SetField(root, "_type", Str(t))
  }

  /** The root after `createQuery` defaults its operation type. */
  function Defaulted(root: Value): (r: Value)
    requires root.Obj?
    ensures r.Obj? && Truthy(Get(r, "_type"))
    ensures Truthy(Get(root, "_type")) ==> r == root
    ensures !Truthy(Get(root, "_type")) ==> Get(r, "_type") == Str("query")
    ensures forall k :: k != "_type" ==> Get(r, k) == Get(root, k)
  {
    if Truthy(Get(root, "_type")) then root else WithType(root, "query")
  }

  /** `compile(obj, options)`: the node's text at the chosen indents. */
  method Compile(obj: Value, options: Options) returns (text: string)
    requires !IsNullish(obj)
    ensures text == QueryObjectText(obj, InitialIndent(options), IndentSize(options))
  {
    text := ParseQueryObject(obj, InitialIndent(options), IndentSize(options));
  }

  /**
   * `query(root, options)`: `_type` becomes "query" whatever it was, and the
   * text is an operation that opens with `query` and closes with a line
   * holding the initial indent and `}`.
   */
  method Query(root: Value, options: Options) returns (text: string, node: Value)
    requires root.Obj?
    ensures node == WithType(root, "query")
    ensures text == QueryObjectText(node, InitialIndent(options), IndentSize(options))
    ensures |text| >= 5 && text[..5] == "query"
    ensures EndsWithClosingLine(text, InitialIndent(options))
  {
    node := WithType(root, "query");
    text := Compile(node, options);
    OperationShape(node, "query", InitialIndent(options), IndentSize(options));
  }

  /** `mutation(root, options)`: as `query`, with the operation type "mutation". */
  method Mutation(root: Value, options: Options) returns (text: string, node: Value)
    requires root.Obj?
    ensures node == WithType(root, "mutation")
    ensures text == QueryObjectText(node, InitialIndent(options), IndentSize(options))
    ensures |text| >= 8 && text[..8] == "mutation"
    ensures EndsWithClosingLine(text, InitialIndent(options))
  {
    node := WithType(root, "mutation");
    text := Compile(node, options);
    OperationShape(node, "mutation", InitialIndent(options), IndentSize(options));
  }

  /**
   * `createQuery(root, variables)`: fails exactly when the root cannot be
   * read (a `TypeError`) or has neither a truthy `_type` nor a truthy
   * `_fields`; otherwise it keeps a truthy `_type`, sets a falsy one to
   * "query", compiles with the default options and returns the variables as
   * given (`{}` when omitted).
   */
  method CreateQuery(root: Value, variables: Value) returns (r: Result<Created>)
    ensures IsNullish(root) <==> r == Failure(TypeError)
    ensures r == Failure(MissingTypeAndFields)
        <==> !IsNullish(root) && !Truthy(Get(root, "_type")) && !Truthy(Get(root, "_fields"))
    ensures r.Success? ==> root.Obj? && r.value.node == Defaulted(root)
    ensures r.Success? ==> r.value.query == QueryObjectText(r.value.node, 0, 2)
    ensures r.Success? ==> r.value.variables == if variables.Undefined? then Obj([]) else variables
  {
    if IsNullish(root) {
      return Failure(TypeError);
    }
    if !Truthy(Get(root, "_type")) && !Truthy(Get(root, "_fields")) {
      return Failure(MissingTypeAndFields);
    }
    var node := root;
    if !Truthy(Get(node, "_type")) {
      node := WithType(node, "query");
    }
    var text := Compile(node, NoOptions);
    var vars := if variables.Undefined? then Obj([]) else variables;
    r := Success(Created(text, vars, node));
  }

  /** The last line of `t` is `indent` spaces followed by `}`. */
  predicate EndsWithClosingLine(t: string, indent: nat) {
    |t| >= indent + 2 && t[|t| - indent - 1..] == Spaces(indent) + "}" && t[|t| - indent - 2] == '\n'
  }

  /** A node whose `_type` is the string `t` opens with `t` and closes with its indent and `}`. */
  lemma OperationShape(node: Value, t: string, indent: nat, size: nat)
    requires Get(node, "_type") == Str(t) && t != ""
    ensures var text := QueryObjectText(node, indent, size);
            |text| >= |t| && text[..|t|] == t && EndsWithClosingLine(text, indent)
  {
    var text := QueryObjectText(node, indent, size);
    Layout.TypedNodeShape(node, indent, size);
    var h := Header(node);
    assert h == t + NamePart(node) + VariablesPart(node) + " {\n";
    assert text[..|t|] == text[..|h|][..|t|];
  }

  /** `query` and `mutation` do not look at the `_type` the node had before. */
  lemma ForcedTypeIgnoresPrior(root: Value, x: Value, t: string)
    requires root.Obj?
    ensures WithType(SetField(root, "_type", x), t) == WithType(root, t)
  {
    SetFieldTwice(root, "_type", x, Str(t));
  }

  /** Defaulting the operation type a second time changes nothing. */
  lemma DefaultedIdempotent(root: Value)
    requires root.Obj?
    ensures Defaulted(Defaulted(root)) == Defaulted(root)
  {
  }

  /** The indent options change nothing but the spaces of the text, and never whether it is empty. */
  lemma OptionsOnlyMoveSpaces(obj: Value, a: Options, b: Options)
    ensures Layout.Strip(QueryObjectText(obj, InitialIndent(a), IndentSize(a)))
         == Layout.Strip(QueryObjectText(obj, InitialIndent(b), IndentSize(b)))
    ensures QueryObjectText(obj, InitialIndent(a), IndentSize(a)) == ""
        <==> QueryObjectText(obj, InitialIndent(b), IndentSize(b)) == ""
  {
    Layout.QueryObjectStrip(obj, InitialIndent(a), IndentSize(a), InitialIndent(b), IndentSize(b));
  }
}
