# earl: a GraphQL query compiler, modelled in Dafny

earl turns a nested JavaScript object that describes a GraphQL operation into
GraphQL document text:

- the operation line, built from `_type`, `_name` and `_variables`;
- selection sets, written either as an array (array style) or as an object
  (map style);
- field aliases (`_alias`) and field arguments (`_arguments`);
- nested blocks, indented by a configurable step.

It has four entry points. `compile` renders a node. `query` and `mutation`
first force the node's `_type`. `createQuery` checks the root, defaults
`_type` to `query`, and returns the text together with the variables.

The model has three layers:

- **Input values.** The JavaScript input is a Dafny datatype (`JsValues.Value`).
  - Objects are insertion-ordered lists of entries.
  - Numbers, booleans and other scalars are carried as their already
    stringified text (`Other`).
  - Reading a property, JavaScript truthiness, `Object.entries`, `String(…)`
    and the write of a property are functions on that type, with lemmas
    about reading after writing.
- **Reference rendering and the compiler.** Each rendering rule is a
  recursive function (`Compiler.QueryObjectText` and its helpers).
  - The compiler is imperative, as in the source: methods append to a
    `result` string, with loops over the selection entries.
  - Each method is proved to produce exactly the reference text.
- **Properties proved about the reference rendering:**
  - the shape of an operation;
  - that indentation options move only spaces;
  - the equivalence of the two selection styles;
  - the variable definitions on the operation line;
  - a reader for argument literals, proved to invert the argument
    formatter.

Modules:

| file | module | what it holds |
|---|---|---|
| values.dfy | `JsValues` | the value type, property read and write, truthiness, `Object.entries`, `String` |
| arguments.dfy | `Arguments` | `_formatArguments` and `_formatArgumentValue` |
| argument_syntax.dfy | `ArgumentSyntax` | a reader for argument literals and the write-then-read round trip |
| compiler.dfy | `Compiler` | reference rendering functions and the imperative compiler methods |
| layout.dfy | `Layout` | operation shape, line endings, empty blocks, indentation independence |
| selections.dfy | `Selections` | array style against map style, entries that are not nested |
| variables.dfy | `VariableDefinitions` | the `$name: Type` list of the operation line |
| api.dfy | `Api` | `compile`, `query`, `mutation`, `createQuery` |
| cases.dfy | `Cases` | the whole output for four of the test file's inputs, and the argument clause or the variable list for five more |

## Model

| member | source | states |
|---|---|---|
| JsValues.SetFieldGet | index.js:22 | after a property is written, reading it gives the written value and every other property reads as before |
| JsValues.SetFieldTwice | index.js:39 | writing a property twice leaves only the second value, as if the first write never happened |
| JsValues.SetFieldSame | index.js:22 | writing an existing property with the value it already has leaves the object unchanged |
| JsValues.Entries | index.js:88 | `Object.entries` gives an object's entries in order, an array's or a string's elements keyed by their decimal index, and nothing for other primitives; the same reading serves index.js:145, 183 and 205 |
| JsValues.FirstKeyed | index.js:128-129 | the first key of a selection entry and the value under it: an object's first entry, `"0"` and the first item for an array, and the key `undefined` with an `undefined` value when there are no keys |
| JsValues.FindFirst | index.js:80-87 | a property read finds the first entry with the key, and no earlier entry has it |
| Compiler.ParseQueryObject | index.js:75-119 | the appending compiler produces exactly the reference text of a node, at any initial indent and indent size |
| Compiler.OperationLine | index.js:80-102 | the operation line appended piece by piece is: the type, then ` name` when `_name` is truthy, then the parenthesised variable list when `_variables` is an object, then ` {` and a line break |
| Compiler.ParseFields | index.js:106-112 | a truthy `_fields` renders in array style, in map style, or as nothing when it is neither an array nor an object |
| Compiler.ParseFieldsArray | index.js:121-140 | the loop over an array-style selection produces the concatenation of every entry's text, in order |
| Compiler.ParseFieldsObject | index.js:142-154 | the loop over a map-style selection produces the concatenation of every kept entry's field text, in entry order |
| Compiler.ParseObjectField | index.js:156-174 | a field renders as its opening line, its nested block one indent step deeper, and its closing line |
| Compiler.ParseArrayOrObject | index.js:176-180 | a nested value renders as an array-style selection when it is an array, otherwise as a node |
| Arguments.FormatArgumentValue | index.js:188-211 | `null` is written `null`; a string starting with `$` is written as it is; any other string is written between double quotes; an array is written between `[` and `]`, an object between `{` and `}`; anything else is its `String(…)` text. Its partner is ArgumentSyntax.ValueRoundTrip |
| Arguments.ArrayLiteral | index.js:201-203 | an array argument is `[`, the literals of its items joined by `, `, and `]` |
| Arguments.ObjectLiteral | index.js:205-207 | an object argument is `{`, its `key: literal` pairs joined by `, `, and `}` |
| Arguments.FormatArguments | index.js:182-186 | the argument clause is empty exactly when the arguments have no entries, and otherwise starts with the first key and `: `. Its partner is ArgumentSyntax.ArgumentsRoundTrip |
| Arguments.ArgumentsJoin | index.js:182-186 | the argument clause is the `key: literal` pairs of the entries, in entry order, joined by `, ` |
| ArgumentSyntax.ValueRoundTrip | index.js:188-211 | reading back the literal `_formatArgumentValue` writes gives the original value, for every value whose literal is unambiguous |
| ArgumentSyntax.ArgumentsRoundTrip | index.js:158-160 | reading back a parenthesised argument clause gives the argument entries, in order |
| ArgumentSyntax.ItemsRoundTrip | index.js:201-203 | the elements of an array literal, joined by `, `, read back as the array's items |
| ArgumentSyntax.EntriesRoundTrip | index.js:182-186 | the `k: v` pairs, joined by `, `, read back as the object's entries |
| Layout.TypedNodeShape | index.js:80-116 | a typed node's text starts with its operation line, and its last line is exactly the node's indent followed by `}` |
| Layout.FieldsTextEndsWithNewline | index.js:121-154 | a selection block in either style is empty or ends with a line break |
| Layout.EmptyListField | index.js:161-171 | a field whose value is an empty array writes no `{}`; its opening line ends in a bare space and its closing line is only the indent |
| Layout.QueryObjectStrip | index.js:58-61 | two indent settings give texts that differ only in spaces, and one is empty exactly when the other is |
| Layout.ObjectFieldStrip | index.js:169-171 | a field's lines differ only in spaces between two indent settings, and are never empty |
| Selections.MapStyleIsArrayStyle | index.js:142-154 | a map-style selection renders exactly as the array-style selection of its kept entries, each wrapped as a one-key object |
| Selections.ScalarUnderKey | index.js:131-135 | a key whose value is a scalar is a bare leaf line in array style and is dropped in map style |
| Selections.EmptyObjectEntry | index.js:128 | an object with no keys in an array-style selection prints `undefined`, its missing first key |
| VariableDefinitions.DeclarationsMembers | index.js:88-97 | a definition appears exactly when some variable's type is a string, and it is that variable's `$name: Type` |
| VariableDefinitions.DeclarationsAllStrings | index.js:88-97 | when every variable's type is a string there is one definition per variable, in entry order |
| VariableDefinitions.DeclarationsAppend | index.js:88-97 | the definitions of two runs of variables are the definitions of each, in order |
| VariableDefinitions.EmptyVariableList | index.js:87-99 | when no variable's type is a string the parentheses are still written, empty |
| Api.WithType | index.js:39 | after the write, `_type` is the given string and every other property is unchanged |
| Api.Defaulted | index.js:21-23 | a truthy `_type` is kept as it is, a falsy one becomes `query`, and nothing else changes |
| Api.Compile | index.js:58-61 | compiling a node gives its text at the given `initialIndent` and `indentSize`, 0 and 2 by default |
| Api.Query | index.js:38-41 | `query` sets `_type` to `query` whatever it was; the text starts with `query` and ends with a line holding the initial indent and `}` |
| Api.Mutation | index.js:48-51 | `mutation` sets `_type` to `mutation` whatever it was; the text starts with `mutation` and ends with a line holding the initial indent and `}` |
| Api.CreateQuery | index.js:16-31 | fails with a type error exactly when the root is `null` or `undefined`; fails with the missing-property error exactly when the root has neither a truthy `_type` nor a truthy `_fields`; otherwise it compiles the defaulted root with the default options and returns the variables unchanged, `{}` when omitted |
| Api.OperationShape | index.js:80-116 | a node whose `_type` is a non-empty string opens with that string and closes with its indent and `}` |
| Api.ForcedTypeIgnoresPrior | index.js:38-51 | the node that `query` and `mutation` compile does not depend on the `_type` the caller set |
| Api.DefaultedIdempotent | index.js:21-23 | defaulting the operation type a second time changes nothing |
| Api.OptionsOnlyMoveSpaces | index.js:58-61 | the indent options change only the spaces of the output, never whether it is empty |
| Cases.DefaultLayout | index.js:80-116 | with the default options, a typed node with no name and no variables is its type, ` {`, its selection block and `}` |
| Cases.UnderscoreFieldCase | index.test.js:44-50 | `query({_fields: {_thoughts: [...]}})` is exactly `query {` followed by a line break and `}` |
| Cases.DefaultTypeCase | index.test.js:11-17 | a root with only `_fields` is typed `query`, and its one nested list renders as `thoughts` with the leaves `id`, `name` and `thought`, one indent step deeper |
| Cases.ScalarFieldCase | index.test.js:52-58 | an entry `{a: "b"}` in an array-style selection renders as the bare line `a`, so the query is `query {`, `  a` and `}` |
| Cases.ArgumentValueCases | index.test.js:60-122 | the argument `b` is written `b: null`, `b: "str"`, `b: ["c", "d"]` and `b: 1` for a null, a string, an array and a BigInt value |
| Cases.BigIntArgumentCase | index.test.js:108-122 | a field holding only `_arguments: {b: 1}` renders as `a(b: 1) ` and a line of bare indent, with no braces |
| Cases.NestedArgumentsCase | index.test.js:124-153 | variable references are written verbatim and a nested object in braces: `a: $a, b: $b, c: {d: $d}` |
| Cases.VariablesCase | index.test.js:155-180 | the operation line's variables `($id: Int, $name: String)` drop the variable whose type is `null` |

## Left out

- Numbers, booleans and BigInt are carried as their `String(…)` text (the `Other` case). Their formatting is JavaScript's and is not modelled.
- Symbols are not modelled: the value type has no case for them. In the source a symbol under `_type`, `_name` or `_alias` (index.js:81, 84, 167), or inside an array there, throws a `TypeError`, while `String(value)` for an argument value (index.js:210) accepts it.
- Strings are sequences of Unicode scalar values, not of UTF-16 code units. `Object.entries` on a string `_arguments` (index.js:183) splits UTF-16 code units, so a string with a character outside the Basic Multilingual Plane gives a different clause in the source than in the model.
- Negative or fractional `indentSize` and `initialIndent` are not modelled. Options are natural numbers, so the `RangeError` that `" ".repeat` throws on a negative count is out of scope.
- `query`, `mutation` and `createQuery` write `_type` into the caller's object. The model returns the updated node instead. Object identity, aliasing and the caller seeing the change are not modelled.
- Api.Query and Api.Mutation require a plain object root. In JavaScript, a primitive root throws a `TypeError` when `_type` is written, and an array or function root would take `_type` as an ordinary property; the value type cannot carry an extra key on those.
- Api.Compile requires a root that is not `null` or `undefined`. Such a root throws a `TypeError` at the first property read, which `CreateQuery` models as an error result.
- Objects are entry lists with distinct keys, in `Object.entries` order. JavaScript's own ordering rule (integer-like keys first) is taken to have been applied already.
- Getters, prototypes, inherited properties and non-plain objects (`Date`, `Map`, class instances) are not modelled.
- Cyclic inputs are not modelled; every value is a finite tree.
- The `.filter(Boolean)` step in the variable list is folded into the definitions: a string-typed variable's definition always starts with `$`, so it is never filtered out, and the other variables are dropped before joining.
- ArgumentSyntax.ValueRoundTrip holds only for values whose literal is unambiguous. `_formatArgumentValue` writes a string between double quotes without escaping, so a string that contains a `"` cannot be read back. Variable references, keys and scalars must be bare tokens, and no scalar may print as `null` or `undefined`.
- The GraphQL grammar of the output is not modelled beyond the line shapes stated above.
- Layout.QueryObjectStrip and Api.OptionsOnlyMoveSpaces compare texts with every space removed, so they do not distinguish a moved indent from a moved separator space. A per-line statement ("every line of a block starts with its indent") does not hold for the source: a nested node with a truthy `_type` writes its header with no indent (index.js:81), and its `}` has no line break after it (index.js:115), so the parent field's closing line follows on the same line (index.js:171). The model reproduces this.
