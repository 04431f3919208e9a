/**
 * A reader for the argument literals that `Arguments` writes, and the proof
 * that writing then reading gives back the value (and, for a whole argument
 * clause, the entries) whenever the literal is unambiguous: string contents
 * without a double quote, variable references, keys and scalars that are
 * bare tokens, and no scalar that prints as `null` or `undefined`.
 */
module ArgumentSyntax {
  import opened JsValues
  import opened Arguments

  /** A character that can occur in a bare token: a key, a variable reference or a scalar. */
  predicate IsTokenChar(c: char) {
    c != ' ' && c != ',' && c != ':' && c != '"' && c != '[' && c != ']'
    && c != '{' && c != '}' && c != '(' && c != ')' && c != '\n'
  }

  predicate IsToken(t: string) {
    |t| > 0 && forall i :: 0 <= i < |t| ==> IsTokenChar(t[i])
  }

  /** `rest` cannot extend a token that ends just before it. */
  predicate EndsToken(rest: string) {
    rest == [] || !IsTokenChar(rest[0])
  }

  /** Values whose literal text names them unambiguously. */
  predicate Reparsable(v: Value) {
    match v
    case Undefined => true
    case Null => true
    case Str(s) =>
      if StartsWithChar(s, '$') then IsToken(s) else forall i :: 0 <= i < |s| ==> s[i] != '"'
    case Other(t) => IsToken(t) && t[0] != '$' && t != "null" && t != "undefined"
    case Arr(items) => forall i :: 0 <= i < |items| ==> Reparsable(items[i])
    case Obj(es) => forall i :: 0 <= i < |es| ==> IsToken(es[i].0) && Reparsable(es[i].1)
  }

  /** Length of the longest prefix of `s` made of token characters. */
  function TokenLength(s: string): (n: nat)
    ensures n <= |s|
    ensures forall i :: 0 <= i < n ==> IsTokenChar(s[i])
    ensures n < |s| ==> !IsTokenChar(s[n])
  {
    if s == [] || !IsTokenChar(s[0]) then 0 else 1 + TokenLength(s[1..])
  }

  /** Position of the first double quote in `s`, or `|s|`. */
  function QuoteIndex(s: string): (n: nat)
    ensures n <= |s|
    ensures forall i :: 0 <= i < n ==> s[i] != '"'
    ensures n < |s| ==> s[n] == '"'
  {
    if s == [] || s[0] == '"' then 0 else 1 + QuoteIndex(s[1..])
  }

  /** The value a bare token denotes. */
  function TokenValue(t: string): Value
    requires |t| > 0
  {
    if t == "null" then Null
    else if t == "undefined" then Undefined
    else if t[0] == '$' then Str(t)
    else Other(t)
  }

  /** Reads one value literal at the start of `s`; gives the value and the text after it. */
  function ParseValue(s: string): (r: Option<(Value, string)>)
    ensures r.Some? ==> |r.value.1| < |s|
    decreases |s|, 0
  {
    if s == [] then None
    else if s[0] == '"' then
      var n := QuoteIndex(s[1..]);
      if n == |s| - 1 then None else Some((Str(s[1..n + 1]), s[n + 2..]))
    else if s[0] == '[' then
      if |s| >= 2 && s[1] == ']' then Some((Arr([]), s[2..]))
      else
        match ParseItems(s[1..])
        case None => None
        case Some((items, rest)) => Some((Arr(items), rest))
    else if s[0] == '{' then
      if |s| >= 2 && s[1] == '}' then Some((Obj([]), s[2..]))
      else
        match ParseEntries(s[1..], '}')
        case None => None
        case Some((es, rest)) => Some((Obj(es), rest))
    else
      var n := TokenLength(s);
      if n == 0 then None else Some((TokenValue(s[..n]), s[n..]))
  }

  /** Reads `v1, v2, ..., vn]` (n >= 1) and what follows the bracket. */
  function ParseItems(s: string): (r: Option<(seq<Value>, string)>)
    ensures r.Some? ==> |r.value.1| < |s|
    decreases |s|, 1
  {
    match ParseValue(s)
    case None => None
    case Some((v, rest)) =>
      if |rest| >= 2 && rest[0] == ',' && rest[1] == ' ' then
        match ParseItems(rest[2..])
        case None => None
        case Some((vs, after)) => Some(([v] + vs, after))
      else if |rest| >= 1 && rest[0] == ']' then Some(([v], rest[1..]))
      else None
  }

  /** Reads `k1: v1, ..., kn: vn` (n >= 1) followed by `close`, and what follows `close`. */
  function ParseEntries(s: string, close: char): (r: Option<(seq<(string, Value)>, string)>)
    ensures r.Some? ==> |r.value.1| < |s|
    decreases |s|, 1
  {
    var n := TokenLength(s);
    if n == 0 || |s| < n + 2 || s[n] != ':' || s[n + 1] != ' ' then None
    else
      match ParseValue(s[n + 2..])
      case None => None
      case Some((v, rest)) =>
        if |rest| >= 2 && rest[0] == ',' && rest[1] == ' ' then
          match ParseEntries(rest[2..], close)
          case None => None
          case Some((es, after)) => Some(([(s[..n], v)] + es, after))
        else if |rest| >= 1 && rest[0] == close then Some(([(s[..n], v)], rest[1..]))
        else None
  }

  /** Reads a whole argument clause `(k1: v1, ..., kn: vn)`, `()` included. */
  function ParseArgumentClause(s: string): Option<seq<(string, Value)>> {
    if s == "()" then Some([])
    else if |s| >= 1 && s[0] == '(' then
      match ParseEntries(s[1..], ')')
      case None => None
      case Some((es, rest)) => if rest == [] then Some(es) else None
    else None
  }

  lemma {:induction false} TokenLengthOf(t: string, rest: string)
    requires forall i :: 0 <= i < |t| ==> IsTokenChar(t[i])
    requires EndsToken(rest)
    ensures TokenLength(t + rest) == |t|
    decreases |t|
  {
    if t != [] {
      assert (t + rest)[1..] == t[1..] + rest;
      TokenLengthOf(t[1..], rest);
    }
  }

  lemma {:induction false} QuoteIndexOf(s: string, rest: string)
    requires forall i :: 0 <= i < |s| ==> s[i] != '"'
    ensures QuoteIndex(s + "\"" + rest) == |s|
    decreases |s|
  {
    if s != [] {
      assert (s + "\"" + rest)[1..] == s[1..] + "\"" + rest;
      QuoteIndexOf(s[1..], rest);
    }
  }

  /** A literal of a reparsable value is never empty and never starts with a closing bracket. */
  lemma FormatStart(v: Value)
    requires Reparsable(v)
    ensures |FormatArgumentValue(v)| > 0
    ensures IsTokenChar(FormatArgumentValue(v)[0]) || FormatArgumentValue(v)[0] in "\"[{"
  {
  }

  /** Reading back the literal of a reparsable value gives that value and leaves `rest`. */
  lemma {:induction false} ValueRoundTrip(v: Value, rest: string)
    requires Reparsable(v)
    requires EndsToken(rest)
    ensures ParseValue(FormatArgumentValue(v) + rest) == Some((v, rest))
    decreases v, 1
  {
    match v
    case Undefined => TokenRoundTrip("undefined", v, rest);
    case Null => TokenRoundTrip("null", v, rest);
    case Other(t) => TokenRoundTrip(t, v, rest);
    case Str(str) =>
      if StartsWithChar(str, '$') {
        TokenRoundTrip(str, v, rest);
      } else {
        QuotedRoundTrip(str, rest);
      }
    case Arr(_) => ArrRoundTrip(v, rest);
    case Obj(_) => ObjRoundTrip(v, rest);
  }

  lemma ArrRoundTrip(v: Value, rest: string)
    requires v.Arr? && Reparsable(v)
    ensures ParseValue(FormatArgumentValue(v) + rest) == Some((v, rest))
    decreases v, 0, |v.items| + 1
  {
    var items := v.items;
    if items == [] {
      assert FormatItems(v, 0) == "";
      assert FormatArgumentValue(v) + rest == "[]" + rest;
    } else {
      FormatStart(items[0]);
      ItemsRoundTrip(v, 0, rest);
      assert items[0..] == items;
      ParseBracketed(FormatItems(v, 0), rest, items);
    }
  }

  lemma ObjRoundTrip(v: Value, rest: string)
    requires v.Obj? && Reparsable(v)
    ensures ParseValue(FormatArgumentValue(v) + rest) == Some((v, rest))
    decreases v, 0, |v.entries| + 1
  {
    var es := v.entries;
    if es == [] {
      assert FormatEntries(v, 0) == "";
      assert FormatArgumentValue(v) + rest == "{}" + rest;
    } else {
      EntriesRoundTrip(v, 0, '}', rest);
      assert es[0..] == es;
      ParseBraced(FormatEntries(v, 0), rest, es);
    }
  }

  /** A value printed as a bare token reads back from that token. */
  lemma TokenRoundTrip(t: string, v: Value, rest: string)
    requires IsToken(t) && EndsToken(rest)
    requires t[0] != '"' && t[0] != '[' && t[0] != '{'
    requires TokenValue(t) == v && FormatArgumentValue(v) == t
    ensures ParseValue(FormatArgumentValue(v) + rest) == Some((v, rest))
  {
    var s := t + rest;
    TokenLengthOf(t, rest);
    assert s[..|t|] == t;
    assert s[|t|..] == rest;
  }

  lemma QuotedRoundTrip(str: string, rest: string)
    requires !StartsWithChar(str, '$')
    requires forall i :: 0 <= i < |str| ==> str[i] != '"'
    ensures ParseValue(FormatArgumentValue(Str(str)) + rest) == Some((Str(str), rest))
  {
    var s := FormatArgumentValue(Str(str)) + rest;
    assert s == "\"" + (str + "\"" + rest);
    QuoteIndexOf(str, rest);
    assert s[1..] == str + "\"" + rest;
    assert s[1..|str| + 1] == str;
    assert s[|str| + 2..] == rest;
  }

  /** A bracketed list is read by reading its elements. */
  lemma ParseBracketed(inner: string, rest: string, items: seq<Value>)
    requires |inner| > 0 && inner[0] != ']'
    requires ParseItems(inner + "]" + rest) == Some((items, rest))
    ensures ParseValue("[" + inner + "]" + rest) == Some((Arr(items), rest))
  {
    var tail := inner + "]" + rest;
    assert "[" + inner + "]" + rest == ['['] + tail;
    ParseListAt(['['] + tail, items, rest);
  }

  lemma ParseListAt(s: string, items: seq<Value>, rest: string)
    requires |s| >= 2 && s[0] == '[' && s[1] != ']'
    requires ParseItems(s[1..]) == Some((items, rest))
    ensures ParseValue(s) == Some((Arr(items), rest))
  {
  }

  /** A braced object is read by reading its entries. */
  lemma ParseBraced(inner: string, rest: string, es: seq<(string, Value)>)
    requires |inner| > 0 && inner[0] != '}'
    requires ParseEntries(inner + "}" + rest, '}') == Some((es, rest))
    ensures ParseValue("{" + inner + "}" + rest) == Some((Obj(es), rest))
  {
    var tail := inner + "}" + rest;
    assert "{" + inner + "}" + rest == ['{'] + tail;
    ParseObjectAt(['{'] + tail, es, rest);
  }

  lemma ParseObjectAt(s: string, es: seq<(string, Value)>, rest: string)
    requires |s| >= 2 && s[0] == '{' && s[1] != '}'
    requires ParseEntries(s[1..], '}') == Some((es, rest))
    ensures ParseValue(s) == Some((Obj(es), rest))
  {
  }

  lemma {:induction false} ItemsRoundTrip(v: Value, k: nat, rest: string)
    requires v.Arr? && k < |v.items| && Reparsable(v)
    ensures ParseItems(FormatItems(v, k) + "]" + rest) == Some((v.items[k..], rest))
    decreases v, 0, |v.items| - k
  {
    var x := v.items[k];
    assert Reparsable(x);
    if k == |v.items| - 1 {
      assert FormatItems(v, k) == FormatArgumentValue(x);
      LastItemRoundTrip(x, rest);
      assert v.items[k..] == [x];
    } else {
      var more := FormatItems(v, k + 1) + "]" + rest;
      assert FormatItems(v, k) + "]" + rest == FormatArgumentValue(x) + ", " + more;
      ItemsRoundTrip(v, k + 1, rest);
      NextItemRoundTrip(x, more, v.items[k + 1..], rest);
      SliceCons(v.items, k);
    }
  }

  lemma LastItemRoundTrip(x: Value, rest: string)
    requires Reparsable(x)
    ensures ParseItems(FormatArgumentValue(x) + "]" + rest) == Some(([x], rest))
    decreases x, 2
  {
    var text := FormatArgumentValue(x);
    ValueRoundTrip(x, "]" + rest);
    assert text + "]" + rest == text + ("]" + rest);
    ParseLastItem(text, x, rest);
  }

  lemma NextItemRoundTrip(x: Value, more: string, items: seq<Value>, rest: string)
    requires Reparsable(x)
    requires ParseItems(more) == Some((items, rest))
    ensures ParseItems(FormatArgumentValue(x) + ", " + more) == Some(([x] + items, rest))
    decreases x, 2
  {
    var text := FormatArgumentValue(x);
    ValueRoundTrip(x, ", " + more);
    assert text + ", " + more == text + (", " + more);
    ParseNextItem(text, x, more, items, rest);
  }

  /** Reading a value that ends the list. */
  lemma ParseLastItem(text: string, x: Value, rest: string)
    requires ParseValue(text + ("]" + rest)) == Some((x, "]" + rest))
    ensures ParseItems(text + "]" + rest) == Some(([x], rest))
  {
    var tail := "]" + rest;
    assert tail[0] == ']' && tail[1..] == rest;
    assert text + "]" + rest == text + tail;
  }

  /** Reading a value followed by more of the list. */
  lemma ParseNextItem(text: string, x: Value, more: string, items: seq<Value>, rest: string)
    requires ParseValue(text + (", " + more)) == Some((x, ", " + more))
    requires ParseItems(more) == Some((items, rest))
    ensures ParseItems(text + ", " + more) == Some(([x] + items, rest))
  {
    var tail := ", " + more;
    assert |tail| >= 2 && tail[0] == ',' && tail[1] == ' ' && tail[2..] == more;
    assert text + ", " + more == text + tail;
  }

  lemma SliceCons<T>(s: seq<T>, k: nat)
    requires k < |s|
    ensures s[k..] == [s[k]] + s[k + 1..]
  {
  }

  /** Reading `key: value` when the value ends the list. */
  lemma ParseLastEntry(key: string, text: string, x: Value, close: char, rest: string)
    requires close == '}' || close == ')'
    requires IsToken(key)
    requires ParseValue(text + [close] + rest) == Some((x, [close] + rest))
    ensures ParseEntries(key + ": " + text + [close] + rest, close) == Some(([(key, x)], rest))
  {
    var after := text + [close] + rest;
    var s := key + ": " + after;
    assert s == key + (": " + after);
    TokenLengthOf(key, ": " + after);
    var n := |key|;
    assert TokenLength(s) == n && s[n] == ':' && s[n + 1] == ' ';
    assert s[..n] == key;
    assert s[n + 2..] == after;
    var tail := [close] + rest;
    assert tail[0] == close;
    assert tail[1..] == rest;
    assert key + ": " + text + [close] + rest == s;
  }

  /** Reading `key: value, ...` when more entries follow. */
  lemma ParseNextEntry(key: string, text: string, x: Value, close: char, more: string,
                       es: seq<(string, Value)>, rest: string)
    requires IsToken(key)
    requires ParseValue(text + ", " + more) == Some((x, ", " + more))
    requires ParseEntries(more, close) == Some((es, rest))
    ensures ParseEntries(key + ": " + text + ", " + more, close) == Some(([(key, x)] + es, rest))
  {
    var after := text + ", " + more;
    var s := key + ": " + after;
    assert s == key + (": " + after);
    TokenLengthOf(key, ": " + after);
    var n := |key|;
    assert TokenLength(s) == n && s[n] == ':' && s[n + 1] == ' ';
    assert s[..n] == key;
    assert s[n + 2..] == after;
    var tail := ", " + more;
    assert |tail| >= 2 && tail[0] == ',' && tail[1] == ' ';
    assert tail[2..] == more;
    assert key + ": " + text + ", " + more == s;
  }

  lemma {:induction false} EntriesRoundTrip(v: Value, k: nat, close: char, rest: string)
    requires v.Obj? && k < |v.entries| && Reparsable(v)
    requires close == '}' || close == ')'
    ensures ParseEntries(FormatEntries(v, k) + [close] + rest, close) == Some((v.entries[k..], rest))
    decreases v, 0, |v.entries| - k
  {
    var key := v.entries[k].0;
    var x := v.entries[k].1;
    assert IsToken(key) && Reparsable(x);
    if k == |v.entries| - 1 {
      assert FormatEntries(v, k) == key + ": " + FormatArgumentValue(x);
      LastEntryRoundTrip(key, x, close, rest);
      assert v.entries[k..] == [(key, x)];
    } else {
      var more := FormatEntries(v, k + 1) + [close] + rest;
      var head := key + ": " + FormatArgumentValue(x) + ", ";
      assert FormatEntries(v, k) == head + FormatEntries(v, k + 1);
      assert FormatEntries(v, k) + [close] + rest == head + more;
      EntriesRoundTrip(v, k + 1, close, rest);
      NextEntryRoundTrip(key, x, close, more, v.entries[k + 1..], rest);
      SliceCons(v.entries, k);
    }
  }

  lemma LastEntryRoundTrip(key: string, x: Value, close: char, rest: string)
    requires IsToken(key) && Reparsable(x)
    requires close == '}' || close == ')'
    ensures ParseEntries(key + ": " + FormatArgumentValue(x) + [close] + rest, close) == Some(([(key, x)], rest))
    decreases x, 2
  {
    var text := FormatArgumentValue(x);
    ValueRoundTrip(x, [close] + rest);
    assert text + [close] + rest == text + ([close] + rest);
    ParseLastEntry(key, text, x, close, rest);
  }

  lemma NextEntryRoundTrip(key: string, x: Value, close: char, more: string,
                           es: seq<(string, Value)>, rest: string)
    requires IsToken(key) && Reparsable(x)
    requires ParseEntries(more, close) == Some((es, rest))
    ensures ParseEntries(key + ": " + FormatArgumentValue(x) + ", " + more, close) == Some(([(key, x)] + es, rest))
    decreases x, 2
  {
    var text := FormatArgumentValue(x);
    ValueRoundTrip(x, ", " + more);
    assert text + ", " + more == text + (", " + more);
    ParseNextEntry(key, text, x, close, more, es, rest);
  }

  /**
   * An argument clause reads back as exactly the `Object.entries` of the
   * arguments it was written from, in the same order.
   */
  lemma ArgumentsRoundTrip(args: Value)
    requires !IsNullish(args)
    requires Reparsable(Obj(Entries(args)))
    ensures ParseArgumentClause("(" + FormatArguments(args) + ")") == Some(Entries(args))
  {
    var es := Entries(args);
    if es == [] {
      assert FormatArguments(args) == "";
      assert "(" + "" + ")" == "()";
    } else {
      var inner := FormatEntries(Obj(es), 0);
      EntriesRoundTrip(Obj(es), 0, ')', "");
      assert es[0..] == es;
      assert inner + [')'] + "" == inner + ")";
      ParseClauseAt(inner, es);
    }
  }

  lemma ParseClauseAt(inner: string, es: seq<(string, Value)>)
    requires inner != ""
    requires ParseEntries(inner + ")", ')') == Some((es, ""))
    ensures ParseArgumentClause("(" + inner + ")") == Some(es)
  {
    var s := "(" + inner + ")";
    assert s[0] == '(' && s[1..] == inner + ")";
    assert s != "()";
  }
}
