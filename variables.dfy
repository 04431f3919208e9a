/**
 * The variable definitions of an operation line: one `$name: Type` for each
 * variable whose type is a string, in entry order; every other variable is
 * dropped, and the parentheses stay even when nothing is left.
 */
module VariableDefinitions {
  import opened JsValues
  import opened Compiler

  /** Definitions of consecutive runs of variables are consecutive. */
  lemma {:induction false} DeclarationsAppend(a: seq<(string, Value)>, b: seq<(string, Value)>)
    ensures Declarations(a + b) == Declarations(a) + Declarations(b)
  {
    if a == [] {
      assert a + b == b;
    } else {
      DeclarationsAppend(a[1..], b);
      assert (a + b)[1..] == a[1..] + b;
    }
  }

  /** Every definition comes from a string-typed entry, and every string-typed entry gives one. */
  lemma {:induction false} DeclarationsMembers(es: seq<(string, Value)>, d: string)
    ensures d in Declarations(es) <==> exists i :: 0 <= i < |es| && es[i].1.Str? && d == Definition(es[i])
  {
    if es != [] {
      DeclarationsMembers(es[1..], d);
      if exists i :: 0 <= i < |es| && es[i].1.Str? && d == Definition(es[i]) {
        var i :| 0 <= i < |es| && es[i].1.Str? && d == Definition(es[i]);
        if i > 0 {
          assert es[1..][i - 1] == es[i];
        }
      }
      if exists i :: 0 <= i < |es[1..]| && es[1..][i].1.Str? && d == Definition(es[1..][i]) {
        var i :| 0 <= i < |es[1..]| && es[1..][i].1.Str? && d == Definition(es[1..][i]);
        assert es[i + 1] == es[1..][i];
      }
    }
  }

  /** When every variable is typed by a string, there is one definition per variable, in order. */
  lemma {:induction false} DeclarationsAllStrings(es: seq<(string, Value)>)
    requires forall i :: 0 <= i < |es| ==> es[i].1.Str?
    ensures |Declarations(es)| == |es|
    ensures forall i :: 0 <= i < |es| ==> Declarations(es)[i] == Definition(es[i])
  {
    if es != [] {
      DeclarationsAllStrings(es[1..]);
    }
  }

  /** With no string-typed variable the definitions are empty but the parentheses remain. */
  lemma EmptyVariableList(obj: Value)
    requires var vars := Get(obj, "_variables");
             vars.Obj? && forall i :: 0 <= i < |vars.entries| ==> !vars.entries[i].1.Str?
    ensures VariablesPart(obj) == "()"
  {
    var es := Get(obj, "_variables").entries;
    DeclarationsNone(es);
  }

  lemma {:induction false} DeclarationsNone(es: seq<(string, Value)>)
    requires forall i :: 0 <= i < |es| ==> !es[i].1.Str?
    ensures Declarations(es) == []
  {
    if es != [] {
      DeclarationsNone(es[1..]);
    }
  }
}
