/** The catch discipline every `catch (err) { if (err instanceof A) … else
    if (err instanceof B) … else throw err; }` follows, stated once: a
    table of rules tried top to bottom, the first whose class the error is
    an instance of handles it, and an error no rule catches is re-thrown as
    it is. The hand-written chains are proved equal to it. */
module Dispatcher {
  import opened JsRuntime

  /** One `if (err instanceof catches) { handle }` branch. */
  datatype Rule<T> = Rule(catches: Class, handle: ErrorObject -> Completion<T>)

  function Dispatch<T>(rules: seq<Rule<T>>, e: ErrorObject): Completion<T>
    decreases |rules|
  {
    if rules == [] then Throw(e)
    else if InstanceOf(e, rules[0].catches) then rules[0].handle(e)
    else Dispatch(rules[1..], e)
  }

  /** Rule `i` is the first in the table that catches `e`. */
  predicate FirstMatch<T>(rules: seq<Rule<T>>, e: ErrorObject, i: int) {
    && 0 <= i < |rules|
    && InstanceOf(e, rules[i].catches)
    && forall j :: 0 <= j < i ==> !InstanceOf(e, rules[j].catches)
  }

  /** An error no rule catches leaves the dispatcher unchanged. */
  lemma {:induction false} UncaughtIsRethrown<T>(rules: seq<Rule<T>>, e: ErrorObject)
    requires forall j :: 0 <= j < |rules| ==> !InstanceOf(e, rules[j].catches)
    ensures Dispatch(rules, e) == Throw(e)
    decreases |rules|
  {
    if rules != [] {
      UncaughtIsRethrown(rules[1..], e);
    }
  }

  /** The first catching rule fires, whatever later rules would also catch. */
  lemma {:induction false} FirstMatchFires<T>(rules: seq<Rule<T>>, e: ErrorObject, i: int)
    requires FirstMatch(rules, e, i)
    ensures Dispatch(rules, e) == rules[i].handle(e)
    decreases |rules|
  {
    if i > 0 {
      assert !InstanceOf(e, rules[0].catches);
      FirstMatchFires(rules[1..], e, i - 1);
    }
  }

  /** Whatever the table, the dispatcher either runs some catching rule's
      handler or re-throws the very error it was given. */
  lemma {:induction false} DispatchIsTotal<T>(rules: seq<Rule<T>>, e: ErrorObject)
    ensures Dispatch(rules, e) == Throw(e)
         || exists i :: FirstMatch(rules, e, i) && Dispatch(rules, e) == rules[i].handle(e)
    decreases |rules|
  {
    if rules != [] && !InstanceOf(e, rules[0].catches) {
      DispatchIsTotal(rules[1..], e);
      if Dispatch(rules[1..], e) != Throw(e) {
        var i :| FirstMatch(rules[1..], e, i) && Dispatch(rules[1..], e) == rules[1..][i].handle(e);
        assert FirstMatch(rules, e, i + 1);
      }
    } else if rules != [] {
      assert FirstMatch(rules, e, 0);
    }
  }
}
