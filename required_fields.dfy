/** The fields every `readUser`/`validateUser` insists on, in the order it
    checks them, and the "first missing field" that order determines. A
    field is missing when reading it gives a falsy value (`!user.age`). */
module RequiredFields {
  import opened JsRuntime

  const Required: seq<string> := ["age", "name"]

  /** `user[key]` is truthy; `user` is not `null`. */
  predicate Present(user: JsonValue, key: string) {
    Truthy(Lookup(user, key))
  }

  /** Index `i` of `keys` is missing and every earlier one is present. */
  predicate IsFirstMissing(user: JsonValue, keys: seq<string>, i: int) {
    && 0 <= i < |keys|
    && !Present(user, keys[i])
    && forall j :: 0 <= j < i ==> Present(user, keys[j])
  }

  /** The first key in `keys` that `user` lacks, if any. */
  function FirstFalsy(user: JsonValue, keys: seq<string>): Option<string>
    decreases |keys|
  {
    if keys == [] then None
    else if !Present(user, keys[0]) then Some(keys[0])
    else FirstFalsy(user, keys[1..])
  }

  function FirstMissing(user: JsonValue): Option<string> {
    FirstFalsy(user, Required)
  }

  /** `FirstFalsy` reports exactly the first missing key in declared order,
      and reports nothing exactly when every key is present. */
  lemma {:induction false} FirstFalsySpec(user: JsonValue, keys: seq<string>)
    ensures FirstFalsy(user, keys) == None <==> forall k :: k in keys ==> Present(user, k)
    ensures forall i :: IsFirstMissing(user, keys, i) ==> FirstFalsy(user, keys) == Some(keys[i])
    ensures FirstFalsy(user, keys).Some? ==>
      exists i :: IsFirstMissing(user, keys, i) && keys[i] == FirstFalsy(user, keys).value
    decreases |keys|
  {
    if keys != [] {
      var rest := keys[1..];
      FirstFalsySpec(user, rest);
      assert forall k :: k in keys <==> k == keys[0] || k in rest;
      if Present(user, keys[0]) {
        forall i | IsFirstMissing(user, keys, i)
          ensures FirstFalsy(user, keys) == Some(keys[i])
        {
          assert i != 0;
          assert IsFirstMissing(user, rest, i - 1);
        }
        if FirstFalsy(user, rest).Some? {
          var i :| IsFirstMissing(user, rest, i) && rest[i] == FirstFalsy(user, rest).value;
          assert IsFirstMissing(user, keys, i + 1);
        }
      } else {
        assert IsFirstMissing(user, keys, 0);
      }
    }
  }

  /** The two required fields, spelled out: `age` is checked before `name`. */
  lemma FirstMissingCases(user: JsonValue)
    ensures FirstMissing(user) ==
      if !Present(user, "age") then Some("age")
      else if !Present(user, "name") then Some("name")
      else None
  {
  }
}
