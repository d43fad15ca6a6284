/** The fourth example (customErrorsExtending.js:120-181): `readUser` hides
    a parse failure or a validation failure behind a `ReadError` that keeps
    the original as its `cause`, lets anything else through, and the top
    level reports the cause of a `ReadError`.

    The `ValidationError` and `PropertyRequiredError` bodies in this block
    are elided in the source; the full definitions of lines 51-64 are used. */
module WrappingExceptions {
  import opened JsRuntime
  import opened UserErrors
  import opened RequiredFields
  import opened Dispatcher
  import FI = FurtherInheritance

  const ReadErrorClass := Class(ReadError, Some(ErrorClass))

  /** `super(message)`, then `this.cause = cause`, then the name. */
  function ConstructReadError(self: Class, message: string, cause: ErrorObject): (e: ErrorObject)
    ensures e.cls == self && e.message == message
    ensures e.cause == Some(cause) && e.property == None
    ensures e.name == "ReadError"
  {
    ConstructError(self, message).(cause := Some(cause)).(name := "ReadError")
  }

  /** `new ReadError(message, cause)`: the original error is kept whole. */
  function NewReadError(message: string, cause: ErrorObject): (e: ErrorObject)
    ensures e.message == message && e.cause == Some(cause)
    ensures NameIsSelf(e) && e.name == "ReadError"
    ensures InstanceOf(e, ReadErrorClass) && InstanceOf(e, ErrorClass)
    ensures !InstanceOf(e, FI.ValidationErrorClass) && !InstanceOf(e, NativeSyntaxErrorClass)
  {
    ConstructReadError(ReadErrorClass, message, cause)
  }

  /** `validateUser(user)`: `age`, then `name`; completes with `undefined`. */
  function ValidateUser(user: JsonValue): (r: Completion<()>)
    ensures user.JNull? ==> r == Throw(NullRead("age"))
    ensures !user.JNull? ==>
      match FirstMissing(user)
      case None => r == Normal(())
      case Some(field) => r == Throw(FI.NewPropertyRequiredError(field))
  {
    FirstMissingCases(user);
    var age :- Get(user, "age");
    if !Truthy(age) then Throw(FI.NewPropertyRequiredError("age"))
    else
      match Get(user, "name")
      case Throw(err) => Throw(err)
      case Normal(name) =>
        if !Truthy(name) then Throw(FI.NewPropertyRequiredError("name"))
        else Normal(())
  }

  /** The `catch (err)` around `JSON.parse` (lines 151-156): it always throws. */
  function WrapParseError(err: ErrorObject): (r: Completion<JsonValue>)
    ensures r.Throw?
    ensures InstanceOf(err, NativeSyntaxErrorClass) ==> r.error == NewReadError("Syntax Error", err)
    ensures !InstanceOf(err, NativeSyntaxErrorClass) ==> r.error == err
  {
    if InstanceOf(err, NativeSyntaxErrorClass) then Throw(NewReadError("Syntax Error", err))
    else Throw(err)
  }

  /** The `catch (err)` around `validateUser` (lines 161-166): it always throws. */
  function WrapValidationError(err: ErrorObject): (r: Completion<()>)
    ensures r.Throw?
    ensures InstanceOf(err, FI.ValidationErrorClass) ==> r.error == NewReadError("Validation Error", err)
    ensures !InstanceOf(err, FI.ValidationErrorClass) ==> r.error == err
  {
    if InstanceOf(err, FI.ValidationErrorClass) then Throw(NewReadError("Validation Error", err))
    else Throw(err)
  }

  function ParseCatchTable(): seq<Rule<JsonValue>> {
    [ Rule(NativeSyntaxErrorClass, (e: ErrorObject) => Throw(NewReadError("Syntax Error", e))) ]
  }

  function ValidationCatchTable(): seq<Rule<()>> {
    [ Rule(FI.ValidationErrorClass, (e: ErrorObject) => Throw(NewReadError("Validation Error", e))) ]
  }

  lemma WrapParseErrorIsDispatch(err: ErrorObject)
    ensures WrapParseError(err) == Dispatch(ParseCatchTable(), err)
  {
  }

  lemma WrapValidationErrorIsDispatch(err: ErrorObject)
    ensures WrapValidationError(err) == Dispatch(ValidationCatchTable(), err)
  {
  }

  /** `readUser(json)` of lines 146-168. It has no `return`, so on success it
      completes with `undefined`. */
  function ReadUser(decode: Decoder, json: string): (r: Completion<()>)
    ensures decode(json).Rejected? ==>
      r == Throw(NewReadError("Syntax Error", NativeErrorOf(NativeSyntaxErrorClass, decode(json).text)))
    ensures decode(json) == Parsed(JNull) ==> r == Throw(NullRead("age"))
    ensures decode(json).Parsed? && !decode(json).value.JNull? ==>
      match FirstMissing(decode(json).value)
      case None => r == Normal(())
      case Some(field) => r == Throw(NewReadError("Validation Error", FI.NewPropertyRequiredError(field)))
  {
    var parsed := JsonParse(decode, json);
    var user :- if parsed.Throw? then WrapParseError(parsed.error) else parsed;
    var validated := ValidateUser(user);
    if validated.Throw? then WrapValidationError(validated.error) else Normal(())
  }

  /** Wrapping loses nothing: the `ReadError` that leaves `readUser` holds
      the parser's error or the first-missing-field error unchanged, and
      any error that is not a `ReadError` is one no catch recognised. */
  lemma ReadErrorKeepsCause(decode: Decoder, json: string)
    requires ReadUser(decode, json).Throw?
    ensures var e := ReadUser(decode, json).error;
      if InstanceOf(e, ReadErrorClass) then
        && e.cause.Some?
        && (e.message == "Syntax Error" ==>
              decode(json).Rejected?
              && e.cause.value.cls == NativeSyntaxErrorClass
              && e.cause.value.message == decode(json).text)
        && (e.message == "Validation Error" ==>
              decode(json).Parsed?
              && FirstMissing(decode(json).value) == Some(e.cause.value.property.value)
              && InstanceOf(e.cause.value, FI.PropertyRequiredErrorClass))
        && (e.message == "Syntax Error" || e.message == "Validation Error")
      else
        e == NullRead("age") && decode(json) == Parsed(JNull)
  {
  }

  /** The `catch (e)` of lines 172-180; a normal completion carries the
      line it logs about the cause. */
  function HandleTopLevel(e: ErrorObject): (r: Completion<seq<string>>)
    ensures r.Throw? <==> !InstanceOf(e, ReadErrorClass)
    ensures r.Throw? ==> r.error == e
    ensures r.Normal? ==> r.value == ["Original error: " + CauseToString(e.cause)]
  {
    if InstanceOf(e, ReadErrorClass) then Normal(["Original error: " + CauseToString(e.cause)])
    else Throw(e)
  }

  function TopLevelTable(): seq<Rule<seq<string>>> {
    [ Rule(ReadErrorClass, (e: ErrorObject) => Normal(["Original error: " + CauseToString(e.cause)])) ]
  }

  lemma HandleTopLevelIsDispatch(e: ErrorObject)
    ensures HandleTopLevel(e) == Dispatch(TopLevelTable(), e)
  {
  }

  /** The `try { readUser(json) } catch …` statement of lines 170-180. */
  function TryReadUser(decode: Decoder, json: string): (r: Completion<seq<string>>)
    ensures r.Throw? ==> ReadUser(decode, json) == Throw(r.error)
    ensures r.Throw? ==> r.error == NullRead("age") && decode(json) == Parsed(JNull)
    ensures r.Throw? <==> decode(json) == Parsed(JNull)
  {
    match ReadUser(decode, json)
    case Normal(_) => Normal([])
    case Throw(e) =>
      ReadErrorKeepsCause(decode, json);
      HandleTopLevel(e)
  }

  /** A parse failure reaches the top level as a `ReadError` whose cause
      shows the parser's own SyntaxError and text (line 175 gives V8's text
      for `{bad json}`: "Unexpected token b in JSON at position 1"). */
  lemma BadJsonShowsOriginalError(decode: Decoder, json: string)
    requires decode(json).Rejected? && decode(json).text != ""
    ensures TryReadUser(decode, json) ==
      Normal(["Original error: SyntaxError: " + decode(json).text])
  {
    var text := decode(json).text;
    var cause := NativeErrorOf(NativeSyntaxErrorClass, text);
    assert IsNative(cause.cls) && cause.name == "SyntaxError";
    var e := NewReadError("Syntax Error", cause);
    assert ReadUser(decode, json) == Throw(e);
    assert "SyntaxError" != "" && "SyntaxError" + ": " == "SyntaxError: ";
    assert ToString(cause) == "SyntaxError: " + text;
    assert "Original error: " + "SyntaxError: " == "Original error: SyntaxError: ";
    assert "Original error: " + ("SyntaxError: " + text) == "Original error: SyntaxError: " + text;
  }

  /** A validation cause is an object of the file's own `Error` class, which
      has no `toString` of the engine's: the same line shows a plain object. */
  lemma ValidationCauseShowsPlainObject(decode: Decoder, json: string)
    requires decode(json).Parsed? && !decode(json).value.JNull?
    requires FirstMissing(decode(json).value).Some?
    ensures TryReadUser(decode, json) == Normal(["Original error: [object Object]"])
  {
    var pre := FI.NewPropertyRequiredError(FirstMissing(decode(json).value).value);
    UserAndNativeDisjoint(pre, NativeErrorClass);
    var e := NewReadError("Validation Error", pre);
    assert ReadUser(decode, json) == Throw(e);
    assert ToString(pre) == "[object Object]";
    assert HandleTopLevel(e) == Normal(["Original error: " + ToString(pre)]);
    assert "Original error: " + "[object Object]" == "Original error: [object Object]";
  }
}
