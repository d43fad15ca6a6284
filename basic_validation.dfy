/** The first example (customErrorsExtending.js:13-47): a `ValidationError`
    subclass, a `readUser` that throws it for the first missing field, and
    a catch chain that reports validation and syntax errors and re-throws
    anything else. */
module BasicValidation {
  import opened JsRuntime
  import opened UserErrors
  import opened RequiredFields
  import opened Dispatcher

  const ValidationErrorClass := Class(ValidationError, Some(ErrorClass))

  /** `super(message)`, then `this.name = 'ValidationError'`. */
  function ConstructValidationError(self: Class, message: string): (e: ErrorObject)
    ensures e.cls == self && e.message == message
    ensures e.name == "ValidationError" != ConstructError(self, message).name
  {
    ConstructError(self, message).(name := "ValidationError")
  }

  /** `new ValidationError(message)`: the class's own name wins over `'Error'`. */
  function NewValidationError(message: string): (e: ErrorObject)
    ensures e.message == message && NameIsSelf(e) && e.name == "ValidationError"
    ensures InstanceOf(e, ValidationErrorClass) && InstanceOf(e, ErrorClass)
    ensures !InstanceOf(e, NativeSyntaxErrorClass)
  {
    ConstructValidationError(ValidationErrorClass, message)
  }

  /** `readUser(json)`: parse, then `age`, then `name`. */
  function ReadUser(decode: Decoder, json: string): (r: Completion<JsonValue>)
    ensures decode(json).Rejected? ==>
      r == Throw(NativeErrorOf(NativeSyntaxErrorClass, decode(json).text))
    ensures decode(json) == Parsed(JNull) ==> r == Throw(NullRead("age"))
    ensures decode(json).Parsed? && !decode(json).value.JNull? ==>
      var user := decode(json).value;
      match FirstMissing(user)
      case None => r == Normal(user)
      case Some(field) => r == Throw(NewValidationError("No field: " + field))
  {
    var user :- JsonParse(decode, json);
    FirstMissingCases(user);
    var age :- Get(user, "age");
    if !Truthy(age) then Throw(NewValidationError("No field: age"))
    else
      match Get(user, "name")
      case Throw(err) => Throw(err)
      case Normal(name) =>
        if !Truthy(name) then Throw(NewValidationError("No field: name"))
        else Normal(user)
  }

  /** The `catch (err)` block of lines 38-46; a normal completion carries
      the lines it logs. */
  function HandleReadUserError(err: ErrorObject): (r: Completion<seq<string>>)
    ensures r.Throw? <==> !InstanceOf(err, ValidationErrorClass) && !InstanceOf(err, NativeSyntaxErrorClass)
    ensures r.Throw? ==> r.error == err
    ensures InstanceOf(err, ValidationErrorClass) ==> r == Normal(["Invalid data: " + err.message])
    ensures !InstanceOf(err, ValidationErrorClass) && InstanceOf(err, NativeSyntaxErrorClass) ==>
      r == Normal(["JSON Syntax Error: " + err.message])
  {
    if InstanceOf(err, ValidationErrorClass) then
      Normal(["Invalid data: " + err.message])
    else if InstanceOf(err, NativeSyntaxErrorClass) then
      Normal(["JSON Syntax Error: " + err.message])
    else
      Throw(err)
  }

  /** The same chain as a rule table. */
  function CatchTable(): seq<Rule<seq<string>>> {
    [ Rule(ValidationErrorClass, (e: ErrorObject) => Normal(["Invalid data: " + e.message])),
      Rule(NativeSyntaxErrorClass, (e: ErrorObject) => Normal(["JSON Syntax Error: " + e.message])) ]
  }

  lemma HandlerIsDispatch(err: ErrorObject)
    ensures HandleReadUserError(err) == Dispatch(CatchTable(), err)
  {
  }

  /** The `try { readUser(json) } catch …` statement of lines 36-47. */
  function TryReadUser(decode: Decoder, json: string): (r: Completion<seq<string>>)
    ensures r.Throw? ==> ReadUser(decode, json) == Throw(r.error)
    ensures r.Throw? <==>
      && ReadUser(decode, json).Throw?
      && !InstanceOf(ReadUser(decode, json).error, ValidationErrorClass)
      && !InstanceOf(ReadUser(decode, json).error, NativeSyntaxErrorClass)
  {
    match ReadUser(decode, json)
    case Normal(_) => Normal([])
    case Throw(err) => HandleReadUserError(err)
  }

  /** The comment on line 40: `{ "age": 25 }` logs "Invalid data: No field: name". */
  lemma AgeOnlyLogsMissingName(decode: Decoder)
    requires decode("{ \"age\": 25 }") == Parsed(JObject(map["age" := JNumber(25.0)]))
    ensures TryReadUser(decode, "{ \"age\": 25 }") == Normal(["Invalid data: No field: name"])
  {
    var user := JObject(map["age" := JNumber(25.0)]);
    assert Present(user, "age") && !Present(user, "name");
    FirstMissingCases(user);
    var err := NewValidationError("No field: name");
    assert ReadUser(decode, "{ \"age\": 25 }") == Throw(err);
    assert err.message == "No field: name";
    assert InstanceOf(err, ValidationErrorClass);
    assert HandleReadUserError(err) == Normal(["Invalid data: " + err.message]);
    assert "Invalid data: " + err.message == "Invalid data: No field: name";
  }

  /** A parse failure is reported with the parser's own text. */
  lemma ParseFailureLogsParserText(decode: Decoder, json: string)
    requires decode(json).Rejected?
    ensures TryReadUser(decode, json) == Normal(["JSON Syntax Error: " + decode(json).text])
  {
  }

  /** `null` parses, but reading `null.age` throws a TypeError that no
      branch catches: it leaves the statement unchanged. */
  lemma NullInputEscapes(decode: Decoder, json: string)
    requires decode(json) == Parsed(JNull)
    ensures TryReadUser(decode, json) == Throw(NullRead("age"))
  {
  }
}
