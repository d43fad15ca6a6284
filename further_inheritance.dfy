/** The second example (customErrorsExtending.js:50-95): `PropertyRequiredError`
    specialises `ValidationError` and records the missing property;
    `readUser` throws it for the first missing field, and the catch chain
    reports its message, name and property. */
module FurtherInheritance {
  import opened JsRuntime
  import opened UserErrors
  import opened RequiredFields
  import opened Dispatcher

  const ValidationErrorClass := Class(ValidationError, Some(ErrorClass))
  const PropertyRequiredErrorClass := Class(PropertyRequiredError, Some(ValidationErrorClass))

  /** `super(message)`, then `this.name = 'ValidationError'`. */
  function ConstructValidationError(self: Class, message: string): (e: ErrorObject)
    ensures e.cls == self && e.message == message
    ensures e.name == "ValidationError" != ConstructError(self, message).name
    ensures e.property == None && e.cause == None
  {
    ConstructError(self, message).(name := "ValidationError")
  }

  function NewValidationError(message: string): (e: ErrorObject)
    ensures e.message == message && NameIsSelf(e) && e.property == None
    ensures InstanceOf(e, ValidationErrorClass) && InstanceOf(e, ErrorClass)
    ensures !InstanceOf(e, PropertyRequiredErrorClass)
  {
    ConstructValidationError(ValidationErrorClass, message)
  }

  /** `super('No property: ' + property)`, then the name, then the property:
      the name `ValidationError`'s constructor wrote is overwritten. */
  function ConstructPropertyRequiredError(self: Class, property: string): (e: ErrorObject)
    ensures e.cls == self && e.message == "No property: " + property
    ensures e.name == "PropertyRequiredError" != ConstructValidationError(self, e.message).name
    ensures e.property == Some(property) && e.cause == None
  {
    ConstructValidationError(self, "No property: " + property)
      .(name := "PropertyRequiredError")
      .(property := Some(property))
  }

  /** `new PropertyRequiredError(property)`: an instance of its own class and
      of both ancestors, named after itself. */
  function NewPropertyRequiredError(property: string): (e: ErrorObject)
    ensures e.property == Some(property) && e.message == "No property: " + property
    ensures NameIsSelf(e) && e.name == "PropertyRequiredError"
    ensures InstanceOf(e, PropertyRequiredErrorClass)
    ensures InstanceOf(e, ValidationErrorClass) && InstanceOf(e, ErrorClass)
    ensures !InstanceOf(e, NativeSyntaxErrorClass)
  {
    ConstructPropertyRequiredError(PropertyRequiredErrorClass, property)
  }

  /** `readUser(json)`: parse, then `age`, then `name`. */
  function ReadUser(decode: Decoder, json: string): (r: Completion<JsonValue>)
    ensures decode(json).Rejected? ==>
      r == Throw(NativeErrorOf(NativeSyntaxErrorClass, decode(json).text))
    ensures decode(json) == Parsed(JNull) ==> r == Throw(NullRead("age"))
    ensures decode(json).Parsed? && !decode(json).value.JNull? ==>
      var user := decode(json).value;
      match FirstMissing(user)
      case None => r == Normal(user)
      case Some(field) => r == Throw(NewPropertyRequiredError(field))
  {
    var user :- JsonParse(decode, json);
    FirstMissingCases(user);
    var age :- Get(user, "age");
    if !Truthy(age) then Throw(NewPropertyRequiredError("age"))
    else
      match Get(user, "name")
      case Throw(err) => Throw(err)
      case Normal(name) =>
        if !Truthy(name) then Throw(NewPropertyRequiredError("name"))
        else Normal(user)
  }

  /** The `catch (err)` block of lines 84-94; a normal completion carries
      the lines it logs. */
  function HandleReadUserError(err: ErrorObject): (r: Completion<seq<string>>)
    ensures r.Throw? <==> !InstanceOf(err, ValidationErrorClass) && !InstanceOf(err, NativeSyntaxErrorClass)
    ensures r.Throw? ==> r.error == err
    ensures InstanceOf(err, ValidationErrorClass) ==>
      r == Normal(["Invalid data: " + err.message, err.name, Show(err.property)])
    ensures !InstanceOf(err, ValidationErrorClass) && InstanceOf(err, NativeSyntaxErrorClass) ==>
      r == Normal(["JSON Syntax Error: " + err.message])
  {
    if InstanceOf(err, ValidationErrorClass) then
      Normal(["Invalid data: " + err.message, err.name, Show(err.property)])
    else if InstanceOf(err, NativeSyntaxErrorClass) then
      Normal(["JSON Syntax Error: " + err.message])
    else
      Throw(err)
  }

  function CatchTable(): seq<Rule<seq<string>>> {
    [ Rule(ValidationErrorClass,
           (e: ErrorObject) => Normal(["Invalid data: " + e.message, e.name, Show(e.property)])),
      Rule(NativeSyntaxErrorClass, (e: ErrorObject) => Normal(["JSON Syntax Error: " + e.message])) ]
  }

  lemma HandlerIsDispatch(err: ErrorObject)
    ensures HandleReadUserError(err) == Dispatch(CatchTable(), err)
  {
  }

  /** The `try { readUser(json) } catch …` statement of lines 82-94. */
  function TryReadUser(decode: Decoder, json: string): (r: Completion<seq<string>>)
    ensures r.Throw? ==> ReadUser(decode, json) == Throw(r.error)
    ensures r.Throw? <==>
      && ReadUser(decode, json).Throw?
      && !InstanceOf(ReadUser(decode, json).error, ValidationErrorClass)
      && !InstanceOf(ReadUser(decode, json).error, NativeSyntaxErrorClass)
  {
    match ReadUser(decode, json)
    case Normal(_) => Normal([])
    case Throw(err) => HandleReadUserError(err)
  }

  /** The comments on lines 86-88: message, name and property of the error
      `{ "age": 25 }` provokes. */
  lemma AgeOnlyLogsPropertyName(decode: Decoder)
    requires decode("{ \"age\": 25 }") == Parsed(JObject(map["age" := JNumber(25.0)]))
    ensures TryReadUser(decode, "{ \"age\": 25 }") ==
      Normal(["Invalid data: No property: name", "PropertyRequiredError", "name"])
  {
    var user := JObject(map["age" := JNumber(25.0)]);
    assert Present(user, "age") && !Present(user, "name");
    FirstMissingCases(user);
    var err := NewPropertyRequiredError("name");
    assert err.message == "No property: name";
    assert HandleReadUserError(err) == Normal(["Invalid data: " + err.message, err.name, Show(err.property)]);
    assert "Invalid data: " + err.message == "Invalid data: No property: name";
  }

  /** Falsy means missing: an `age` of 0 is reported before a present `name`. */
  lemma ZeroAgeIsMissing(decode: Decoder, json: string)
    requires decode(json) == Parsed(JObject(map["age" := JNumber(0.0), "name" := JString("John")]))
    ensures ReadUser(decode, json) == Throw(NewPropertyRequiredError("age"))
  {
  }
}
