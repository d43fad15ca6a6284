/** The third example (customErrorsExtending.js:97-117): `MyError` sets
    `name` from `this.constructor.name`, the class `new` was applied to, so
    subclasses that never assign `name` still carry their own. */
module Autonaming {
  import opened JsRuntime
  import opened UserErrors

  const MyErrorClass := Class(MyError, Some(ErrorClass))
  const ValidationErrorClass := Class(ValidationError, Some(MyErrorClass))
  const PropertyRequiredErrorClass := Class(PropertyRequiredError, Some(ValidationErrorClass))

  /** `super(message)`, then `this.name = this.constructor.name`: whatever
      class is being instantiated, the name is its own. */
  function ConstructMyError(self: Class, message: string): (e: ErrorObject)
    ensures e.cls == self && e.message == message
    ensures NameIsSelf(e)
  {
    ConstructError(self, message).(name := ClassName(self.kind))
  }

  /** `class ValidationError extends MyError {}`: the implicit constructor
      passes its arguments on to `MyError`'s. */
  function ConstructValidationError(self: Class, message: string): (e: ErrorObject)
    ensures e.cls == self && e.message == message && NameIsSelf(e)
  {
    ConstructMyError(self, message)
  }

  /** `super('No property: ' + property)`, then the property; `name` is left
      as the autonaming set it. */
  function ConstructPropertyRequiredError(self: Class, property: string): (e: ErrorObject)
    ensures e.cls == self && e.message == "No property: " + property
    ensures e.property == Some(property) && NameIsSelf(e)
  {
    ConstructValidationError(self, "No property: " + property).(property := Some(property))
  }

  function NewMyError(message: string): (e: ErrorObject)
    ensures e.message == message && e.name == "MyError"
    ensures InstanceOf(e, MyErrorClass) && InstanceOf(e, ErrorClass)
  {
    ConstructMyError(MyErrorClass, message)
  }

  function NewValidationError(message: string): (e: ErrorObject)
    ensures e.message == message && e.name == "ValidationError"
    ensures InstanceOf(e, ValidationErrorClass) && InstanceOf(e, MyErrorClass)
    ensures !InstanceOf(e, PropertyRequiredErrorClass)
  {
    ConstructValidationError(ValidationErrorClass, message)
  }

  /** `new PropertyRequiredError(property)`: named after its own class
      three constructors down, an instance of every ancestor. */
  function NewPropertyRequiredError(property: string): (e: ErrorObject)
    ensures e.name == "PropertyRequiredError"
    ensures e.message == "No property: " + property && e.property == Some(property)
    ensures InstanceOf(e, PropertyRequiredErrorClass) && InstanceOf(e, ValidationErrorClass)
    ensures InstanceOf(e, MyErrorClass) && InstanceOf(e, ErrorClass)
  {
    ConstructPropertyRequiredError(PropertyRequiredErrorClass, property)
  }

  /** Line 116: `new PropertyRequiredError('field').name` is
      `'PropertyRequiredError'`, not the `'Error'` the root constructor wrote. */
  lemma FieldErrorIsNamedAfterItsClass()
    ensures NewPropertyRequiredError("field").name == "PropertyRequiredError"
    ensures ConstructError(PropertyRequiredErrorClass, "No property: field").name == "Error"
  {
  }
}
