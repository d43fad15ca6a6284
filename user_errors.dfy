/** The file's own `class Error` (customErrorsExtending.js:5-11), which
    shadows the engine's global `Error` and is the root of every class the
    examples declare. */
module UserErrors {
  import opened JsRuntime

  const ErrorClass := Class(Error, None)

  /** The body of `Error`'s constructor run for an object of class `self`
      (a subclass's `super(message)` call runs it with `self` the subclass):
      `message` is stored, then `name` is set to `'Error'`. */
  function ConstructError(self: Class, message: string): (e: ErrorObject)
    ensures e.cls == self && e.message == message
    ensures e.name == "Error"
    ensures e.property == None && e.cause == None
  {
    ErrorObject(self, message, "Error", None, None)
  }

  /** `new Error(message)`. */
  function NewError(message: string): (e: ErrorObject)
    ensures e.message == message && e.name == "Error" && NameIsSelf(e)
    ensures InstanceOf(e, ErrorClass) && !IsNative(e.cls)
  {
    ConstructError(ErrorClass, message)
  }

  /** Every class the examples declare descends from this `Error`, so none
      of their objects is an instance of an engine class and none of the
      engine's errors is an instance of theirs. */
  lemma UserAndNativeDisjoint(e: ErrorObject, c: Class)
    requires InstanceOf(e, ErrorClass) && IsNative(c)
    ensures !InstanceOf(e, c) && !IsNative(e.cls)
  {
    InheritsSameRoot(e.cls, ErrorClass);
    RootsSeparateInstances(e, c);
  }
}
