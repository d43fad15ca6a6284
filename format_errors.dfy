/** The last example (customErrorsExtending.js:201-225): a `SyntaxError`
    class that names itself from `this.constructor.name`, and a
    `FormatError` that extends it and then assigns its own name.

    As written, line 213 assigns `'Format Error'` (with a space) and so
    replaces the `'FormatError'` the autonaming had already produced; the
    comments on lines 195 and 220 expect `FormatError`. Both versions are
    here: `…AsWritten` is line 213 as it stands, the other assigns the
    class's own name and is the one the examples' expectations hold for. */
module FormatErrors {
  import opened JsRuntime
  import opened UserErrors

  const SyntaxErrorClass := Class(SyntaxError, Some(ErrorClass))
  const FormatErrorClass := Class(FormatError, Some(SyntaxErrorClass))

  /** `super(message)`, then `this.name = this.constructor.name`. */
  function ConstructSyntaxError(self: Class, message: string): (e: ErrorObject)
    ensures e.cls == self && e.message == message && NameIsSelf(e)
    ensures e.property == None && e.cause == None
  {
    ConstructError(self, message).(name := ClassName(self.kind))
  }

  function NewSyntaxError(message: string): (e: ErrorObject)
    ensures e.message == message && e.name == "SyntaxError"
    ensures InstanceOf(e, SyntaxErrorClass) && !InstanceOf(e, FormatErrorClass)
    ensures !IsNative(e.cls)
  {
    UserAndNativeDisjoint(ConstructSyntaxError(SyntaxErrorClass, message), NativeErrorClass);
    ConstructSyntaxError(SyntaxErrorClass, message)
  }

  /** Line 213 as written: after the autonaming, `this.name = 'Format Error'`. */
  function ConstructFormatErrorAsWritten(self: Class, message: string): (e: ErrorObject)
    ensures e.cls == self && e.message == message
    ensures e.name == "Format Error"
  {
    ConstructSyntaxError(self, message).(name := "Format Error")
  }

  function NewFormatErrorAsWritten(message: string): (e: ErrorObject)
    ensures e.message == message && e.name == "Format Error"
    ensures InstanceOf(e, FormatErrorClass) && InstanceOf(e, SyntaxErrorClass)
  {
    ConstructFormatErrorAsWritten(FormatErrorClass, message)
  }

  /** The discrepancy: the object of line 217 is named "Format Error", not
      "FormatError" as the comments on lines 195 and 220 say, and not after
      its own class; the autonaming had the expected name before line 213
      replaced it. */
  lemma FormatErrorNameMismatch()
    ensures NewFormatErrorAsWritten("formatting error").name != "FormatError"
    ensures !NameIsSelf(NewFormatErrorAsWritten("formatting error"))
    ensures ConstructSyntaxError(FormatErrorClass, "formatting error").name == "FormatError"
  {
  }

  /** The evidently intended constructor: the name assigned is `'FormatError'`. */
  function ConstructFormatError(self: Class, message: string): (e: ErrorObject)
    ensures e.cls == self && e.message == message
    ensures e.name == "FormatError"
    ensures e.property == None && e.cause == None
  {
    ConstructSyntaxError(self, message).(name := "FormatError")
  }

  /** `new FormatError(message)`: message kept, named after its own class,
      and an instance of both `FormatError` and `SyntaxError`. */
  function NewFormatError(message: string): (e: ErrorObject)
    ensures e.message == message && NameIsSelf(e) && e.name == "FormatError"
    ensures InstanceOf(e, FormatErrorClass) && InstanceOf(e, SyntaxErrorClass)
    ensures InstanceOf(e, ErrorClass) && !IsNative(e.cls)
  {
    UserAndNativeDisjoint(ConstructFormatError(FormatErrorClass, message), NativeErrorClass);
    ConstructFormatError(FormatErrorClass, message)
  }

  /** The correction touches the name and nothing else. */
  lemma CorrectionOnlyRenames(message: string)
    ensures NewFormatError(message) == NewFormatErrorAsWritten(message).(name := "FormatError")
  {
  }

  /** Lines 217-224 with the corrected constructor: message, name and both
      `instanceof` checks come out as the comments say. */
  lemma FormattingErrorExample()
    ensures var err := NewFormatError("formatting error");
      && err.message == "formatting error"
      && err.name == "FormatError"
      && InstanceOf(err, FormatErrorClass)
      && InstanceOf(err, SyntaxErrorClass)
  {
  }
}
