# Custom JavaScript errors: taxonomy, validation and catch chains

This project models `customErrorsExtending.js`, a set of worked examples of
custom JavaScript errors, in Dafny, and proves what the examples promise.
The file declares its own `Error` class, which shadows the engine's global
one. On top of it the examples build `ValidationError`,
`PropertyRequiredError`, `MyError`, `ReadError`, `SyntaxError` and
`FormatError`. Two functions, `readUser` and `validateUser`, throw one of
these errors for the first required field (`age`, then `name`) that is falsy.
Hand-written `catch` blocks then classify each error with `instanceof`. Each
block reports the error, wraps it in a `ReadError` that keeps it as `cause`,
or re-throws it.

How the JavaScript is represented:

- **Classes and `instanceof`.** A class is a value `Class(kind, base)`, where
  `base` is the class it `extends`. `InstanceOf(e, C)` walks that chain, as
  `instanceof` walks the prototype chain. The relation is proved to be a
  partial order (transitive, antisymmetric, one-way). The file's own class
  tree and the engine's error classes are proved never to mix
  (`js_runtime.dfy`, `user_errors.dfy`).
- **Constructors.** Each constructor is a function of `self`, the class `new`
  was applied to. It first runs the parent constructor, then updates the
  record in the source's assignment order. So the last assignment to `name`
  wins, exactly as in the code. `this.constructor.name` is
  `ClassName(self.kind)`.
- **`throw`.** Throwing is a `Completion<T>`: either `Normal(value)` or
  `Throw(error)`. The `:-` operator propagates a throw, as an uncaught
  exception unwinds.
- **`JSON.parse`.** The parser is a `Decoder` parameter. A parse failure is
  thrown as the engine's `SyntaxError`, and its message is the parser's text,
  unchanged.
- **Reading `null`.** Reading `user.age` when `user` is `null` throws the
  engine's `TypeError`. No catch chain recognises it, so it is the model's
  concrete "unknown error, rethrow it" case.
- **One scope per module.** Each example block of the file is one module:
  `BasicValidation` (lines 13-47), `FurtherInheritance` (50-95),
  `Autonaming` (97-117), `WrappingExceptions` (120-181) and `FormatErrors`
  (201-225).
- **The dispatch rule, stated once.** `Dispatcher.Dispatch` tries a rule table
  top to bottom and re-throws when no rule matches. Every hand-written catch
  chain is proved equal to `Dispatch` over its own table.
- **What is logged.** A catch block that recovers completes normally with the
  lines it would log. The comments' expected output then becomes a proved
  equality.

Three points where the model follows the code rather than a general error taxonomy:

- The code's `ReadError` has no boundary tag. It has only `message` and
  `cause`.
- `name` is assigned several times during construction, not once.
- The `FormatError` of lines 201-225 extends the file's own `SyntaxError`
  class. It is not the error `JSON.parse` throws.

## Model

| member | source | states |
|---|---|---|
| JsRuntime.Get | customErrorsExtending.js:24-29 | reading a field throws a TypeError exactly when the parsed value is `null`; otherwise it yields the object's own field or `undefined` |
| JsRuntime.JsonParse | customErrorsExtending.js:22 | parsing succeeds exactly when the decoder does, returning the decoder's value; a failure is thrown as the engine's SyntaxError whose message is the parser's text verbatim |
| JsRuntime.ToString | customErrorsExtending.js:176 | an engine error whose name and message are both non-empty converts to `name: message`; an object of the file's own classes converts to `[object Object]` |
| JsRuntime.InheritsTransitive | customErrorsExtending.js:106-108 | an instance of a subclass of a subclass is an instance of the grand-ancestor |
| JsRuntime.InheritsDepth | customErrorsExtending.js:58 | an ancestor's chain is never longer than its descendant's, and equally long only for the class itself |
| JsRuntime.InheritsAntisymmetric | customErrorsExtending.js:58 | two classes that each extend the other are the same class |
| JsRuntime.InheritsOneWay | customErrorsExtending.js:58-64 | a proper subclass is never an ancestor of its ancestor (every PropertyRequiredError is a ValidationError, not conversely) |
| JsRuntime.InheritsSameRoot | customErrorsExtending.js:5-13 | a class and each of its ancestors descend from the same root class |
| JsRuntime.RootsSeparateInstances | customErrorsExtending.js:44-46 | an error under one root is an instance of no class under another root |
| UserErrors.ConstructError | customErrorsExtending.js:5-10 | the base constructor stores `message` verbatim, sets `name` to `'Error'` and leaves `property` and `cause` undefined |
| UserErrors.NewError | customErrorsExtending.js:5-10 | `new Error(m)` has message `m`, name `'Error'` (its own class name), and is an `Error` but not an engine error |
| UserErrors.UserAndNativeDisjoint | customErrorsExtending.js:5-11 | no object of the file's `Error` tree is an instance of an engine error class |
| Dispatcher.UncaughtIsRethrown | customErrorsExtending.js:44-46 | an error no rule catches leaves the catch block unchanged, whatever the table |
| Dispatcher.FirstMatchFires | customErrorsExtending.js:39-46 | the first rule in table order that catches the error is the one applied, even if later rules also catch it |
| Dispatcher.DispatchIsTotal | customErrorsExtending.js:84-94 | every error either reaches the handler of its first catching rule or is re-thrown unchanged |
| RequiredFields.FirstFalsySpec | customErrorsExtending.js:24-31 | the reported field is the first falsy one in declared order (both directions), and none is reported exactly when all are truthy |
| RequiredFields.FirstMissingCases | customErrorsExtending.js:70-75 | with the fields `age`, `name`: `age` is reported when falsy, else `name` when falsy, else nothing |
| BasicValidation.ConstructValidationError | customErrorsExtending.js:13-18 | after `super`, the name `'Error'` is overwritten with `'ValidationError'`; message kept |
| BasicValidation.NewValidationError | customErrorsExtending.js:13-18 | `new ValidationError(m)` is named after itself, keeps `m`, is a ValidationError and an Error, and not an engine SyntaxError |
| BasicValidation.ReadUser | customErrorsExtending.js:21-32 | a parse failure escapes as exactly the engine SyntaxError carrying the parser's text; `null` throws a TypeError; otherwise the first missing field is reported as `ValidationError('No field: ' + field)`, and with none missing the parsed record is returned unchanged |
| BasicValidation.HandleReadUserError | customErrorsExtending.js:38-46 | ValidationErrors are reported first, then SyntaxErrors; exactly the others are re-thrown, unchanged |
| BasicValidation.HandlerIsDispatch | customErrorsExtending.js:39-46 | the catch block equals the ordered table ValidationError, SyntaxError |
| BasicValidation.TryReadUser | customErrorsExtending.js:36-47 | the try statement throws exactly when `readUser` throws an error that is neither a ValidationError nor a SyntaxError, and then throws that same error; recognised errors are recovered |
| BasicValidation.AgeOnlyLogsMissingName | customErrorsExtending.js:37-40 | `{ "age": 25 }` logs `Invalid data: No field: name` |
| BasicValidation.ParseFailureLogsParserText | customErrorsExtending.js:41-43 | unparsable input logs `JSON Syntax Error: ` followed by the parser's text |
| BasicValidation.NullInputEscapes | customErrorsExtending.js:44-46 | the TypeError from a `null` record escapes the try statement unchanged |
| FurtherInheritance.ConstructValidationError | customErrorsExtending.js:51-56 | after `super`, the name `'Error'` is overwritten with `'ValidationError'`; message kept, no property |
| FurtherInheritance.NewValidationError | customErrorsExtending.js:51-56 | `new ValidationError(m)` is named after itself, is a ValidationError and an Error, and is not a PropertyRequiredError |
| FurtherInheritance.ConstructPropertyRequiredError | customErrorsExtending.js:58-64 | message `'No property: ' + p`, the name `'ValidationError'` overwritten with `'PropertyRequiredError'`, `property == p` |
| FurtherInheritance.NewPropertyRequiredError | customErrorsExtending.js:58-64 | `new PropertyRequiredError(p)` has property `p`, message `'No property: ' + p`, its own name, and is a ValidationError and an Error |
| FurtherInheritance.ReadUser | customErrorsExtending.js:67-78 | as the first `readUser`, but the first missing field is thrown as `PropertyRequiredError(field)` |
| FurtherInheritance.HandleReadUserError | customErrorsExtending.js:84-94 | ValidationError family first (message, name, property logged), then SyntaxError; exactly the others are re-thrown unchanged |
| FurtherInheritance.HandlerIsDispatch | customErrorsExtending.js:85-93 | the catch block equals the ordered table ValidationError, SyntaxError |
| FurtherInheritance.TryReadUser | customErrorsExtending.js:82-94 | the try statement throws exactly when `readUser` throws an error that is neither a ValidationError nor a SyntaxError, and then throws that same error; recognised errors are recovered |
| FurtherInheritance.AgeOnlyLogsPropertyName | customErrorsExtending.js:83-88 | `{ "age": 25 }` logs `Invalid data: No property: name`, `PropertyRequiredError`, `name` |
| FurtherInheritance.ZeroAgeIsMissing | customErrorsExtending.js:70-72 | an `age` of 0 counts as missing and is reported even though `name` is present |
| Autonaming.ConstructMyError | customErrorsExtending.js:99-104 | for whatever class is instantiated, `name` is that class's own name; message kept |
| Autonaming.ConstructValidationError | customErrorsExtending.js:106 | the implicit constructor forwards to MyError's: name is the instantiated class's own |
| Autonaming.ConstructPropertyRequiredError | customErrorsExtending.js:108-113 | message `'No property: ' + p`, `property == p`, and the autonamed name kept |
| Autonaming.NewMyError | customErrorsExtending.js:99-104 | `new MyError(m)` is named `'MyError'` and is a MyError and an Error |
| Autonaming.NewValidationError | customErrorsExtending.js:106 | `new ValidationError(m)` is named `'ValidationError'`, is a MyError, and is not a PropertyRequiredError |
| Autonaming.NewPropertyRequiredError | customErrorsExtending.js:108-113 | `new PropertyRequiredError(p)` is named `'PropertyRequiredError'` and is an instance of all three ancestors |
| Autonaming.FieldErrorIsNamedAfterItsClass | customErrorsExtending.js:116 | `new PropertyRequiredError('field').name` is `'PropertyRequiredError'`, not the `'Error'` written first |
| WrappingExceptions.ConstructReadError | customErrorsExtending.js:121-127 | message kept, `cause` is exactly the given error, name `'ReadError'` |
| WrappingExceptions.NewReadError | customErrorsExtending.js:121-127 | `new ReadError(m, c)` keeps `c` whole as its cause, is named after itself, and is not a ValidationError or SyntaxError |
| WrappingExceptions.ValidateUser | customErrorsExtending.js:136-144 | `null` throws a TypeError; otherwise the first missing field is thrown as `PropertyRequiredError(field)`, and with none missing it completes |
| WrappingExceptions.WrapParseError | customErrorsExtending.js:151-156 | always throws: a SyntaxError becomes `ReadError('Syntax Error', err)` with `cause == err`; anything else is re-thrown unchanged |
| WrappingExceptions.WrapValidationError | customErrorsExtending.js:161-166 | always throws: a ValidationError-family error becomes `ReadError('Validation Error', err)` with `cause == err`; anything else is re-thrown unchanged |
| WrappingExceptions.WrapParseErrorIsDispatch | customErrorsExtending.js:152-156 | the parse catch block equals a one-rule table on SyntaxError |
| WrappingExceptions.WrapValidationErrorIsDispatch | customErrorsExtending.js:162-166 | the validation catch block equals a one-rule table on ValidationError |
| WrappingExceptions.ReadUser | customErrorsExtending.js:146-168 | a parse failure throws `ReadError('Syntax Error', parser's SyntaxError)`; a missing field throws `ReadError('Validation Error', PropertyRequiredError(first missing field))`; `null` lets the TypeError through; otherwise completes with `undefined` |
| WrappingExceptions.ReadErrorKeepsCause | customErrorsExtending.js:149-167 | every ReadError that leaves `readUser` carries the parser's error or the first-missing-field error as its cause; every other thrown error is the unrecognised TypeError |
| WrappingExceptions.HandleTopLevel | customErrorsExtending.js:172-180 | a ReadError is recovered and its cause reported; exactly the others are re-thrown unchanged |
| WrappingExceptions.HandleTopLevelIsDispatch | customErrorsExtending.js:173-179 | the top-level catch block equals a one-rule table on ReadError |
| WrappingExceptions.TryReadUser | customErrorsExtending.js:170-180 | the top-level try statement throws exactly when the input parses to `null`: that TypeError escapes unchanged from `readUser`, and every ReadError is recovered |
| WrappingExceptions.BadJsonShowsOriginalError | customErrorsExtending.js:170-176 | unparsable input logs `Original error: SyntaxError: ` followed by the parser's text |
| WrappingExceptions.ValidationCauseShowsPlainObject | customErrorsExtending.js:176 | for a missing field the same line shows `Original error: [object Object]` |
| FormatErrors.ConstructSyntaxError | customErrorsExtending.js:202-208 | after `super`, the name is the instantiated class's own; message kept |
| FormatErrors.NewSyntaxError | customErrorsExtending.js:202-208 | `new SyntaxError(m)` is named `'SyntaxError'`, is not a FormatError, and is not the engine's SyntaxError |
| FormatErrors.ConstructFormatErrorAsWritten | customErrorsExtending.js:210-215 | as written, the final name is `'Format Error'`; message kept |
| FormatErrors.NewFormatErrorAsWritten | customErrorsExtending.js:210-217 | as written, `new FormatError(m)` is a FormatError and a SyntaxError named `'Format Error'` |
| FormatErrors.FormatErrorNameMismatch | customErrorsExtending.js:213-220 | as written, the object of line 217 is not named `'FormatError'`, although the autonaming had produced that name before line 213 |
| FormatErrors.ConstructFormatError | customErrorsExtending.js:210-215 | corrected: the final name is `'FormatError'`; message kept, no property or cause |
| FormatErrors.NewFormatError | customErrorsExtending.js:210-217 | corrected: `new FormatError(m)` keeps `m`, is named after its own class, and is a FormatError, a SyntaxError and an Error |
| FormatErrors.CorrectionOnlyRenames | customErrorsExtending.js:213 | the correction changes `name` and nothing else |
| FormatErrors.FormattingErrorExample | customErrorsExtending.js:217-224 | with the correction, message, name and both `instanceof` checks match the comments |

## Left out

- tryCatch.js is not part of this model. It only shows `try`/`catch`
  control flow around logging, and a deliberate reference to an undefined
  variable.
- `JSON.parse` itself is not modelled. It is a parameter that yields a value
  or a fault text. The text passes through verbatim.
- Console output is not modelled. A recovering catch block returns the
  values it would log, and `console.log(e)` on line 174 is dropped.
- The `stack` property (lines 9, 206, 221) is not modelled. It is commented
  out or environment-provided.
- The elided class bodies on lines 129-134 are not modelled. The wrapping
  example uses the full definitions of lines 51-64 instead.
- Property reads see only an object's own fields. Nothing inherited from
  prototypes is seen. Only `age` and `name` are read, and no built-in
  prototype defines either.
- JSON numbers are reals, not IEEE doubles. Only their truthiness (nonzero)
  matters here.
- Class identity is structural. The `ValidationError` classes of lines 13
  and 51 are distinct classes in JavaScript but equal values here. No
  example compares objects across blocks.
- The TypeError message for reading a field of `null` uses V8's wording. No
  property depends on the wording.
- WrappingExceptions.BadJsonShowsOriginalError: it is stated for any non-empty
  parser text rather than for the literal text in the line-175 comment. That
  comment's text is one instance of it.
- Real exception unwinding, `this.constructor.name` reflection and the
  shadowing of the global `Error` are not modelled directly. They are replaced
  by `Completion`, `ClassName` and a separate root class.

## Findings

| source | as written | input that shows it | evidently intended | confidence | as-written member | corrected member |
|---|---|---|---|---|---|---|
| customErrorsExtending.js:213 | `FormatError`'s constructor sets `this.name = 'Format Error'`, which overwrites the `'FormatError'` the autonaming had set | `new FormatError('formatting error').name` is `'Format Error'` | `'FormatError'`, as the comments on lines 195 and 220 say | high; not executed | FormatErrors.FormatErrorNameMismatch | FormatErrors.NewFormatError |
