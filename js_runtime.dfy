/** The parts of the JavaScript runtime that the error examples lean on:
    classes and `instanceof`, error objects, completions (`throw`),
    parsed JSON values with their truthiness, `JSON.parse` as an opaque
    decoder, and the string conversion of an error. */
module JsRuntime {

  datatype Option<+T> = None | Some(value: T)

  /** Every class that the examples declare or that the engine throws.
      The `Native…` kinds are the engine's own global classes; the others
      are declared in customErrorsExtending.js (its `Error` shadows the
      global one). */
  datatype Kind =
    | Error
    | ValidationError
    | PropertyRequiredError
    | MyError
    | ReadError
    | SyntaxError
    | FormatError
    | NativeError
    | NativeSyntaxError
    | NativeTypeError

  /** The identifier a class is declared with, i.e. `this.constructor.name`. */
  function ClassName(k: Kind): string {
    match k
    case Error => "Error"
    case ValidationError => "ValidationError"
    case PropertyRequiredError => "PropertyRequiredError"
    case MyError => "MyError"
    case ReadError => "ReadError"
    case SyntaxError => "SyntaxError"
    case FormatError => "FormatError"
    case NativeError => "Error"
    case NativeSyntaxError => "SyntaxError"
    case NativeTypeError => "TypeError"
  }

  /** A class together with the class it `extends` (its prototype chain). */
  datatype Class = Class(kind: Kind, base: Option<Class>)

  /** `c` is `target` or extends it, directly or through ancestors. */
  predicate Inherits(c: Class, target: Class)
    decreases c
  {
    c == target || (c.base.Some? && Inherits(c.base.value, target))
  }

  /** Length of the prototype chain. */
  function Depth(c: Class): nat
    decreases c
  {
    if c.base.None? then 1 else 1 + Depth(c.base.value)
  }

  /** The class at the top of the chain, the one that extends nothing. */
  function Root(c: Class): (r: Class)
    decreases c
    ensures r.base.None? && Inherits(c, r)
  {
    if c.base.None? then c else Root(c.base.value)
  }

  /** An error object: the fields the constructors assign. `cls` is the
      class `new` was applied to; `property` and `cause` are absent
      (`undefined`) unless a constructor assigns them. */
  datatype ErrorObject = ErrorObject(
    cls: Class,
    message: string,
    name: string,
    property: Option<string>,
    cause: Option<ErrorObject>)

  /** `e instanceof c`. */
  predicate InstanceOf(e: ErrorObject, c: Class) {
    Inherits(e.cls, c)
  }

  /** The invariant "name is the object's own class name". */
  predicate NameIsSelf(e: ErrorObject) {
    e.name == ClassName(e.cls.kind)
  }

  /** How a statement completes: normally with a value, or by throwing. */
  datatype Completion<+T> = Normal(value: T) | Throw(error: ErrorObject) {
    predicate IsFailure() {
      Throw?
    }

    function PropagateFailure<U>(): Completion<U>
      requires Throw?
    {
      Throw(error)
    }

    function Extract(): T
      requires Normal?
    {
      value
    }
  }

  // ---------------------------------------------------------------------
  // The engine's own error classes

  const NativeErrorClass := Class(NativeError, None)
  const NativeSyntaxErrorClass := Class(NativeSyntaxError, Some(NativeErrorClass))
  const NativeTypeErrorClass := Class(NativeTypeError, Some(NativeErrorClass))

  /** An error the engine throws: its `name` comes from the class's prototype. */
  function NativeErrorOf(cls: Class, message: string): ErrorObject {
    ErrorObject(cls, message, ClassName(cls.kind), None, None)
  }

  predicate IsNative(c: Class) {
    Root(c) == NativeErrorClass
  }

  // ---------------------------------------------------------------------
  // Parsed JSON and property reads

  /** A value `JSON.parse` can produce (numbers as reals). */
  datatype JsonValue =
    | JNull
    | JBool(b: bool)
    | JNumber(n: real)
    | JString(s: string)
    | JArray(items: seq<JsonValue>)
    | JObject(fields: map<string, JsonValue>)

  /** The result of reading a property: `undefined` or a value. */
  datatype Property = Undefined | Defined(v: JsonValue)

  /** JavaScript truthiness; `NaN` cannot come out of JSON. */
  predicate Truthy(p: Property) {
    match p
    case Undefined => false
    case Defined(v) =>
      match v
      case JNull => false
      case JBool(b) => b
      case JNumber(n) => n != 0.0
      case JString(s) => s != ""
      case JArray(_) => true
      case JObject(_) => true
  }

  /** `v[key]` for a `v` that is not `null`: own fields of objects only. */
  function Lookup(v: JsonValue, key: string): Property {
    if v.JObject? && key in v.fields then Defined(v.fields[key]) else Undefined
  }

  /** The TypeError thrown by reading `key` of `null` (V8's wording). */
  function NullRead(key: string): ErrorObject {
    NativeErrorOf(NativeTypeErrorClass, "Cannot read properties of null (reading '" + key + "')")
  }

  /** `v.key`: throws a TypeError on `null`, otherwise never throws. */
  function Get(v: JsonValue, key: string): (r: Completion<Property>)
    ensures r.Throw? <==> v.JNull?
    ensures r.Throw? ==> r.error == NullRead(key) && IsNative(r.error.cls)
    ensures r.Normal? ==> r.value == Lookup(v, key)
  {
    if v.JNull? then Throw(NullRead(key)) else Normal(Lookup(v, key))
  }

  // ---------------------------------------------------------------------
  // JSON.parse

  /** What a JSON parser makes of a text: a value, or its fault description. */
  datatype ParseOutcome = Parsed(value: JsonValue) | Rejected(text: string)

  /** The parser itself is not modelled; every use takes it as a parameter. */
  type Decoder = string -> ParseOutcome

  /** `JSON.parse(json)`: a failure is thrown as a native SyntaxError whose
      message is the parser's text, unchanged. */
  function JsonParse(decode: Decoder, json: string): (r: Completion<JsonValue>)
    ensures decode(json).Parsed? <==> r.Normal?
    ensures r.Normal? ==> r.value == decode(json).value
    ensures r.Throw? ==>
      && r.error.cls == NativeSyntaxErrorClass
      && r.error.message == decode(json).text
      && r.error.name == "SyntaxError"
  {
    match decode(json)
    case Parsed(v) => Normal(v)
    case Rejected(text) => Throw(NativeErrorOf(NativeSyntaxErrorClass, text))
  }

  // ---------------------------------------------------------------------
  // String conversion (`'…' + err`)

  /** `Error.prototype.toString`: name and message joined by ": ", either
      alone when the other is empty. */
  function ErrorToString(e: ErrorObject): string {
    if e.name == "" then e.message
    else if e.message == "" then e.name
    else e.name + ": " + e.message
  }

  /** `'' + e`. Objects of the user-declared classes do not inherit the
      engine's `Error.prototype` and convert as a plain object. */
  function ToString(e: ErrorObject): (s: string)
    ensures IsNative(e.cls) && e.name != "" && e.message != "" ==> s == e.name + ": " + e.message
    ensures !IsNative(e.cls) ==> s == "[object Object]"
  {
    if IsNative(e.cls) then ErrorToString(e) else "[object Object]"
  }

  /** `'' + x` for a field that may be `undefined`. */
  function CauseToString(c: Option<ErrorObject>): string {
    match c
    case None => "undefined"
    case Some(e) => ToString(e)
  }

  /** `console.log` of a field that may be `undefined`. */
  function Show(p: Option<string>): string {
    match p
    case None => "undefined"
    case Some(s) => s
  }

  // ---------------------------------------------------------------------
  // The specialisation relation is a partial order, and chains never mix roots

  lemma {:induction false} InheritsTransitive(a: Class, b: Class, c: Class)
    requires Inherits(a, b) && Inherits(b, c)
    ensures Inherits(a, c)
    decreases a
  {
    if a != b {
      InheritsTransitive(a.base.value, b, c);
    }
  }

  /** An ancestor is never deeper than its descendant, and one of equal depth is the class itself. */
  lemma {:induction false} InheritsDepth(a: Class, b: Class)
    requires Inherits(a, b)
    ensures Depth(b) <= Depth(a)
    ensures Depth(b) == Depth(a) ==> a == b
    decreases a
  {
    if a != b {
      InheritsDepth(a.base.value, b);
    }
  }

  lemma {:induction false} InheritsAntisymmetric(a: Class, b: Class)
    requires Inherits(a, b) && Inherits(b, a)
    ensures a == b
  {
    InheritsDepth(a, b);
    InheritsDepth(b, a);
  }

  /** Specialisation goes one way: a proper descendant is never an ancestor. */
  lemma InheritsOneWay(sub: Class, sup: Class)
    requires Inherits(sub, sup) && sub != sup
    ensures !Inherits(sup, sub)
  {
    if Inherits(sup, sub) {
      InheritsAntisymmetric(sub, sup);
    }
  }

  /** A class and every one of its ancestors share the same root. */
  lemma {:induction false} InheritsSameRoot(a: Class, b: Class)
    requires Inherits(a, b)
    ensures Root(a) == Root(b)
    decreases a
  {
    if a != b {
      InheritsSameRoot(a.base.value, b);
    }
  }

  /** No engine error is an instance of a class under the user-declared root
      and vice versa: a catch branch naming a user class never catches it. */
  lemma RootsSeparateInstances(e: ErrorObject, c: Class)
    requires Root(e.cls) != Root(c)
    ensures !InstanceOf(e, c)
  {
    if InstanceOf(e, c) {
      InheritsSameRoot(e.cls, c);
    }
  }
}
