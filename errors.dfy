/** The typed error hierarchy of the AI engine: a base exception and three
    subclasses that add nothing to it.  Every instance carries a message and a
    details map and is raised, never updated. */
module Errors {
  import opened Wrappers
  import opened JsonValues

  /** The structured details of an error: a dictionary from names to values. */
  type Details = map<string, Value>

  /** The class an error is an instance of. */
  datatype ErrorClass =
    | AIEngineException
    | ExternalAPIError
    | ModelInferenceError
    | ValidationError

  /** The base class each class is declared with; the root has none. */
  function DeclaredParent(c: ErrorClass): Option<ErrorClass>
  {
    match c
    case AIEngineException => None
    case ExternalAPIError => Some(AIEngineException)
    case ModelInferenceError => Some(AIEngineException)
    case ValidationError => Some(AIEngineException)
  }

  /** How far a class sits below the root; each declared parent is closer. */
  function Depth(c: ErrorClass): nat
  {
    if c == AIEngineException then 0 else 1
  }

  /** `issubclass(c, base)`: `base` is `c` itself or one of its ancestors
      along the declared parents. */
  predicate IsSubclass(c: ErrorClass, base: ErrorClass)
    decreases Depth(c)
  {
    c == base || (DeclaredParent(c).Some? && IsSubclass(DeclaredParent(c).value, base))
  }

  /** An instance: its class, the `message` and `details` attributes the
      constructor sets, and `arg`, the single element of `args` that
      `Exception.__init__` receives. */
  datatype EngineError = EngineError(cls: ErrorClass, message: string, details: Details, arg: string)

  /** `str(e)`: an exception built with one argument prints as that argument. */
  function Str(e: EngineError): string
  {
    e.arg
  }

  /** Python truthiness of an optional dictionary: `None` and `{}` are false. */
  predicate Truthy(details: Option<Details>)
  {
    details.Some? && |details.value| > 0
  }

  /** `details or {}`: an omitted or `None` details argument becomes the empty
      map, and any map given (empty or not) is kept as it is. */
  function DetailsOrEmpty(details: Option<Details>): (d: Details)
    ensures details.None? ==> d == map[]
    ensures details.Some? ==> d == details.value
  {
    if Truthy(details) then details.value
    else
      assert details.Some? ==> details.value.Keys == {};
      map[]
  }

  /** `cls(message, details)` for any class of the hierarchy; all four share
      the base constructor. */
  function NewError(cls: ErrorClass, message: string, details: Option<Details> := None): (e: EngineError)
    ensures e.cls == cls
    ensures e.message == message && Str(e) == message
    ensures details.None? ==> e.details == map[]
    ensures details.Some? ==> e.details == details.value
  {
    EngineError(cls, message, DetailsOrEmpty(details), message)
  }

  /** The subclasses add no behaviour: constructing any two classes from the
      same arguments gives errors that differ only in their class. */
  lemma ConstructionIgnoresClass(c1: ErrorClass, c2: ErrorClass, message: string, details: Option<Details>)
    ensures NewError(c1, message, details).(cls := c2) == NewError(c2, message, details)
  {
  }

  /** A handler registered for the base class catches every class. */
  lemma BaseCatchesAll(c: ErrorClass)
    ensures IsSubclass(c, AIEngineException)
  {
  }

  /** The hierarchy is flat: a class is a subclass only of itself and of the
      base, so no subclass catches one of its siblings. */
  lemma SubclassesOfFlatHierarchy(c: ErrorClass, base: ErrorClass)
    ensures IsSubclass(c, base) <==> c == base || base == AIEngineException
  {
  }
}
