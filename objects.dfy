/**
 * Java objects as far as the modelled code inspects them: the set of class
 * names an object is an instance of (its class, superclasses and interfaces),
 * and an uninterpreted payload.  Runtime type tests become membership tests.
 */
module JavaObjects {

  const OBJECT_CLASS := "java.lang.Object"
  const THROWABLE := "java.lang.Throwable"

  datatype Obj = Obj(typeTags: set<string>, payload: int)

  /** `Class.isInstance`: every object is an instance of java.lang.Object. */
  predicate IsInstance(o: Obj, className: string) {
    className == OBJECT_CLASS || className in o.typeTags
  }
}
