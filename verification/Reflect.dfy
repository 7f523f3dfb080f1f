/** `internal/arrangereflect/safe.go`. */
module Reflect {

  /** A value of an interface type: no dynamic type at all, a nil of some nilable dynamic
      type, a non-nil of a nilable type, or a value of a type that has no nil. */
  datatype Value<T> =
    | Untyped
    | TypedNil
    | Reference(v: T)
    | Plain(v: T)

  /** `reflect.Value.IsNil`, which panics on types without a nil. */
  datatype IsNilOutcome = Returned(isNil: bool) | Panics

  function IsNil<T>(v: Value<T>): IsNilOutcome {
    match v
    case Plain(_) => Panics
    case Reference(_) => Returned(false)
    case _ => Returned(true)
  }

  /** A value whose methods can be called. */
  predicate Usable<T>(v: Value<T>) {
    v.Reference? || v.Plain?
  }

  function Defaulted<T>(candidate: Value<T>, def: Value<T>): (r: Value<T>)
    ensures Usable(def) ==> Usable(r)
  {
    if Usable(candidate) then candidate else def
  }

  method Safe<T>(candidate: Value<T>, def: Value<T>) returns (result: Value<T>)
    ensures result == Defaulted(candidate, def)
    ensures result == if candidate.Untyped? || candidate.TypedNil? then def else candidate
  {
    result := def;
    if !candidate.Untyped? {
      match IsNil(candidate)
      case Panics => result := candidate;
      case Returned(isNil) =>
        if !isNil {
          result := candidate;
        }
    }
  }
}
