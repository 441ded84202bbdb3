/** C# nullable values (`T?`) and the null-coalescing operator `??`. */
module Nullable {

  /** A value of a nullable C# type: `None` stands for `null`. */
  datatype Option<T> = None | Some(value: T)

  /** `x ?? fallback` where `fallback` is of the non-nullable type `T`:
      the value of `x` when `x` is not null, otherwise `fallback`. */
  function Coalesce<T>(x: Option<T>, fallback: T): T
  {
    match x
    case Some(v) => v
    case None => fallback
  }

  /** `x ?? fallback` where `fallback` is itself nullable: the result is null
      only when both operands are. */
  function OrElse<T>(x: Option<T>, fallback: Option<T>): Option<T>
  {
    match x
    case Some(_) => x
    case None => fallback
  }
}
