/** Failure-compatible result types shared by every module of the model. */
module Wrappers {

  datatype Option<+T> = None | Some(value: T) {
    function GetOr(default: T): T {
      match this
      case Some(v) => v
      case None => default
    }
  }

  /** The errors the services throw, named by what the source's message says. */
  datatype Error =
    | UnitNotFound(uuid: string)        // "單位不存在"
    | InvalidSidcLength(sidc: string)   // "SIDC 長度錯誤"
    | NoSceneLoaded                     // "沒有載入場景"
    | UnitNotInScene(uuid: string)      // "場景中找不到單位"
    | NullCurrentUnit                   // TypeError: reading `uuid` of a null currentUnit

  datatype Result<+T> = Ok(value: T) | Err(error: Error) {
    predicate IsFailure() { Err? }
    function PropagateFailure<U>(): Result<U>
      requires Err?
    {
      Err(error)
    }
    function Extract(): T
      requires Ok?
    {
      value
    }
  }

  /** Like Result, for operations that return nothing on success. */
  datatype Outcome = Pass | Fail(error: Error) {
    predicate IsFailure() { Fail? }
    function PropagateFailure(): Outcome
      requires Fail?
    {
      this
    }
  }
}
