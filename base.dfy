/** Value wrappers shared by every view-model: an optional value (a TypeScript `T | null`)
    and the reply of one backend call. */
module Base {

  /** `T | null` in the source. */
  datatype Option<+T> = None | Some(value: T) {
    function GetOr(default: T): T {
      match this
      case Some(v) => v
      case None => default
    }
  }

  /** What one awaited backend call produced, as seen by the handler that awaited it:
      `Ok` is a reply without `error`, `Failed` is a reply whose `error` is set (with that
      error's message), `Threw` is a rejected promise. */
  datatype Reply<+T> = Ok(value: T) | Failed(message: string) | Threw
}
