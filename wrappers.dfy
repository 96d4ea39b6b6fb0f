/** Failure-carrying values shared by every module of the model.

    JavaScript `undefined` and `null` for an optional value are both `None`;
    a thrown `Error` or a `rejectWithValue(...)` carries its message. */
module Wrappers {

  datatype Option<+T> = None | Some(value: T) {
    function GetOr(default: T): T {
      match this
      case Some(v) => v
      case None => default
    }
  }

  /** How an async operation that resolves to a value settles:
      a Redux thunk `fulfilled` with a payload or `rejected` with a message,
      a promise resolved or rejected. */
  datatype Settled<+T> = Fulfilled(payload: T) | Rejected(message: string)

  /** How an async operation that resolves to nothing settles: normally or by throwing. */
  datatype Outcome = Ok | Thrown(message: string)

  /** JavaScript's `m || d` for a message: an empty (or missing) message falls back to `d`. */
  function OrDefault(m: string, d: string): (r: string)
    ensures m != "" ==> r == m
    ensures m == "" ==> r == d
  {
    if m == "" then d else m
  }

  /** `o || d` for an optional string: only a present, non-empty string is kept. */
  function TruthyOr(o: Option<string>, d: string): (r: string)
    ensures o.Some? && o.value != "" ==> r == o.value
    ensures (o.None? || o.value == "") ==> r == d
  {
    if o.Some? && o.value != "" then o.value else d
  }

  /** A JavaScript string is truthy when it is non-empty. */
  predicate Truthy(o: Option<string>) {
    o.Some? && o.value != ""
  }
}
