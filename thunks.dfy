/** The shape every token-guarded thunk of the notification and user slices shares:
    read `auth.token`, throw `'No authentication token'` when it is falsy, otherwise
    call the service; any throw becomes `rejectWithValue(error.message || fallback)`. */
module Thunks {
  import opened Wrappers

  const NoTokenMessage: string := "No authentication token"

  /** A guarded thunk, given the answer the service would give. The flag says whether
      the service was called. */
  function Guarded<T>(token: Option<string>, answer: Settled<T>, fallback: string): (r: (Settled<T>, bool))
    ensures !Truthy(token) ==> r == (Rejected(NoTokenMessage), false)
    ensures Truthy(token) ==> r.1
    ensures Truthy(token) && answer.Fulfilled? ==> r.0 == answer
    ensures Truthy(token) && answer.Rejected? ==> r.0 == Rejected(OrDefault(answer.message, fallback))
    ensures r.0.Rejected? ==> r.0.message != "" || (fallback == "" && Truthy(token))
  {
    if !Truthy(token) then (Rejected(NoTokenMessage), false)
    else match answer
      case Fulfilled(_) => (answer, true)
      case Rejected(m) => (Rejected(OrDefault(m, fallback)), true)
  }

  /** An unguarded thunk: the service answer, with the fallback message on a throw. */
  function Unguarded<T>(answer: Settled<T>, fallback: string): (r: Settled<T>)
    ensures answer.Fulfilled? ==> r == answer
    ensures answer.Rejected? ==> r == Rejected(OrDefault(answer.message, fallback))
  {
    match answer
    case Fulfilled(_) => answer
    case Rejected(m) => Rejected(OrDefault(m, fallback))
  }

  /** A service call that resolves to nothing, followed by `return value`. */
  function Returning<T>(o: Outcome, value: T): (r: Settled<T>)
    ensures o.Ok? ==> r == Fulfilled(value)
    ensures o.Thrown? ==> r == Rejected(o.message)
  {
    match o
    case Ok => Fulfilled(value)
    case Thrown(m) => Rejected(m)
  }

  /** Whatever the service would answer, without a token the outcome is the same. */
  lemma NoTokenIgnoresService<T>(token: Option<string>, a1: Settled<T>, a2: Settled<T>, f1: string, f2: string)
    requires !Truthy(token)
    ensures Guarded(token, a1, f1) == Guarded(token, a2, f2)
  {
  }
}
