/** Values that stand in for JavaScript's `null`/`undefined` and for the
    outcome of a call into an SDK the model cannot see (Firestore, Firebase
    Auth, Stripe, fetch). Every such call becomes a parameter of the
    operation that makes it. */
module Outcomes {

  /** `null`/`undefined` versus a present value. */
  datatype Option<+T> = None | Some(value: T) {
    /** The value, or `default` when absent (JavaScript's `x || default`
        for a value that is never falsy when present). */
    function GetOr(default: T): T {
      match this
      case Some(v) => v
      case None => default
    }
  }

  /** The outcome of an awaited write (`setDoc`, `updateDoc`, `signOut`, ...):
      it resolves, or it rejects with an error whose `message` is given. */
  datatype Reply = Committed | Threw(message: string)

  /** JavaScript truthiness of an optional string: absent and "" are falsy. */
  predicate Truthy(s: Option<string>) {
    s.Some? && s.value != ""
  }
}
