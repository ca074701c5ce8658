/** The lifecycle of one asynchronous fetch as the screen observes it.
    A sealed hierarchy in the app: two data objects (Idle, Loading), a data
    class carrying the payload (Success) and a data class carrying a message
    that defaults to the empty string (Error). The `+` makes the type
    covariant, as `out T` does: Idle, Loading and Error belong to every
    ViewModelState<T>. */
module States {

  datatype ViewModelState<+T> =
    | Idle
    | Loading
    | Success(data: T)
    | Error(message: string := "")

  /** Every state is exactly one of the four cases. */
  lemma ExactlyOneCase<T>(s: ViewModelState<T>)
    ensures s.Idle? || s.Loading? || s.Success? || s.Error?
    ensures s.Idle? ==> !s.Loading? && !s.Success? && !s.Error?
    ensures s.Loading? ==> !s.Success? && !s.Error?
    ensures s.Success? ==> !s.Error?
  {
  }

  /** An Error built without a message carries the empty string. */
  lemma ErrorDefaultsToEmptyMessage<T>()
    ensures var e: ViewModelState<T> := Error(); e.Error? && e.message == ""
  {
  }

  /** Success carries its payload unchanged, and two Success values are equal
      exactly when their payloads are (structural equality of a data class). */
  lemma SuccessEquality<T>(a: T, b: T)
    ensures Success(a).data == a
    ensures Success(a) == Success(b) <==> a == b
  {
  }

  /** Idle and Loading carry nothing: each is a single value. Two Error
      values are equal exactly when their messages are. */
  lemma PayloadFreeStates<T>(s: ViewModelState<T>, t: ViewModelState<T>)
    ensures s.Idle? && t.Idle? ==> s == t
    ensures s.Loading? && t.Loading? ==> s == t
    ensures s.Error? && t.Error? ==> (s == t <==> s.message == t.message)
  {
  }
}
