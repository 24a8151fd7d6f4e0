/** Values shared by the components: optional values, the outcome of an
    awaited call to a collaborator, and the toast notifications shown to
    the user. */
module Outcomes {

  datatype Option<+T> = None | Some(value: T)

  /** What an awaited call gives back: its value, or the `message` of the
      error it threw (possibly empty). */
  datatype Result<+T> = Ok(value: T) | Failed(message: string)

  /** A toast notification; `destructive` toasts report errors. */
  datatype Toast = Toast(destructive: bool, title: string, description: string)

  /** JavaScript truthiness of an optional string: present and non-empty. */
  predicate Truthy(s: Option<string>) {
    s.Some? && s.value != ""
  }

  /** JavaScript's `message || fallback`: the message unless it is empty. */
  function MessageOr(message: string, fallback: string): string {
    if message != "" then message else fallback
  }
}
