/** What both client slices store as `error` when a request is rejected. */
module SliceErrors {
  import opened Wrappers

  /** `action.payload || fallback`: the rejection payload if it is a non-empty string, else the fixed message. */
  function RejectionMessage(payload: Option<string>, fallback: string): (e: string)
    ensures payload.Some? && payload.value != "" ==> e == payload.value
    ensures payload.None? || payload.value == "" ==> e == fallback
  {
    if payload.Some? && payload.value != "" then payload.value else fallback
  }
}
