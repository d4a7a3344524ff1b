/** The zod string rule that both the hostel-creation and the signup schema use. */
module Zod {
  import opened Wrappers
  import opened Text

  /** `z.string().min(n, { message })`: the raw JavaScript length (UTF-16 code
      units) counts, untrimmed. */
  function MinLength(s: string, n: nat, message: string): (e: Option<string>)
    ensures e.None? <==> CodeUnits(s) >= n
    ensures e.Some? ==> e.value == message
  {
    if CodeUnits(s) < n then Some(message) else None
  }
}
