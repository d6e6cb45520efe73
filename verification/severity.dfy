/**
  Severity indicator (`getDynamicEmoji`): the emoji that sums up a Danger run,
  chosen by the first rule that matches — any failure, else any warning, else
  a clean run.
 */
module Severity {
  import opened SlackTypes

  const EmojiError: string := ":rage:"
  const EmojiWarning: string := ":neutral_face:"
  const EmojiHealthy: string := ":blush:"

  function GetDynamicEmoji(errors: seq<Violation>, warnings: seq<Violation>): (e: string)
    ensures e == EmojiError <==> |errors| > 0
    ensures e == EmojiWarning <==> |errors| == 0 && |warnings| > 0
    ensures e == EmojiHealthy <==> |errors| == 0 && |warnings| == 0
  {
    if |errors| > 0 then EmojiError
    else if |warnings| > 0 then EmojiWarning
    else EmojiHealthy
  }

  /** How bad an indicator is: healthy 0, warning 1, error 2. */
  function Level(e: string): nat
  {
    if e == EmojiError then 2
    else if e == EmojiWarning then 1
    else 0
  }

  /** Reporting more items never makes the indicator milder. */
  lemma MoreItemsNeverMilder(errors: seq<Violation>, warnings: seq<Violation>,
                             moreErrors: seq<Violation>, moreWarnings: seq<Violation>)
    ensures Level(GetDynamicEmoji(errors, warnings))
         <= Level(GetDynamicEmoji(errors + moreErrors, warnings + moreWarnings))
  {
  }

  /** Only whether each list is empty matters, never the messages or their number. */
  lemma DependsOnlyOnEmptiness(errors: seq<Violation>, warnings: seq<Violation>,
                               errors': seq<Violation>, warnings': seq<Violation>)
    requires (|errors| == 0) == (|errors'| == 0)
    requires (|warnings| == 0) == (|warnings'| == 0)
    ensures GetDynamicEmoji(errors, warnings) == GetDynamicEmoji(errors', warnings')
  {
  }
}
