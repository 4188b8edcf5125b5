/**
 * ConsoleLogger: the adapter between the downloader library's log calls and
 * the user-interface callback. Each level maps one message to the line it
 * hands to the callback, or to nothing when the message is dropped.
 */
module Logger {
  import opened Wrappers
  import Text

  /** The progress lines the info filter suppresses carry both of these. */
  const DownloadTag := "[download]"
  const HzTag := "Hz"

  /** "⚠️ ADVERTENCIA: " */
  const WarningPrefix := "\U{26A0}\U{FE0F} ADVERTENCIA: "
  /** "❌ ERROR INTERNO: " */
  const ErrorPrefix := "\U{274C} ERROR INTERNO: "

  /** Debug output never reaches the callback. */
  function Debug(msg: string): (r: Option<string>)
    ensures r == None
  {
    None
  }

  /**
   * Info output reaches the callback unchanged, except a line that mentions
   * both "[download]" and "Hz", which is dropped.
   */
  function Info(msg: string): (r: Option<string>)
    ensures r == None <==> Text.Occurs(msg, DownloadTag) && Text.Occurs(msg, HzTag)
    ensures r != None ==> r == Some(msg)
  {
    Text.ContainsIff(msg, DownloadTag);
    Text.ContainsIff(msg, HzTag);
    if Text.Contains(msg, DownloadTag) && Text.Contains(msg, HzTag) then None else Some(msg)
  }

  /** Warnings always reach the callback, prefixed; stripping the prefix gives the message back. */
  function Warning(msg: string): (r: Option<string>)
    ensures r.Some? && |r.value| == |WarningPrefix| + |msg|
    ensures r.value[..|WarningPrefix|] == WarningPrefix && r.value[|WarningPrefix|..] == msg
  {
    Some(WarningPrefix + msg)
  }

  /** Errors always reach the callback, prefixed; stripping the prefix gives the message back. */
  function Error(msg: string): (r: Option<string>)
    ensures r.Some? && |r.value| == |ErrorPrefix| + |msg|
    ensures r.value[..|ErrorPrefix|] == ErrorPrefix && r.value[|ErrorPrefix|..] == msg
  {
    Some(ErrorPrefix + msg)
  }
}
