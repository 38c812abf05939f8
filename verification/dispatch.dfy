/** The branch the inbound webhook takes for one event. */
module Dispatch {
  import opened Wrappers

  /** Process-wide switch: `Off` silences the bot, `Manual` lets an operator
      pause single correspondents, `Auto` (any other setting) ignores pauses. */
  datatype BotMode = Auto | Manual | Off

  datatype Decision =
    | Ignore        // no sender: nothing is logged
    | LogOnly       // bot switched off: the inbound entry is logged
    | RefreshPause  // paused in manual mode: log, then re-arm the auto-release timer
    | AskForText    // no text: log, ask for text
    | Reply         // log, answer through the reply generator, re-arm the nudges

  /** The webhook's decision, given the mode, the sender, the trimmed text and
      whether the sender is in the paused set. */
  function Decide(mode: BotMode, from: Option<string>, txt: Option<string>, paused: bool): (d: Decision)
    ensures d == Ignore <==> !Present(from)
    ensures d == LogOnly <==> Present(from) && mode == Off
    ensures d == RefreshPause <==> Present(from) && mode == Manual && paused
    ensures (d == AskForText || d == Reply) <==> Present(from) && mode != Off && !(mode == Manual && paused)
    ensures d == Reply ==> Present(txt)
    ensures d == AskForText ==> !Present(txt)
  {
    if !Present(from) then Ignore
    else if mode == Off then LogOnly
    else if mode == Manual && paused then RefreshPause
    else if !Present(txt) then AskForText
    else Reply
  }

  /** Outside manual mode the paused set has no effect on inbound handling. */
  lemma PauseMattersOnlyInManual(mode: BotMode, from: Option<string>, txt: Option<string>)
    requires mode != Manual
    ensures Decide(mode, from, txt, true) == Decide(mode, from, txt, false)
  {
  }
}
