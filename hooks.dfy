/**
 * The firmware events the panel driver turns into reply tokens: user
 * confirmation requests, status messages, SD card insertion and removal,
 * the end of a print, filament runout, start-up and kill. Each hook is a
 * branch on its argument and the printer state that appends to the output
 * or makes a call; tones are not modelled.
 */
module Hooks {
  import opened Text
  import opened Hosts

  /** wait_for_user, when the build has HAS_RESUME_CONTINUE; false otherwise. */
  predicate IsWaitingForUserConfirm(cfg: Config, h: Host) {
    cfg.hasResumeContinue && h.waitForUser
  }

  /** Asks the panel to show its "continue" prompt (J18), when the build supports it. */
  function WaitForUserConfirm(cfg: Config, h: Host): (r: Host)
    ensures r.calls == h.calls && r.media == h.media
    ensures cfg.hasResumeContinue ==> r.out == h.out + J18 + CRLF
    ensures !cfg.hasResumeContinue ==> r == h
  {
    if cfg.hasResumeContinue then Send(h, J18) else h
  }

  /** The messages for which the firmware waits for the user without a heater token. */
  const WaitMessages: seq<string> :=
    ["Load Filament", "Filament Purge Running...", "Nozzle Parked", "MMU2 Eject Recover", "M43 Wait Called"]

  /** The message is one of the five waiting messages, ignoring case. */
  predicate IsWaitMessage(m: string) {
    exists i :: 0 <= i < |WaitMessages| && EqualsIgnoreCase(m, WaitMessages[i])
  }

  /**
   * The firmware asks for a user confirmation with an optional message,
   * compared ignoring case: the two heater messages show J06 or J07 and ask
   * the panel to wait, the five waiting messages only ask it to wait, and
   * any other message is confirmed at once.
   */
  function OnUserConfirmRequired(cfg: Config, h: Host, msg: Option<string>): (r: Host)
    ensures Extends(h, r) && |r.calls| <= |h.calls| + 1
  {
    if !cfg.hasResumeContinue || msg.None? then h
    else if EqualsIgnoreCase(msg.value, "HeaterTimeout") then WaitForUserConfirm(cfg, Send(h, J06))
    else if EqualsIgnoreCase(msg.value, "Reheat finished.") then WaitForUserConfirm(cfg, Send(h, J07))
    else if IsWaitMessage(msg.value) then WaitForUserConfirm(cfg, h)
    else Do(h, UserConfirmed)
  }

  /** Without resume support, or without a message, a confirmation request does nothing. */
  lemma ConfirmIgnored(cfg: Config, h: Host, msg: Option<string>)
    requires !cfg.hasResumeContinue || msg.None?
    ensures OnUserConfirmRequired(cfg, h, msg) == h
  {
  }

  /** A heater timeout shows the heating token and then asks the panel to wait; nothing is called. */
  lemma ConfirmHeaterTimeout(cfg: Config, h: Host, m: string)
    requires cfg.hasResumeContinue && EqualsIgnoreCase(m, "HeaterTimeout")
    ensures OnUserConfirmRequired(cfg, h, Some(m)) == h.(out := h.out + "J06\r\nJ18\r\n")
  {
    assert h.out + "J06\r\n" + "J18\r\n" == h.out + "J06\r\nJ18\r\n";
  }

  /** A finished reheat shows J07 and then asks the panel to wait; nothing is called. */
  lemma ConfirmReheatFinished(cfg: Config, h: Host, m: string)
    requires cfg.hasResumeContinue && EqualsIgnoreCase(m, "Reheat finished.")
    ensures OnUserConfirmRequired(cfg, h, Some(m)) == h.(out := h.out + "J07\r\nJ18\r\n")
  {
    DifferAt(m, "Reheat finished.", "HeaterTimeout", 0);
    assert h.out + "J07\r\n" + "J18\r\n" == h.out + "J07\r\nJ18\r\n";
  }

  /** The five waiting messages only ask the panel to wait. */
  lemma ConfirmWaitMessage(cfg: Config, h: Host, m: string)
    requires cfg.hasResumeContinue && IsWaitMessage(m)
    ensures OnUserConfirmRequired(cfg, h, Some(m)) == h.(out := h.out + "J18\r\n")
  {
    var i :| 0 <= i < |WaitMessages| && EqualsIgnoreCase(m, WaitMessages[i]);
    DistinctIgnoringCase(m, WaitMessages[i]);
  }

  /** Any other message is confirmed at once, without output. */
  lemma ConfirmOtherMessage(cfg: Config, h: Host, m: string)
    requires cfg.hasResumeContinue && !IsWaitMessage(m)
    requires !EqualsIgnoreCase(m, "HeaterTimeout") && !EqualsIgnoreCase(m, "Reheat finished.")
    ensures OnUserConfirmRequired(cfg, h, Some(m)) == h.(calls := h.calls + [UserConfirmed])
  {
  }

  /** None of the five waiting messages equals a heater message, ignoring case. */
  lemma DistinctIgnoringCase(m: string, w: string)
    requires w in WaitMessages && EqualsIgnoreCase(m, w)
    ensures !EqualsIgnoreCase(m, "HeaterTimeout") && !EqualsIgnoreCase(m, "Reheat finished.")
  {
    DifferAt(m, w, "HeaterTimeout", 0);
    DifferAt(m, w, "Reheat finished.", 0);
  }

  /**
   * A string equal to a (ignoring case) differs from b when a and b differ
   * in length or in the folded character at position j.
   */
  lemma DifferAt(m: string, a: string, b: string, j: nat)
    requires EqualsIgnoreCase(m, a)
    requires |a| != |b| || (j < |a| == |b| && ToLower(a[j]) != ToLower(b[j]))
    ensures !EqualsIgnoreCase(m, b)
  {
    if |a| == |b| {
      assert ToLower(m[j]) == ToLower(a[j]);
    }
  }

  /** A status message of "Reheating..." (ignoring case) shows the heating token J06. */
  function OnStatusChanged(h: Host, msg: Option<string>): (r: Host)
    ensures r.calls == h.calls && r.media == h.media
    ensures r.out == h.out + (if msg.Some? && EqualsIgnoreCase(msg.value, "Reheating...") then J06 + CRLF else "")
  {
    if msg.Some? && EqualsIgnoreCase(msg.value, "Reheating...") then Send(h, J06) else h
  }

  function OnMediaInserted(h: Host): Host {
    if h.mediaInserted then Send(h, J00) else h
  }

  function OnMediaError(h: Host): Host {
    if !h.mediaInserted then Send(h, J02) else h
  }

  function OnMediaRemoved(h: Host): Host {
    if !h.mediaInserted then Send(h, J01) else h
  }

  /**
   * The card hooks check the card: with a card present only insertion
   * reports (J00); without one only error (J02) and removal (J01) do.
   * None of them calls into the firmware.
   */
  lemma MediaHooksAgreeWithCard(h: Host)
    ensures h.mediaInserted ==>
      OnMediaInserted(h).out == h.out + "J00\r\n" && OnMediaError(h) == h && OnMediaRemoved(h) == h
    ensures !h.mediaInserted ==>
      OnMediaInserted(h) == h && OnMediaError(h).out == h.out + "J02\r\n" && OnMediaRemoved(h).out == h.out + "J01\r\n"
    ensures OnMediaInserted(h).calls == OnMediaError(h).calls == OnMediaRemoved(h).calls == h.calls
  {
  }

  function OnPrintTimerStopped(h: Host): (r: Host)
    ensures r == h.(out := h.out + "J14\r\n")
  {
    Send(h, J14)
  }

  /** Filament runout sends J15 twice. */
  function FilamentRunout(h: Host): (r: Host)
    ensures r == h.(out := h.out + "J15\r\nJ15\r\n")
  {
    Send(Send(h, J15), J15)
  }

  /** Start-up: J17 and J12 to the panel, then auto power-off switched on. */
  function Init(h: Host): (r: Host)
    ensures r.out == h.out + "J17\r\nJ12\r\n"
    ensures r.calls == h.calls + [GcodeNow("M85 S900")]
  {
    Do(Send(Send(h, J17), J12), GcodeNow(InactivityOn))
  }

  /** Kill: J11 to the panel (the power-supply pin toggling is not modelled). */
  function Kill(h: Host): (r: Host)
    ensures r == h.(out := h.out + "J11\r\n")
  {
    Send(h, J11)
  }
}
