/**
 * The panel commands A0 to A42 other than the three file-browser ones
 * (A8, A13, A26): what each sends back to the panel and which calls it
 * makes into the firmware, as functions of the build configuration, the
 * printer state and the line its parameters are read from.
 */
module Handlers {
  import opened Text
  import opened Numbers
  import opened Hosts
  import opened Formatters
  import opened Worlds
  import Hooks

  /** The guard of the motion and heating commands: not printing and not moving. */
  predicate Idle(h: Host) {
    !h.printing && !h.moving
  }

  /** A0 to A3: a temperature, truncated, in itostr3's three characters. */
  function ReportTemperature(h: Host, prefix: string, celsius: real): (r: Host)
    ensures Replies(h, r)
  {
    Send(h, prefix + Itostr3Text(Trunc(celsius)))
  }

  /** A4: the fan speed percentage, truncated, as a plain decimal. */
  function ReportFanSpeed(cfg: Config, h: Host): (r: Host)
    ensures Replies(h, r)
  {
    Send(h, cfg.txFanSpeed + IntText(Trunc(h.fanPercent)))
  }

  /** A5: the X, Y and Z positions, each after a space and its label. */
  function ReportCoordinates(cfg: Config, h: Host): (r: Host)
    ensures Replies(h, r)
  {
    Send(h, cfg.txCurrentCoordinates + " X: " + cfg.floatText(h.posX) + " Y: " + cfg.floatText(h.posY)
      + " Z: " + cfg.floatText(h.posZ) + " ")
  }

  /** A6: the progress while printing, otherwise the fixed "A6V ---". */
  function ReportPrintStatus(cfg: Config, h: Host): (r: Host)
    ensures Replies(h, r)
  {
    if h.printing then Send(h, cfg.txPrintingStatus + Itostr3Text(h.progressPercent))
    else Send(h, "A6V ---")
  }

  /**
   * The minutes shown next to the hours: the duration's whole minutes
   * minus sixty per whole hour, i.e. the minutes within the hour.
   */
  function MinutesInHour(s: nat): (m: nat)
    ensures m < 60 && m == (s / 60) % 60
  {
    DivDiv(s, 60, 60);
    s / 60 - (s / 3600) * 60
  }

  /** The hours shown: the duration's whole hours, passed through a uint8_t. */
  function HoursByte(s: nat): nat {
    (s / 3600) % 256
  }

  /** The text after A7's prefix: "HH H MM M", or " 999:999" when the timer reads zero. */
  function ElapsedText(s: nat): string {
    if s != 0 then Itostr2Text(HoursByte(s)) + " H " + Itostr2Text(MinutesInHour(s)) + " M"
    else " 999:999"
  }

  /** A7: the print timer's duration. */
  function ReportPrintingTime(cfg: Config, h: Host): (r: Host)
    ensures Replies(h, r)
  {
    Send(h, cfg.txPrintingTime + ElapsedText(h.elapsedSeconds))
  }

  /**
   * A9: while the firmware waits for the user only J18 is sent; otherwise
   * J18 is sent and a print from the card is paused.
   */
  function Pause(cfg: Config, h: Host): (r: Host)
    ensures Extends(h, r)
  {
    if Hooks.IsWaitingForUserConfirm(cfg, h) then Send(h, J18)
    else
      var h1 := Send(h, J18);
      if h.printingFromMedia then Do(h1, PausePrint) else h1
  }

  /**
   * A10: while the firmware waits for the user the wait is confirmed;
   * otherwise a paused card print is resumed and J04 sent.
   */
  function Resume(cfg: Config, h: Host): (r: Host)
    ensures Extends(h, r)
  {
    if Hooks.IsWaitingForUserConfirm(cfg, h) then Do(h, UserConfirmed)
    else if h.printingFromMediaPaused then Send(Do(h, ResumePrint), J04)
    else h
  }

  /** A11: a running or paused card print is stopped and J16 sent. */
  function Stop(h: Host): (r: Host)
    ensures Extends(h, r)
  {
    if h.printingFromMedia || h.printingFromMediaPaused then Send(Do(h, StopPrint), J16) else h
  }

  /** A14: with a card, no motion and an open file, the print starts and J04 is sent. */
  function Start(h: Host): (r: Host)
    ensures Extends(h, r)
  {
    if h.mediaInserted && !h.moving && h.media.fileOpen then Send(Do(h, StartFilePrint), J04) else h
  }

  /** A temperature value as the handlers store it: constrained, then put into a uint16_t. */
  function TargetFor(v: real, hi: int): (t: int)
    requires 0 <= hi < 65536
    ensures 0 <= t <= hi
    ensures 0.0 <= v <= hi as real ==> t == Trunc(v)
    ensures v < 0.0 ==> t == 0
    ensures v > hi as real ==> t == hi
  {
    ToU16(Clamp(v, 0.0, hi as real))
  }

  /**
   * A16 (idle only): S sets the hotend target within 0..275; otherwise C
   * raises Z to 10 mm when it is lower and sets the target within
   * 0..HEATER_0_MAXTEMP.
   */
  function SetHotendTemp(cfg: Config, h: Host, line: string): (r: Host)
    requires SaneConfig(cfg)
    ensures Extends(h, r)
  {
    if !Idle(h) then h
    else if Seen(line, 'S') then Do(h, SetHotendTarget(TargetFor(Value(line, 'S'), 275)))
    else if Seen(line, 'C') then
      var h1 := if h.posZ < 10.0 then Do(h, GcodeNow(RaiseZ10)) else h;
      Do(h1, SetHotendTarget(TargetFor(Value(line, 'C'), cfg.heater0MaxTemp)))
    else h
  }

  /** A17 (idle only): S sets the bed target within 0..BED_MAXTEMP. */
  function SetBedTemp(cfg: Config, h: Host, line: string): (r: Host)
    requires SaneConfig(cfg)
    ensures Extends(h, r)
  {
    if Idle(h) && Seen(line, 'S') then Do(h, SetBedTarget(TargetFor(Value(line, 'S'), cfg.bedMaxTemp)))
    else h
  }

  /** A18 (idle only): the fan percentage is S, unconstrained, or 100 without S. */
  function SetFanSpeed(h: Host, line: string): (r: Host)
    ensures Extends(h, r)
  {
    if !Idle(h) then h
    else Emit(Do(h, SetFanPercent(if Seen(line, 'S') then Value(line, 'S') else 100.0)), CRLF)
  }

  /** A19 (idle only): quick stop, steppers off, an empty reply line. */
  function StopSteppers(h: Host): (r: Host)
    ensures Extends(h, r)
  {
    if !Idle(h) then h else Emit(Do(Do(h, QuickStop), DisableSteppers), CRLF)
  }

  /** A20 (not guarded): S sets the feedrate percentage within 40..999, otherwise it is reported. */
  function PrintSpeed(cfg: Config, h: Host, line: string): (r: Host)
    ensures Extends(h, r)
  {
    if Seen(line, 'S') then Do(h, SetFeedratePercent(Clamp(Value(line, 'S'), 40.0, 999.0)))
    else Send(h, cfg.txPrintSpeed + IntText(Trunc(h.feedratePercent)))
  }

  /** Queues "G28 <axis>" (G28 X, G28 Y or G28 Z) when the axis letter is in the line. */
  function HomeIfSeen(h: Host, line: string, axis: char): Host {
    if Seen(line, axis) then Do(h, GcodeQueue("G28 " + [axis])) else h
  }

  /** A21 (idle only): each axis letter present queues its own homing, else C homes all. */
  function HomeAxes(h: Host, line: string): (r: Host)
    ensures Extends(h, r)
  {
    if !Idle(h) then h
    else if Seen(line, 'X') || Seen(line, 'Y') || Seen(line, 'Z') then
      HomeIfSeen(HomeIfSeen(HomeIfSeen(h, line, 'X'), line, 'Y'), line, 'Z')
    else if Seen(line, 'C') then Do(h, GcodeQueue(HomeAll))
    else h
  }

  /**
   * The step of a jog: a value in (0, 0.2] becomes +0.1, one in (-1, -0.1]
   * becomes -0.1, any other is truncated to a whole number.
   */
  function StepOf(v: real): (st: JogStep)
    ensures st == Snap(false) <==> 0.0 < v <= 0.2
    ensures st == Snap(true) <==> -1.0 < v <= -0.1
    ensures st.Whole? ==> st.n == Trunc(v)
  {
    if 0.0 < v <= 0.2 then Snap(false)
    else if -1.0 < v <= -0.1 then Snap(true)
    else Whole(Trunc(v))
  }

  /** The one jog A22 queues: the first of X, Y, Z, E present decides it. */
  function JogFor(line: string, speed: int): (c: Call)
    ensures c.Jog? && c.axis == 'X' <==> Seen(line, 'X')
    ensures c.Jog? && c.axis == 'Y' <==> !Seen(line, 'X') && Seen(line, 'Y')
    ensures c.Jog? && c.axis == 'Z' <==> !Seen(line, 'X') && !Seen(line, 'Y') && Seen(line, 'Z')
    ensures c.Jog? && c.axis == 'E' <==> !Seen(line, 'X') && !Seen(line, 'Y') && !Seen(line, 'Z') && Seen(line, 'E')
    ensures c.Jog? ==> Seen(line, c.axis) && c.step == StepOf(Value(line, c.axis))
    ensures c.Jog? && c.axis != 'E' ==> c.feed == ScaledFeed(speed)
    ensures c.Jog? && c.axis == 'E' ==> c.feed == if c.step.Whole? then FeedValue(500) else FeedValue(speed)
    ensures !c.Jog? ==> c == QueueUnset
  {
    if Seen(line, 'X') then Jog('X', StepOf(Value(line, 'X')), ScaledFeed(speed))
    else if Seen(line, 'Y') then Jog('Y', StepOf(Value(line, 'Y')), ScaledFeed(speed))
    else if Seen(line, 'Z') then Jog('Z', StepOf(Value(line, 'Z')), ScaledFeed(speed))
    else if Seen(line, 'E') then
      var st := StepOf(Value(line, 'E'));
      Jog('E', st, if st.Whole? then FeedValue(500) else FeedValue(speed))
    else QueueUnset
  }

  /**
   * A22: when idle, relative mode, one jog (F is the requested speed,
   * stored in an unsigned int), absolute mode; always an empty reply line.
   */
  function Move(h: Host, line: string): (r: Host)
    ensures Extends(h, r)
  {
    if !Idle(h) then Emit(h, CRLF)
    else
      var speed := if Seen(line, 'F') then ToU16(Value(line, 'F')) else 0;
      Emit(Do(Do(Do(h, GcodeQueue(G91)), JogFor(line, speed)), GcodeQueue(G90)), CRLF)
  }

  /** A23 and A24 (idle only): raise Z below 10 mm, set both preset targets, reply OK. */
  function Preheat(h: Host, hotend: int, bed: int): (r: Host)
    ensures Extends(h, r)
  {
    if !Idle(h) then h
    else
      var h1 := if h.posZ < 10.0 then Do(h, GcodeNow(RaiseZ10)) else h;
      Send(Do(Do(h1, SetHotendTarget(hotend)), SetBedTarget(bed)), Ok)
  }

  /** A25 (idle only): both targets to zero, then J12. */
  function Cooldown(h: Host): (r: Host)
    ensures Extends(h, r)
  {
    if !Idle(h) then h else Send(Do(Do(h, SetHotendTarget(0)), SetBedTarget(0)), J12)
  }

  /** A33: the version reply. */
  function Version(cfg: Config, h: Host): (r: Host)
    ensures Replies(h, r)
  {
    Send(h, cfg.txVersionInfo + cfg.buildVersion)
  }

  /** A41: enable or disable the inactivity shutdown, or report whether it is on. */
  function AutoPowerOff(cfg: Config, h: Host, line: string): (r: Host)
    ensures Extends(h, r)
  {
    if Seen(line, cfg.rxCodeEnable) then Do(h, GcodeNow(InactivityOn))
    else if Seen(line, cfg.rxCodeDisable) then Do(h, GcodeNow(InactivityOff))
    else if Seen(line, cfg.rxCodeStatus) then
      Send(h, if h.maxInactiveTime != 0 then cfg.txAutoShutdownOn else cfg.txAutoShutdownOff)
    else h
  }

  /** A42: the case light brightness goes up by 25, and from 100 back to 0. */
  function NextBrightness(b: real): real {
    if b == 100.0 then 0.0 else b + 25.0
  }

  function CaseLight(h: Host): (r: Host)
    ensures Extends(h, r)
  {
    Do(h, SetCaseLight(NextBrightness(h.caseLightPercent)))
  }

  /** The browser commands A8, A13 and A26, which work on more than the printer. */
  predicate IsBrowserCommand(id: int) {
    id == 8 || id == 13 || id == 26
  }

  /** The ids with no effect: A15, A27 to A32, A34 to A39 and everything above A42. */
  predicate IsIgnored(id: int) {
    id == 15 || 27 <= id <= 32 || 34 <= id <= 39 || id > 42
  }

  /** handleCommand for every id but the browser commands. */
  function Respond(cfg: Config, h: Host, line: string, id: int): (r: Host)
    requires 0 <= id < 256 && !IsBrowserCommand(id)
    requires SaneConfig(cfg)
    ensures Extends(h, r)
  {
    match id
    case 0 => ReportTemperature(h, cfg.txHotendTemp, h.hotendTemp)
    case 1 => ReportTemperature(h, cfg.txHotendTargetTemp, h.hotendTarget)
    case 2 => ReportTemperature(h, cfg.txHotbedTemp, h.bedTemp)
    case 3 => ReportTemperature(h, cfg.txHotbedTargetTemp, h.bedTarget)
    case 4 => ReportFanSpeed(cfg, h)
    case 5 => ReportCoordinates(cfg, h)
    case 6 => ReportPrintStatus(cfg, h)
    case 7 => ReportPrintingTime(cfg, h)
    case 9 => Pause(cfg, h)
    case 10 => Resume(cfg, h)
    case 11 => Stop(h)
    case 12 => Do(h, Kill)
    case 14 => Start(h)
    case 16 => SetHotendTemp(cfg, h, line)
    case 17 => SetBedTemp(cfg, h, line)
    case 18 => SetFanSpeed(h, line)
    case 19 => StopSteppers(h)
    case 20 => PrintSpeed(cfg, h, line)
    case 21 => HomeAxes(h, line)
    case 22 => Move(h, line)
    case 23 => Preheat(h, cfg.preheat1Hotend, cfg.preheat1Bed)
    case 24 => Preheat(h, cfg.preheat2Hotend, cfg.preheat2Bed)
    case 25 => Cooldown(h)
    case 33 => Version(cfg, h)
    case 40 => Do(h, GcodeNow(M502))
    case 41 => AutoPowerOff(cfg, h, line)
    case 42 => CaseLight(h)
    case _ => h
  }

  // ---------------------------------------------------------------------
  // Properties of the handlers

  /** Unused ids leave the printer and the panel alone. */
  lemma IgnoredIdsDoNothing(cfg: Config, h: Host, line: string, id: int)
    requires 0 <= id < 256 && IsIgnored(id)
    requires SaneConfig(cfg)
    ensures Respond(cfg, h, line, id) == h
  {
  }

  /**
   * While printing or moving, the heating, fan, stepper, homing, preheat and
   * cool-down commands do nothing, and a move only sends its empty line.
   */
  lemma BusyGuard(cfg: Config, h: Host, line: string, id: int)
    requires h.printing || h.moving
    requires id in {16, 17, 18, 19, 21, 22, 23, 24, 25}
    requires SaneConfig(cfg)
    ensures id != 22 ==> Respond(cfg, h, line, id) == h
    ensures id == 22 ==> Respond(cfg, h, line, id) == h.(out := h.out + CRLF)
  {
  }

  /**
   * A16 with S: the hotend target is the S value held to 0..275 and
   * truncated, with nothing sent to the panel.
   */
  lemma HotendTargetFromS(cfg: Config, h: Host, line: string)
    requires Idle(h) && Seen(line, 'S') && SaneConfig(cfg)
    ensures exists t ::
      0 <= t <= 275 && SetHotendTemp(cfg, h, line) == h.(calls := h.calls + [SetHotendTarget(t)])
      && (0.0 <= Value(line, 'S') <= 275.0 ==> t == Trunc(Value(line, 'S')))
  {
    var t := TargetFor(Value(line, 'S'), 275);
    assert SetHotendTemp(cfg, h, line) == h.(calls := h.calls + [SetHotendTarget(t)]);
  }

  /**
   * A16 with C but no S: Z is raised to 10 mm first when it is lower, then
   * the target is the C value held to 0..HEATER_0_MAXTEMP.
   */
  lemma HotendTargetFromC(cfg: Config, h: Host, line: string)
    requires Idle(h) && !Seen(line, 'S') && Seen(line, 'C') && SaneConfig(cfg)
    ensures var r := SetHotendTemp(cfg, h, line);
      r.out == h.out && |r.calls| >= 1 && r.calls[|r.calls| - 1].SetHotendTarget?
      && 0 <= r.calls[|r.calls| - 1].celsius <= cfg.heater0MaxTemp
      && r.calls[..|r.calls| - 1] == h.calls + (if h.posZ < 10.0 then [GcodeNow("G1 Z10")] else [])
  {
  }

  /** A17: the bed target never leaves 0..BED_MAXTEMP, and only S sets it. */
  lemma BedTargetRange(cfg: Config, h: Host, line: string)
    requires SaneConfig(cfg)
    ensures var r := SetBedTemp(cfg, h, line);
      r.out == h.out
      && (Idle(h) && Seen(line, 'S') ==>
            exists t :: 0 <= t <= cfg.bedMaxTemp && r.calls == h.calls + [SetBedTarget(t)])
      && (!(Idle(h) && Seen(line, 'S')) ==> r == h)
  {
    if Idle(h) && Seen(line, 'S') {
      var t := TargetFor(Value(line, 'S'), cfg.bedMaxTemp);
      assert SetBedTemp(cfg, h, line).calls == h.calls + [SetBedTarget(t)];
    }
  }

  /** A18: without S the fan goes to 100 %; with S to S itself, unconstrained. */
  lemma FanPercent(h: Host, line: string)
    requires Idle(h)
    ensures var r := SetFanSpeed(h, line);
      r.out == h.out + CRLF
      && r.calls == h.calls + [SetFanPercent(if Seen(line, 'S') then Value(line, 'S') else 100.0)]
  {
  }

  /** A20 with S works while printing too and keeps the feedrate within 40..999 %. */
  lemma FeedrateRange(cfg: Config, h: Host, line: string)
    requires Seen(line, 'S')
    ensures exists p :: 40.0 <= p <= 999.0 && PrintSpeed(cfg, h, line) == h.(calls := h.calls + [SetFeedratePercent(p)])
  {
    var p := Clamp(Value(line, 'S'), 40.0, 999.0);
    assert PrintSpeed(cfg, h, line) == h.(calls := h.calls + [SetFeedratePercent(p)]);
  }

  /** A20 without S: what follows the prefix reads back as the truncated feedrate. */
  lemma FeedrateReadBack(cfg: Config, h: Host, line: string)
    requires !Seen(line, 'S')
    ensures var r := PrintSpeed(cfg, h, line);
      r.calls == h.calls && r.out[..|h.out| + |cfg.txPrintSpeed|] == h.out + cfg.txPrintSpeed
      && Strtod(r.out[|h.out| + |cfg.txPrintSpeed|..]) == Trunc(h.feedratePercent) as real
  {
    var r := PrintSpeed(cfg, h, line);
    var n := Trunc(h.feedratePercent);
    assert r.out == h.out + cfg.txPrintSpeed + (IntText(n) + CRLF);
    assert r.out[|h.out| + |cfg.txPrintSpeed|..] == IntText(n) + CRLF;
    StrtodIntText(n, CRLF);
  }

  /** A4: the fan reply reads back as the truncated fan percentage. */
  lemma FanSpeedReadBack(cfg: Config, h: Host)
    ensures var r := ReportFanSpeed(cfg, h);
      r.calls == h.calls && r.out[..|h.out| + |cfg.txFanSpeed|] == h.out + cfg.txFanSpeed
      && Strtod(r.out[|h.out| + |cfg.txFanSpeed|..]) == Trunc(h.fanPercent) as real
  {
    var r := ReportFanSpeed(cfg, h);
    var n := Trunc(h.fanPercent);
    assert r.out == h.out + cfg.txFanSpeed + (IntText(n) + CRLF);
    assert r.out[|h.out| + |cfg.txFanSpeed|..] == IntText(n) + CRLF;
    StrtodIntText(n, CRLF);
  }

  /**
   * A5: after the prefix come " X: " and the X position's text, " Y: " and
   * the Y position's, " Z: " and the Z position's, a space and CR LF;
   * nothing is called.
   */
  lemma CoordinatesLayout(cfg: Config, h: Host)
    ensures var r := ReportCoordinates(cfg, h);
      var p := |h.out| + |cfg.txCurrentCoordinates|;
      && r.calls == h.calls && |r.out| >= p
      && r.out[..p] == h.out + cfg.txCurrentCoordinates
      && r.out[p..] == " X: " + cfg.floatText(h.posX) + " Y: " + cfg.floatText(h.posY)
        + " Z: " + cfg.floatText(h.posZ) + " " + CRLF
  {
    var pre, x, y, z := cfg.txCurrentCoordinates, cfg.floatText(h.posX), cfg.floatText(h.posY), cfg.floatText(h.posZ);
    var t := " X: " + x + " Y: " + y + " Z: " + z + " ";
    RegroupAfterPrefix(pre, " X: ", x, " Y: ", y, " Z: ", z, " ");
    assert ReportCoordinates(cfg, h).out == (h.out + pre) + (t + CRLF);
  }

  /** A line built piece by piece after its prefix is the prefix followed by the rest. */
  lemma RegroupAfterPrefix(p: string, a: string, b: string, c: string, d: string, e: string, f: string, g: string)
    ensures p + a + b + c + d + e + f + g == p + (a + b + c + d + e + f + g)
  {
    assert p + a + b == p + (a + b);
    assert p + a + b + c == p + (a + b + c);
    assert p + a + b + c + d == p + (a + b + c + d);
    assert p + a + b + c + d + e == p + (a + b + c + d + e);
    assert p + a + b + c + d + e + f == p + (a + b + c + d + e + f);
  }

  /**
   * A0 to A3: the reply is the prefix, three characters and CR LF, and for
   * a temperature from 0 to 999 the three characters read back as its
   * whole degrees.
   */
  lemma TemperatureReadBack(h: Host, prefix: string, celsius: real)
    ensures var r := ReportTemperature(h, prefix, celsius);
      var p := |h.out| + |prefix|;
      r.calls == h.calls && |r.out| == p + 5
      && r.out[..p] == h.out + prefix && r.out[p + 3..] == CRLF
      && (0.0 <= celsius < 1000.0 ==> Strtod(r.out[p..p + 3]) == Trunc(celsius) as real)
  {
    var t := Itostr3Text(Trunc(celsius));
    assert ReportTemperature(h, prefix, celsius).out == (h.out + prefix) + t + CRLF;
    Parts(h.out + prefix, t, CRLF);
    if 0.0 <= celsius < 1000.0 {
      Itostr3ReadBack(Trunc(celsius));
    }
  }

  /**
   * A6: while printing, the prefix, three characters and CR LF, where the
   * three characters read back as the percentage for any value from 0 to
   * 999 (the firmware's percentage is 0 to 100); otherwise exactly
   * "A6V ---" and CR LF. Nothing but the serial output changes.
   */
  lemma PrintStatusReadBack(cfg: Config, h: Host)
    ensures var r := ReportPrintStatus(cfg, h);
      var p := |h.out| + |cfg.txPrintingStatus|;
      h.printing ==> (r.calls == h.calls && |r.out| == p + 5
        && r.out[..p] == h.out + cfg.txPrintingStatus && r.out[p + 3..] == CRLF
        && (0 <= h.progressPercent <= 999 ==> Strtod(r.out[p..p + 3]) == h.progressPercent as real))
    ensures !h.printing ==> ReportPrintStatus(cfg, h) == h.(out := h.out + "A6V ---" + CRLF)
  {
    if h.printing {
      var t := Itostr3Text(h.progressPercent);
      assert ReportPrintStatus(cfg, h).out == (h.out + cfg.txPrintingStatus) + t + CRLF;
      Parts(h.out + cfg.txPrintingStatus, t, CRLF);
      if 0 <= h.progressPercent <= 999 {
        Itostr3ReadBack(h.progressPercent);
      }
    }
  }

  /**
   * A7 while the timer runs: two digits for the hours (the byte modulo
   * 100) and two for the minutes within the hour, which read back exactly.
   */
  lemma ElapsedDigits(s: nat)
    requires s != 0
    ensures var t := ElapsedText(s);
      |t| == 9 && t[2..5] == " H " && t[7..] == " M"
      && DigitsValue(t[..2]) == (s / 3600) % 256 % 100
      && DigitsValue(t[5..7]) == (s / 60) % 60
  {
    var hb, mn := HoursByte(s), MinutesInHour(s);
    assert ElapsedText(s) == Itostr2Text(hb) + " H " + Itostr2Text(mn) + " M";
    ElapsedParts(hb, mn);
  }

  /** The two fields of the elapsed time, each read back from its two digits. */
  lemma ElapsedParts(hb: nat, mn: nat)
    requires hb < 256 && mn < 60
    ensures var t := Itostr2Text(hb) + " H " + Itostr2Text(mn) + " M";
      |t| == 9 && t[2..5] == " H " && t[7..] == " M"
      && DigitsValue(t[..2]) == hb % 100 && DigitsValue(t[5..7]) == mn
  {
    var hh, mm := Itostr2Text(hb), Itostr2Text(mn);
    var t := hh + " H " + mm + " M";
    assert t[..2] == hh && t[2..5] == " H " && t[5..7] == mm && t[7..] == " M";
    assert DigitsValue(hh) == hb % 100 by {
      Itostr2Digits(hb);
    }
    assert mn % 100 == mn;
    assert DigitsValue(mm) == mn by {
      Itostr2Digits(mn);
    }
  }

  /** A7 with the timer at zero: the fixed " 999:999". */
  lemma ElapsedZero(cfg: Config, h: Host)
    requires h.elapsedSeconds == 0
    ensures ReportPrintingTime(cfg, h) == h.(out := h.out + cfg.txPrintingTime + " 999:999" + CRLF)
  {
  }

  /** The axes of s, in order, that occur in the line. */
  function AxesIn(s: string, line: string): string {
    if s == [] then [] else (if s[0] in line then [s[0]] else []) + AxesIn(s[1..], line)
  }

  /** "G28 " followed by one axis letter, for each axis in turn. */
  function HomeCalls(axes: string): (r: seq<Call>)
    ensures |r| == |axes|
  {
    if axes == [] then [] else [GcodeQueue("G28 " + [axes[0]])] + HomeCalls(axes[1..])
  }

  lemma {:induction false} HomeCallsAppend(a: string, b: string)
    ensures HomeCalls(a + b) == HomeCalls(a) + HomeCalls(b)
  {
    if a == [] {
      assert a + b == b;
    } else {
      assert (a + b)[0] == a[0] && (a + b)[1..] == a[1..] + b;
      HomeCallsAppend(a[1..], b);
    }
  }

  /** The homing call one axis letter contributes. */
  function HomeCallIf(line: string, axis: char): seq<Call> {
    if axis in line then [GcodeQueue("G28 " + [axis])] else []
  }

  lemma HomeCallsOfAxis(line: string, axis: char)
    ensures HomeCalls(AxesIn([axis], line)) == HomeCallIf(line, axis)
  {
    assert [axis][1..] == [];
    assert AxesIn([axis], line) == (if axis in line then [axis] else []) + AxesIn([], line);
  }

  /** The axis letters of the line, in the order X, Y, Z. */
  lemma AxesInXYZ(line: string)
    ensures AxesIn("XYZ", line) == AxesIn("X", line) + AxesIn("Y", line) + AxesIn("Z", line)
  {
    assert "YZ"[1..] == "Z" && "XYZ"[1..] == "YZ";
    assert AxesIn("YZ", line) == AxesIn("Y", line) + AxesIn("Z", line);
  }

  /** The homing calls for the axes of the line are one per axis present, X first. */
  lemma HomeCallsXYZ(line: string)
    ensures HomeCalls(AxesIn("XYZ", line)) == HomeCallIf(line, 'X') + HomeCallIf(line, 'Y') + HomeCallIf(line, 'Z')
  {
    var x, y, z := AxesIn("X", line), AxesIn("Y", line), AxesIn("Z", line);
    AxesInXYZ(line);
    HomeCallsAppend(x, y);
    HomeCallsAppend(x + y, z);
    HomeCallsOfAxis(line, 'X');
    HomeCallsOfAxis(line, 'Y');
    HomeCallsOfAxis(line, 'Z');
  }

  /** The three conditional homings together queue the axes present, in order. */
  lemma HomeIfSeenXYZ(h: Host, line: string)
    ensures HomeIfSeen(HomeIfSeen(HomeIfSeen(h, line, 'X'), line, 'Y'), line, 'Z')
      == h.(calls := h.calls + HomeCalls(AxesIn("XYZ", line)))
  {
    HomeCallsXYZ(line);
    var h1 := HomeIfSeen(h, line, 'X');
    var h2 := HomeIfSeen(h1, line, 'Y');
    HomeIfSeenStep(h, line, 'X');
    HomeIfSeenStep(h1, line, 'Y');
    HomeIfSeenStep(h2, line, 'Z');
    assert h.calls + HomeCallIf(line, 'X') + HomeCallIf(line, 'Y') + HomeCallIf(line, 'Z')
      == h.calls + HomeCalls(AxesIn("XYZ", line));
  }

  lemma HomeIfSeenStep(h: Host, line: string, axis: char)
    ensures HomeIfSeen(h, line, axis) == h.(calls := h.calls + HomeCallIf(line, axis))
  {
  }

  /**
   * A21 when idle with at least one axis letter: each axis present queues
   * "G28 <axis>", in the order X, Y, Z, and nothing else happens.
   */
  lemma HomeQueuesSeenAxes(h: Host, line: string)
    requires Idle(h) && AxesIn("XYZ", line) != []
    ensures HomeAxes(h, line) == h.(calls := h.calls + HomeCalls(AxesIn("XYZ", line)))
  {
    AxesInXYZ(line);
    OneAxis('X', line);
    OneAxis('Y', line);
    OneAxis('Z', line);
    HomeIfSeenXYZ(h, line);
  }

  /** A21 when idle with no axis letter: C homes all axes with "G28", and without C nothing happens. */
  lemma HomeAllWithoutAxes(h: Host, line: string)
    requires Idle(h) && AxesIn("XYZ", line) == []
    ensures Seen(line, 'C') ==> HomeAxes(h, line) == h.(calls := h.calls + [GcodeQueue("G28")])
    ensures !Seen(line, 'C') ==> HomeAxes(h, line) == h
  {
    AxesInXYZ(line);
    OneAxis('X', line);
    OneAxis('Y', line);
    OneAxis('Z', line);
  }

  lemma OneAxis(c: char, line: string)
    ensures AxesIn([c], line) == if c in line then [c] else []
  {
    assert [c][1..] == [];
  }

  /**
   * A22 when idle: exactly three calls are queued, relative mode, one jog
   * and absolute mode, and the jog is on the first of X, Y, Z, E present.
   */
  lemma MoveQueuesOneJog(h: Host, line: string)
    requires Idle(h)
    ensures var r := Move(h, line);
      var speed := if Seen(line, 'F') then ToU16(Value(line, 'F')) else 0;
      r.out == h.out + CRLF
      && r.calls == h.calls + [GcodeQueue("G91"), JogFor(line, speed), GcodeQueue("G90")]
      && 0 <= speed < 65536
    ensures Seen(line, 'X') ==> JogFor(line, 0).axis == 'X'
    ensures !Seen(line, 'X') && Seen(line, 'Y') ==> JogFor(line, 0).axis == 'Y'
    ensures !Seen(line, 'X') && !Seen(line, 'Y') && Seen(line, 'Z') ==> JogFor(line, 0).axis == 'Z'
    ensures !Seen(line, 'X') && !Seen(line, 'Y') && !Seen(line, 'Z') && Seen(line, 'E') ==>
      JogFor(line, 0).axis == 'E'
  {
  }

  /**
   * An extrusion jog by a whole amount always uses feed 500; a snapped one
   * uses the requested speed, not scaled by the axis' maximum feedrate.
   */
  lemma ExtrudeFeed(line: string, speed: int)
    requires !Seen(line, 'X') && !Seen(line, 'Y') && !Seen(line, 'Z') && Seen(line, 'E')
    ensures JogFor(line, speed).feed == if JogFor(line, speed).step.Whole? then FeedValue(500) else FeedValue(speed)
    ensures JogFor(line, speed).step == StepOf(Value(line, 'E'))
  {
  }

  /**
   * The pause/resume latch: while the firmware waits for the user, A9 only
   * repeats J18 and A10 only confirms; neither pauses nor resumes a print.
   */
  lemma WaitingLatch(cfg: Config, h: Host)
    requires Hooks.IsWaitingForUserConfirm(cfg, h)
    ensures Pause(cfg, h) == h.(out := h.out + "J18\r\n")
    ensures Resume(cfg, h) == h.(calls := h.calls + [UserConfirmed])
  {
  }

  /**
   * Not waiting: A9 always sends J18 and pauses exactly when printing from
   * the card; A10 resumes, sending J04, exactly when the card print is paused.
   */
  lemma PauseResumeNotWaiting(cfg: Config, h: Host)
    requires !Hooks.IsWaitingForUserConfirm(cfg, h)
    ensures Pause(cfg, h).out == h.out + "J18\r\n"
    ensures Pause(cfg, h).calls == h.calls + (if h.printingFromMedia then [PausePrint] else [])
    ensures h.printingFromMediaPaused ==> Resume(cfg, h) == h.(out := h.out + "J04\r\n", calls := h.calls + [ResumePrint])
    ensures !h.printingFromMediaPaused ==> Resume(cfg, h) == h
  {
  }

  /** A11 and A14 act only on a card print: stop needs one running or paused, start an open file. */
  lemma StopAndStartConditions(h: Host)
    ensures (h.printingFromMedia || h.printingFromMediaPaused) <==> Stop(h).calls == h.calls + [StopPrint]
    ensures (h.printingFromMedia || h.printingFromMediaPaused) <==> Stop(h).out == h.out + "J16\r\n"
    ensures (h.mediaInserted && !h.moving && h.media.fileOpen) <==> Start(h).calls == h.calls + [StartFilePrint]
    ensures (h.mediaInserted && !h.moving && h.media.fileOpen) <==> Start(h).out == h.out + "J04\r\n"
  {
    assert h.calls + [StopPrint] != h.calls;
    assert h.calls + [StartFilePrint] != h.calls;
    assert h.out + "J16\r\n" != h.out;
    assert h.out + "J04\r\n" != h.out;
  }

  /** A19 when idle: a quick stop, then the steppers off, then an empty reply line. */
  lemma StopSteppersIdle(h: Host)
    requires Idle(h)
    ensures StopSteppers(h) == h.(out := h.out + CRLF, calls := h.calls + [QuickStop, DisableSteppers])
  {
    assert h.calls + [QuickStop] + [DisableSteppers] == h.calls + [QuickStop, DisableSteppers];
  }

  /** The five case-light levels a panel steps through. */
  predicate IsLightLevel(b: real) {
    b == 0.0 || b == 25.0 || b == 50.0 || b == 75.0 || b == 100.0
  }

  /**
   * A42 keeps the brightness on the five levels and, from off, returns to
   * off after five presses, passing through every level.
   */
  lemma CaseLightCycle(b: real)
    ensures IsLightLevel(b) ==> IsLightLevel(NextBrightness(b))
    ensures NextBrightness(NextBrightness(NextBrightness(NextBrightness(NextBrightness(0.0))))) == 0.0
    ensures NextBrightness(b) == 0.0 <==> b == 100.0 || b == -25.0
  {
  }

  /**
   * A42 makes exactly one call, setting the brightness that follows the
   * current one, sends nothing, and from a light level moves to a light level.
   */
  lemma CaseLightSetsNextLevel(h: Host)
    ensures CaseLight(h) == h.(calls := h.calls + [SetCaseLight(NextBrightness(h.caseLightPercent))])
    ensures IsLightLevel(h.caseLightPercent) ==> IsLightLevel(CaseLight(h).calls[|h.calls|].percent)
  {
    CaseLightCycle(h.caseLightPercent);
  }

  /**
   * A23 and A24 when idle: Z is raised to 10 mm first when it is lower,
   * then the hotend and the bed get their targets, in that order, and the
   * panel is answered OK.
   */
  lemma PreheatSetsTargets(h: Host, hotend: int, bed: int)
    requires Idle(h)
    ensures Preheat(h, hotend, bed) == h.(out := h.out + "OK\r\n",
      calls := h.calls + (if h.posZ < 10.0 then [GcodeNow("G1 Z10")] else [])
        + [SetHotendTarget(hotend), SetBedTarget(bed)])
  {
  }

  /** A23 preheats to the first preset (PLA), A24 to the second (ABS). */
  lemma PreheatPresets(cfg: Config, h: Host, line: string)
    requires SaneConfig(cfg)
    ensures Respond(cfg, h, line, 23) == Preheat(h, cfg.preheat1Hotend, cfg.preheat1Bed)
    ensures Respond(cfg, h, line, 24) == Preheat(h, cfg.preheat2Hotend, cfg.preheat2Bed)
  {
  }

  /**
   * A25 when idle zeroes the hotend target and then the bed target and
   * sends J12, with no motion.
   */
  lemma CooldownZeroes(cfg: Config, h: Host, line: string)
    requires Idle(h) && SaneConfig(cfg)
    ensures Respond(cfg, h, line, 25)
      == h.(out := h.out + "J12\r\n", calls := h.calls + [SetHotendTarget(0), SetBedTarget(0)])
  {
  }

  /**
   * The commands that ignore their parameters and the printer state: A12
   * kills, A40 resets the settings with M502 and A33 reports the version.
   */
  lemma FixedResponses(cfg: Config, h: Host, line: string)
    requires SaneConfig(cfg)
    ensures Respond(cfg, h, line, 12) == h.(calls := h.calls + [Kill])
    ensures Respond(cfg, h, line, 40) == h.(calls := h.calls + [GcodeNow("M502")])
    ensures Respond(cfg, h, line, 33) == h.(out := h.out + cfg.txVersionInfo + cfg.buildVersion + "\r\n")
  {
  }

  /** A41: enable beats disable beats status; only status answers the panel. */
  lemma AutoPowerOffChoice(cfg: Config, h: Host, line: string)
    ensures Seen(line, cfg.rxCodeEnable) ==> AutoPowerOff(cfg, h, line) == h.(calls := h.calls + [GcodeNow("M85 S900")])
    ensures !Seen(line, cfg.rxCodeEnable) && Seen(line, cfg.rxCodeDisable) ==>
      AutoPowerOff(cfg, h, line) == h.(calls := h.calls + [GcodeNow("M85 S0")])
    ensures !Seen(line, cfg.rxCodeEnable) && !Seen(line, cfg.rxCodeDisable) && Seen(line, cfg.rxCodeStatus) ==>
      AutoPowerOff(cfg, h, line).calls == h.calls
      && AutoPowerOff(cfg, h, line).out == h.out + (if h.maxInactiveTime != 0 then cfg.txAutoShutdownOn else cfg.txAutoShutdownOff) + CRLF
  {
  }
}
