/**
 * Everything the panel engine talks to but does not own: the build
 * configuration, the printer state it reads through ExtUI, the SD card's
 * directory enumerator, the calls it makes into the firmware (G-code
 * injection and queueing, setters, print control) and the characters it
 * writes to the panel's serial port.
 *
 * The printer state is an input: a setter call is recorded, and the model
 * does not guess how the firmware reacts to it. The directory enumerator
 * and the open file are the exception, because the browser reads back
 * what its own calls changed.
 */
module Hosts {
  import opened Text

  /** A parameter letter the panel code looks for with strchr (never NUL). */
  type Letter = c: char | c != NUL witness 'A'

  /**
   * Build-time constants that the engine's files use but do not define:
   * temperature limits and presets, the version string, the reply prefixes
   * of the status queries, the auto power-off letters, the names of the
   * extra-menu entries, and how a menu line and a float are printed.
   */
  datatype Config = Config(
    hasResumeContinue: bool,
    heater0MaxTemp: int,
    bedMaxTemp: int,
    preheat1Hotend: int,
    preheat1Bed: int,
    preheat2Hotend: int,
    preheat2Bed: int,
    buildVersion: string,
    txHotendTemp: string,
    txHotendTargetTemp: string,
    txHotbedTemp: string,
    txHotbedTargetTemp: string,
    txFanSpeed: string,
    txCurrentCoordinates: string,
    txPrintingStatus: string,
    txPrintingTime: string,
    txPrintSpeed: string,
    txVersionInfo: string,
    txAutoShutdownOn: string,
    txAutoShutdownOff: string,
    rxCodeEnable: Letter,
    rxCodeDisable: Letter,
    rxCodeStatus: Letter,
    menuHotendPid: string,
    menuHotbedPid: string,
    menuSaveEeprom: string,
    menuLoadDefaults: string,
    menuPreheatBed: string,
    menuStartMesh: string,
    menuNextMesh: string,
    menuZUp01: string,
    menuZUp002: string,
    menuZDown01: string,
    menuZDown002: string,
    menuLine: string -> string,
    floatText: real -> string)

  /** The temperature limits fit the uint16_t the handlers store targets in. */
  predicate SaneConfig(cfg: Config) {
    0 <= cfg.heater0MaxTemp < 65536 && 0 <= cfg.bedMaxTemp < 65536
  }

  /** One directory entry as the enumerator reports it. */
  datatype Entry = Entry(shortName: string, longName: string, isDir: bool)

  /**
   * The SD card as the file list sees it: the current directory path, the
   * entries of every directory, the entry the last successful seek
   * selected, whether a file is open, and which paths can be opened.
   */
  datatype Media = Media(
    path: seq<string>,
    dirs: map<seq<string>, seq<Entry>>,
    current: Entry,
    fileOpen: bool,
    readable: set<seq<string>>)

  /** The step of an A22 jog: a snapped tenth of a millimetre or a whole number. */
  datatype JogStep = Snap(negative: bool) | Whole(n: int)

  /**
   * The feed of an A22 jog: the F value scaled by the axis' maximum feedrate
   * (which the model does not know), or a literal number.
   */
  datatype Feed = ScaledFeed(requested: int) | FeedValue(n: int)

  /** A call from the panel engine into the rest of the firmware. */
  datatype Call =
    | GcodeNow(gcode: string)
    | GcodeQueue(gcode: string)
    | Jog(axis: char, step: JogStep, feed: Feed)
    | QueueUnset
    | SetHotendTarget(celsius: int)
    | SetBedTarget(celsius: int)
    | SetFanPercent(percent: real)
    | SetFeedratePercent(percent: real)
    | SetCaseLight(percent: real)
    | PausePrint
    | ResumePrint
    | StopPrint
    | StartFilePrint
    | UserConfirmed
    | Kill
    | QuickStop
    | DisableSteppers

  /** The printer as the engine observes it, plus what the engine did to it. */
  datatype Host = Host(
    printing: bool,
    moving: bool,
    mediaInserted: bool,
    printingFromMedia: bool,
    printingFromMediaPaused: bool,
    waitForUser: bool,
    hotendTemp: real,
    hotendTarget: real,
    bedTemp: real,
    bedTarget: real,
    fanPercent: real,
    feedratePercent: real,
    caseLightPercent: real,
    posX: real,
    posY: real,
    posZ: real,
    progressPercent: int,
    elapsedSeconds: nat,
    maxInactiveTime: int,
    media: Media,
    out: string,
    calls: seq<Call>)

  // Reply tokens sent to the panel.
  const J00: string := "J00"
  const J01: string := "J01"
  const J02: string := "J02"
  const J04: string := "J04"
  const J06: string := "J06"
  const J07: string := "J07"
  const J11: string := "J11"
  const J12: string := "J12"
  const J14: string := "J14"
  const J15: string := "J15"
  const J16: string := "J16"
  const J17: string := "J17"
  const J18: string := "J18"
  const J20: string := "J20"
  const J21: string := "J21"
  const FileListStart: string := "FN "
  const FileListEnd: string := "END"
  const Ok: string := "OK"

  // G-code sent to the firmware.
  const G90: string := "G90"
  const G91: string := "G91"
  const M500: string := "M500"
  const M502: string := "M502"
  const RaiseZ10: string := "G1 Z10"
  const HomeAll: string := "G28"
  const HomeX: string := "G28 X"
  const HomeY: string := "G28 Y"
  const HomeZ: string := "G28 Z"
  const InactivityOn: string := "M85 S900"
  const InactivityOff: string := "M85 S0"
  const HotendPidGcode: string := "M106 S204\nM303 E0 S210 C15 U1"
  const HotbedPidGcode: string := "M303 E-1 S60 C6 U1"
  const PreheatBedGcode: string := "M140 S60"
  const MeshStart: string := "G29 S1"
  const MeshNext: string := "G29 S2"

  /** Characters written to the panel. */
  function Emit(h: Host, s: string): Host {
    h.(out := h.out + s)
  }

  /** A reply line: the text, then CR LF. */
  function Send(h: Host, s: string): Host {
    Emit(h, s + CRLF)
  }

  /**
   * r is h with one reply line more: the serial output gains text ending
   * in CR LF, and nothing else changes.
   */
  predicate Replies(h: Host, r: Host) {
    r == h.(out := r.out) && |h.out| + 2 <= |r.out|
    && r.out[..|h.out|] == h.out && r.out[|r.out| - 2..] == CRLF
  }

  /**
   * r only adds to h: what was sent and what was called stay as they were,
   * more may follow, and the printer state is left to the calls.
   */
  predicate Extends(h: Host, r: Host) {
    r == h.(out := r.out, calls := r.calls) && h.out <= r.out && h.calls <= r.calls
  }

  /** A call into the firmware, recorded in order. */
  function Do(h: Host, c: Call): Host {
    h.(calls := h.calls + [c])
  }

  /** The entries of the current directory (none if the path is unknown). */
  function Listing(m: Media): seq<Entry> {
    if m.path in m.dirs then m.dirs[m.path] else []
  }

  function Count(m: Media): nat {
    |Listing(m)|
  }

  predicate AtRoot(m: Media) {
    m.path == []
  }

  /**
   * Selects entry pos of the current directory. A position past the end
   * is refused and leaves the previously selected entry in place.
   */
  function Seek(m: Media, pos: nat): (r: Media)
    ensures pos < Count(m) ==> r == m.(current := Listing(m)[pos])
    ensures pos >= Count(m) ==> r == m
  {
    if pos < Count(m) then m.(current := Listing(m)[pos]) else m
  }

  /** Leaves the current directory; nothing happens at the root. */
  function UpDir(m: Media): (r: Media)
    ensures m.path != [] ==> r == m.(path := m.path[..|m.path| - 1])
    ensures m.path == [] ==> r == m
  {
    if m.path == [] then m else m.(path := m.path[..|m.path| - 1])
  }

  /** Enters a sub-directory of the current one if it exists. */
  function ChangeDir(m: Media, name: string): (r: Media)
    ensures m.path + [name] in m.dirs ==> r == m.(path := m.path + [name])
    ensures m.path + [name] !in m.dirs ==> r == m
  {
    if m.path + [name] in m.dirs then m.(path := m.path + [name]) else m
  }

  /** Tries to open a file of the current directory; the file is open iff that worked. */
  function OpenFileRead(m: Media, name: string): (r: Media)
    ensures r.fileOpen <==> m.path + [name] in m.readable
    ensures r == m.(fileOpen := r.fileOpen)
  {
    m.(fileOpen := m.path + [name] in m.readable)
  }

  /** The media with the file list taken back to the root directory. */
  function AtRootDir(m: Media): (r: Media)
    ensures AtRoot(r) && r == m.(path := [])
  {
    m.(path := [])
  }

  /** Going up once from a directory shortens the path by one and keeps the rest. */
  lemma UpDirShortens(m: Media)
    requires !AtRoot(m)
    ensures |UpDir(m).path| == |m.path| - 1
    ensures UpDir(m).path == m.path[..|m.path| - 1]
    ensures UpDir(m).(path := []) == AtRootDir(m)
  {
  }

  /** Entering an existing sub-directory and going up again restores the file list. */
  lemma ChangeDirThenUpDir(m: Media, name: string)
    requires m.path + [name] in m.dirs
    ensures UpDir(ChangeDir(m, name)) == m
  {
    assert (m.path + [name])[..|m.path|] == m.path;
  }
}
