/**
 * The state the panel engine works on, as one value: the receive buffer
 * (four lines of 96 characters laid out one after the other, as the C
 * two-dimensional array is), the ring-queue counters, the characters still
 * waiting on the serial port, the printer, and the file browser's two
 * selection strings.
 */
module Worlds {
  import opened Text
  import opened Numbers
  import opened Hosts

  /** Lines the receive queue holds (DWIN_TFT_BUFSIZE). */
  const BufSize: nat := 4
  /** Characters per queue slot, the terminating NUL included (DWIN_TFT_MAX_CMD_SIZE). */
  const MaxCmdSize: nat := 96
  /** The receive buffer as one flat character memory. */
  const MemSize: nat := 384

  /** The character that starts a command id. */
  const CommandLetter: char := 'A'

  /** The characters that end a line: line feed, carriage return and ':'. */
  predicate IsTerminator(c: char) {
    c == LF || c == CR || c == ':'
  }

  /** The last character of every slot is a NUL (the receiver never writes anything else there). */
  predicate RowEnds(mem: seq<char>) {
    |mem| == MemSize && mem[95] == NUL && mem[191] == NUL && mem[287] == NUL && mem[383] == NUL
  }

  datatype World = World(
    mem: seq<char>,
    buflen: int,
    bufindr: int,
    bufindw: int,
    count: int,
    rx: string,
    host: Host,
    selectedDirectory: string,
    selectedFilename: string)

  /**
   * The queue invariant: buflen complete lines wait from slot bufindr on,
   * bufindw is the slot being filled, count characters of it are in, and a
   * full queue has no partial line.
   */
  predicate Valid(w: World) {
    RowEnds(w.mem)
    && 0 <= w.buflen <= BufSize
    && 0 <= w.bufindr < BufSize && 0 <= w.bufindw < BufSize
    && w.bufindw == (w.bufindr + w.buflen) % 4
    && 0 <= w.count <= MaxCmdSize - 1
    && (w.buflen == BufSize ==> w.count == 0)
  }

  /** The state after power-on: an empty queue and a zeroed buffer. */
  function Initial(host: Host, rx: string): (w: World)
    ensures Valid(w) && w.buflen == 0 && w.count == 0
    ensures CurrentLine(w) == []
  {
    World(seq(MemSize, _ => NUL), 0, 0, 0, 0, rx, host, [], [])
  }

  /** The position of slot r in the flat buffer. */
  function SlotStart(r: int): nat
    requires 0 <= r < BufSize
  {
    r * 96
  }

  /**
   * The line the parameter lookups read: the C string in slot bufindr, the
   * oldest queued line, which is not always the line being dispatched.
   */
  function CurrentLine(w: World): string
    requires Valid(w)
  {
    CStrAt(w.mem, SlotStart(w.bufindr))
  }

  /** The characters of the line being received. */
  function Partial(w: World): string
    requires Valid(w)
  {
    w.mem[SlotStart(w.bufindw)..SlotStart(w.bufindw) + w.count]
  }

  /** A line read from a slot never has more than 95 characters. */
  lemma LineFitsSlot(w: World, r: int)
    requires Valid(w) && 0 <= r < BufSize
    ensures |CStrAt(w.mem, SlotStart(r))| <= MaxCmdSize - 1
  {
    CStrAtBefore(w.mem, SlotStart(r), SlotStart(r) + MaxCmdSize - 1);
  }

  /** codeSeen(c): the letter occurs in the line. */
  predicate Seen(line: string, c: char) {
    c in line
  }

  /** codeValue() after codeSeen(c): strtod of the text after the first c. */
  function Value(line: string, c: char): real
    requires Seen(line, c)
  {
    Strtod(After(line, c))
  }

  /** Everything the queue mechanics depend on is the same in a and b; the printer may differ. */
  predicate SameQueue(a: World, b: World) {
    RowEnds(b.mem)
    && b.buflen == a.buflen && b.bufindr == a.bufindr && b.bufindw == a.bufindw
    && b.count == a.count && b.rx == a.rx
  }

  /** Reading from the serial input leaves the queue as it was. */
  lemma ReadKeepsValid(w: World, rest: string)
    requires Valid(w)
    ensures Valid(w.(rx := rest))
  {
  }

  /** A NUL written anywhere keeps the row ends NUL. */
  lemma NulKeepsRowEnds(mem: seq<char>, k: nat)
    requires RowEnds(mem) && k < |mem|
    ensures RowEnds(mem[k := NUL])
  {
  }

  /** A world with the same queue as a valid one is valid. */
  lemma SameQueueValid(a: World, b: World)
    requires Valid(a) && SameQueue(a, b)
    ensures Valid(b)
  {
  }

  /** Moving the write slot on by one keeps it buflen + 1 slots after the read slot. */
  lemma NextWriteSlot(w: World)
    requires Valid(w) && w.buflen < BufSize
    ensures (w.bufindw + 1) % 4 == (w.bufindr + w.buflen + 1) % 4
  {
  }

  /** Moving the read slot on by one keeps the write slot buflen - 1 slots after it. */
  lemma NextReadSlot(w: World)
    requires Valid(w) && w.buflen > 0
    ensures w.bufindw == ((w.bufindr + 1) % 4 + w.buflen - 1) % 4
  {
  }

  /** The read and write slots coincide exactly when the queue is empty or full. */
  lemma SlotsCoincide(w: World)
    requires Valid(w)
    ensures w.buflen == 0 ==> w.bufindr == w.bufindw
    ensures 0 < w.buflen < BufSize ==> w.bufindr != w.bufindw
  {
  }

  /** A cell of a slot before its last one is no slot's last cell. */
  lemma InnerCell(r: int, j: int)
    requires 0 <= r < BufSize && 0 <= j < MaxCmdSize - 1
    ensures var p := SlotStart(r) + j; p < MemSize - 1 && p != 95 && p != 191 && p != 287
  {
  }
}
