/**
 * The receive side of the protocol: characters from the panel are framed
 * into lines in the four-slot queue, a line that holds an 'A' is handled
 * as soon as it is terminated, and the main loop releases one queued line
 * per call. A pure framing function on strings (Consume) is the reference
 * the receiver is proved against.
 */
module Framer {
  import opened Text
  import opened Numbers
  import opened Hosts
  import opened Worlds
  import opened Handlers
  import opened Browser

  /**
   * handleCommand(id) for the line whose 'A' is at aPos: the three browser
   * commands work on the world, every other id on the printer and the
   * panel, with its parameters read from the oldest queued line.
   */
  function Handle(cfg: Config, w: World, id: int, aPos: nat): (r: World)
    requires Valid(w) && SaneConfig(cfg) && aPos < |w.mem| && w.mem[aPos] == CommandLetter && 0 <= id < 256
    ensures SameQueue(w, r)
  {
    if id == 8 then List(cfg, w)
    else if id == 13 then SelectFile(cfg, w, aPos)
    else if id == 26 then Refresh(cfg, w)
    else w.(host := Respond(cfg, w.host, CurrentLine(w), id))
  }

  /** The id a line is handled under: the number after its first 'A'; None without an 'A'. */
  function LineId(line: string): Option<int> {
    if CommandLetter in line then Some(CommandId(Strtod(After(line, CommandLetter)))) else None
  }

  /** The NUL written after the partial line, which makes it the C string of its slot. */
  function Cut(w: World): (r: World)
    requires Valid(w) && w.count > 0
    ensures Valid(r) && SameQueue(w, r) && r == w.(mem := r.mem)
    ensures CStrAt(r.mem, SlotStart(w.bufindw)) == CStr(Partial(w))
  {
    var start := SlotStart(w.bufindw);
    var mem := w.mem[start + w.count := NUL];
    NulKeepsRowEnds(w.mem, start + w.count);
    CutText(w.mem, start, w.count);
    SameQueueValid(w, w.(mem := mem));
    w.(mem := mem)
  }

  /** After a NUL at start + n, the C string at start is the n characters before it. */
  lemma CutText(mem: seq<char>, start: nat, n: nat)
    requires start + n < |mem|
    ensures CStrAt(mem[start + n := NUL], start) == CStr(mem[start..start + n])
  {
    var cut := mem[start + n := NUL];
    assert cut[start..start + n] == mem[start..start + n];
    CStrAtSame(cut, start, mem[start..start + n], 0, n);
  }

  /**
   * The line in the write slot is handled if strchr finds an 'A' in it: the
   * id is strtod of the text one past that 'A'. The second result is the id.
   */
  function Dispatch(cfg: Config, w: World): (r: (World, Option<int>))
    requires Valid(w) && SaneConfig(cfg)
    ensures SameQueue(w, r.0) && (r.1.Some? ==> 0 <= r.1.value < 256)
    ensures r.1.None? ==> r.0 == w
  {
    match Strchr(w.mem, SlotStart(w.bufindw), CommandLetter)
    case Some(p) =>
      var id := CommandId(Strtod(CStrAt(w.mem, p + 1)));
      (Handle(cfg, w, id, p), Some(id))
    case None => (w, None)
  }

  /** Dispatch handles the line under the id after the 'A' strchr finds, and leaves a line without one alone. */
  lemma DispatchFound(cfg: Config, w: World)
    requires Valid(w) && SaneConfig(cfg)
    ensures match Strchr(w.mem, SlotStart(w.bufindw), CommandLetter)
      case Some(p) => Dispatch(cfg, w).0 == Handle(cfg, w, CommandId(Strtod(CStrAt(w.mem, p + 1))), p)
      case None => Dispatch(cfg, w).0 == w
  {
  }

  /** The id a line is dispatched under is the number after the first 'A' of its text. */
  lemma DispatchId(cfg: Config, w: World)
    requires Valid(w) && SaneConfig(cfg)
    ensures Dispatch(cfg, w).1 == LineId(CStrAt(w.mem, SlotStart(w.bufindw)))
  {
    var start := SlotStart(w.bufindw);
    var line := CStrAt(w.mem, start);
    match Strchr(w.mem, start, CommandLetter)
    case Some(p) =>
      assert CommandLetter in line && CStrAt(w.mem, p + 1) == After(line, CommandLetter) by {
        StrchrAfter(w.mem, start, CommandLetter, p);
      }
    case None =>
      assert CommandLetter !in line by {
        StrchrFinds(w.mem, start, CommandLetter);
      }
  }

  /** The terminated line takes its slot: the write slot moves on and the next line starts empty. */
  function Enqueue(w: World): (r: World)
    requires Valid(w) && w.buflen < BufSize
    ensures Valid(r) && r.buflen == w.buflen + 1 && r.count == 0
    ensures r == w.(bufindw := r.bufindw, buflen := r.buflen, count := 0)
  {
    NextWriteSlot(w);
    w.(bufindw := (w.bufindw + 1) % 4, buflen := w.buflen + 1, count := 0)
  }

  /**
   * A line end with a non-empty partial line: the line gets its NUL, is
   * handled if it holds an 'A', and takes its slot in the queue. The second
   * result is the text of the line.
   */
  function Terminate(cfg: Config, w: World): (r: (World, string))
    requires Valid(w) && SaneConfig(cfg) && w.count > 0 && w.buflen < BufSize
    ensures Valid(r.0) && r.0.rx == w.rx
    ensures r.0.buflen == w.buflen + 1 && r.0.bufindr == w.bufindr && r.0.count == 0
    ensures r.1 == CStr(Partial(w))
  {
    var w1 := Cut(w);
    var d := Dispatch(cfg, w1);
    SameQueueValid(w1, d.0);
    (Enqueue(d.0), CStrAt(w1.mem, SlotStart(w1.bufindw)))
  }

  /** Terminate, given the world after the cut (w1) and after the dispatch (w2). */
  lemma TerminateSteps(cfg: Config, w: World, w1: World, line: string, w2: World)
    requires Valid(w) && SaneConfig(cfg) && w.count > 0 && w.buflen < BufSize
    requires w1 == Cut(w) && line == CStrAt(w1.mem, SlotStart(w1.bufindw))
    requires w2 == Dispatch(cfg, w1).0
    ensures Valid(w2) && w2.buflen < BufSize
    ensures Terminate(cfg, w) == (Enqueue(w2), line)
  {
    SameQueueValid(w1, w2);
  }

  /** A character stored at the end of the partial line. */
  function Store(w: World, c: char): (r: World)
    requires Valid(w) && w.count < MaxCmdSize - 1 && w.buflen < BufSize
    ensures Valid(r) && r.count == w.count + 1
    ensures r == w.(mem := r.mem, count := r.count)
    ensures Partial(r) == Partial(w) + [c]
  {
    var p := SlotStart(w.bufindw) + w.count;
    InnerCell(w.bufindw, w.count);
    var r := w.(mem := w.mem[p := c], count := w.count + 1);
    assert Partial(r) == Partial(w) + [c];
    r
  }

  /**
   * receiveCommands(): while characters wait and the queue has room, read
   * one. A line end (LF, CR or ':') or a full partial line terminates the
   * line; the character that forces the end is dropped. A line end with an
   * empty partial line stops reading at once. The second component lists
   * the text of every line queued, in order; each that holds an 'A' was
   * handled under LineId of that text.
   */
  function Receive(cfg: Config, w: World, trace: seq<string>): (r: (World, seq<string>))
    requires Valid(w) && SaneConfig(cfg)
    ensures Valid(r.0) && r.0.bufindr == w.bufindr && r.0.buflen >= w.buflen
    decreases |w.rx|
  {
    if w.rx == [] || w.buflen >= BufSize then (w, trace)
    else
      var c := w.rx[0];
      var w0 := w.(rx := w.rx[1..]);
      if IsTerminator(c) || w.count >= MaxCmdSize - 1 then
        if w.count == 0 then (w0, trace)
        else
          var (w1, e) := Terminate(cfg, w0);
          Receive(cfg, w1, trace + [e])
      else Receive(cfg, Store(w0, c), trace)
  }

  /**
   * loop(): characters are received only while fewer than three lines
   * wait, then the oldest waiting line, if any, is released.
   */
  function Loop(cfg: Config, w: World): (r: (World, seq<string>))
    requires Valid(w) && SaneConfig(cfg)
    ensures Valid(r.0)
  {
    var received := if w.buflen < BufSize - 1 then Receive(cfg, w, []) else (w, []);
    (if received.0.buflen > 0 then Release(received.0) else received.0, received.1)
  }

  /** The oldest waiting line leaves the queue. */
  function Release(w: World): (r: World)
    requires Valid(w) && w.buflen > 0
    ensures Valid(r) && r.buflen == w.buflen - 1 && r.bufindr == (w.bufindr + 1) % 4
    ensures r == w.(buflen := r.buflen, bufindr := r.bufindr)
  {
    NextReadSlot(w);
    w.(buflen := w.buflen - 1, bufindr := (w.bufindr + 1) % 4)
  }

  // ---------------------------------------------------------------------
  // The framing reference

  /**
   * Framing on strings: p is the partial line, input the characters still
   * to come, room the number of lines the queue can still take. The result
   * is the lines completed, the partial line afterwards and the characters
   * left unread.
   */
  function Consume(p: string, input: string, room: nat): (seq<string>, string, string)
    decreases |input|
  {
    if input == [] || room == 0 then ([], p, input)
    else if IsTerminator(input[0]) || |p| >= MaxCmdSize - 1 then
      if p == [] then ([], p, input[1..])
      else
        var (ls, q, rest) := Consume([], input[1..], room - 1);
        ([p] + ls, q, rest)
    else Consume(p + [input[0]], input[1..], room)
  }

  /** The texts of queued lines: each read back as the C string of its slot. */
  function Texts(lines: seq<string>): seq<string> {
    if lines == [] then [] else [CStr(lines[0])] + Texts(lines[1..])
  }

  /** A line the receiver can queue: one to 95 characters, none of them a line end. */
  predicate WellFormedLine(l: string) {
    1 <= |l| <= MaxCmdSize - 1 && forall i :: 0 <= i < |l| ==> !IsTerminator(l[i])
  }

  /** Lines each followed by a line feed. */
  function Join(ls: seq<string>): string {
    if ls == [] then [] else ls[0] + [LF] + Join(ls[1..])
  }

  // ---------------------------------------------------------------------
  // Properties of the receiver

  /**
   * r, the result of receiving from w with the line texts trace so far,
   * agrees with c, the result of the framing reference: the unread input,
   * the number of lines queued, the partial line and the texts of the
   * lines queued.
   */
  predicate Frames(w: World, trace: seq<string>, r: (World, seq<string>), c: (seq<string>, string, string)) {
    && Valid(r.0)
    && r.0.rx == c.2
    && r.0.buflen == w.buflen + |c.0|
    && r.0.count == |c.1| && Partial(r.0) == c.1
    && r.1 == trace + Texts(c.0)
  }

  /** The receiver does what the framing reference says. */
  lemma {:induction false} ReceiveFrames(cfg: Config, w: World, trace: seq<string>)
    requires Valid(w) && SaneConfig(cfg)
    ensures Frames(w, trace, Receive(cfg, w, trace), Consume(Partial(w), w.rx, BufSize - w.buflen))
    decreases |w.rx|, 2
  {
    var room := BufSize - w.buflen;
    if w.rx == [] || w.buflen >= BufSize {
      assert Receive(cfg, w, trace) == (w, trace);
      assert Consume(Partial(w), w.rx, room) == ([], Partial(w), w.rx);
    } else if !IsTerminator(w.rx[0]) && w.count < MaxCmdSize - 1 {
      FramesAfterStore(cfg, w, trace);
    } else if w.count == 0 {
      assert Receive(cfg, w, trace) == (w.(rx := w.rx[1..]), trace);
      assert Consume(Partial(w), w.rx, room) == ([], Partial(w), w.rx[1..]);
    } else {
      FramesAfterTerminate(cfg, w, trace);
    }
  }

  lemma {:induction false} FramesAfterStore(cfg: Config, w: World, trace: seq<string>)
    requires Valid(w) && SaneConfig(cfg) && w.rx != [] && w.buflen < BufSize
    requires !IsTerminator(w.rx[0]) && w.count < MaxCmdSize - 1
    ensures Frames(w, trace, Receive(cfg, w, trace), Consume(Partial(w), w.rx, BufSize - w.buflen))
    decreases |w.rx|, 1
  {
    var w0 := w.(rx := w.rx[1..]);
    assert Partial(w0) == Partial(w);
    var w1 := Store(w0, w.rx[0]);
    ReceiveStores(cfg, w, trace, w0, w1);
    ConsumeStores(Partial(w), w.rx, BufSize - w.buflen);
    FramesAfterChar(cfg, w, trace, w1);
  }

  /** The same, with the world after the character is stored given as w1. */
  lemma {:induction false} FramesAfterChar(cfg: Config, w: World, trace: seq<string>, w1: World)
    requires Valid(w) && SaneConfig(cfg) && w.rx != [] && w.buflen < BufSize
    requires Valid(w1) && w1.rx == w.rx[1..] && w1.buflen == w.buflen && Partial(w1) == Partial(w) + [w.rx[0]]
    ensures Frames(w, trace, Receive(cfg, w1, trace), Consume(Partial(w) + [w.rx[0]], w.rx[1..], BufSize - w.buflen))
    decreases |w.rx|, 0
  {
    var c := Consume(Partial(w1), w1.rx, BufSize - w1.buflen);
    assert Consume(Partial(w) + [w.rx[0]], w.rx[1..], BufSize - w.buflen) == c;
    ReceiveFrames(cfg, w1, trace);
    FramesSameLength(w1, w, trace, Receive(cfg, w1, trace), c);
  }

  lemma FramesSameLength(w1: World, w: World, trace: seq<string>, r: (World, seq<string>), c: (seq<string>, string, string))
    requires w1.buflen == w.buflen && Frames(w1, trace, r, c)
    ensures Frames(w, trace, r, c)
  {
  }

  lemma {:induction false} FramesAfterTerminate(cfg: Config, w: World, trace: seq<string>)
    requires Valid(w) && SaneConfig(cfg) && w.rx != [] && w.buflen < BufSize && w.count > 0
    requires IsTerminator(w.rx[0]) || w.count >= MaxCmdSize - 1
    ensures Frames(w, trace, Receive(cfg, w, trace), Consume(Partial(w), w.rx, BufSize - w.buflen))
    decreases |w.rx|, 1
  {
    var w0 := w.(rx := w.rx[1..]);
    ReadKeepsValid(w, w.rx[1..]);
    assert Partial(w0) == Partial(w);
    var d := Terminate(cfg, w0);
    var w1, e := d.0, d.1;
    assert Valid(w1) && w1.rx == w.rx[1..] && w1.buflen == w.buflen + 1 && w1.count == 0 && e == CStr(Partial(w));
    ReceiveTerminates(cfg, w, trace, w0, w1, e);
    ConsumeTerminates(Partial(w), w.rx, BufSize - w.buflen);
    FramesAfterLine(cfg, w, trace, w1, e);
  }

  /** The same, with the world after the line end given as w1 and its text as e. */
  lemma {:induction false} FramesAfterLine(cfg: Config, w: World, trace: seq<string>, w1: World, e: string)
    requires Valid(w) && SaneConfig(cfg) && w.rx != [] && w.buflen < BufSize && w.count > 0
    requires Valid(w1) && w1.rx == w.rx[1..] && w1.buflen == w.buflen + 1 && w1.count == 0
    requires e == CStr(Partial(w))
    ensures var tail := Consume([], w.rx[1..], BufSize - w.buflen - 1);
      Frames(w, trace, Receive(cfg, w1, trace + [e]), ([Partial(w)] + tail.0, tail.1, tail.2))
    decreases |w.rx|, 0
  {
    assert Partial(w1) == [];
    ReceiveFrames(cfg, w1, trace + [e]);
    FramesCons(w, trace, w1, e, Receive(cfg, w1, trace + [e]), Partial(w), Consume([], w.rx[1..], BufSize - w.buflen - 1));
  }

  /** One more line in front of what the rest of the input frames. */
  lemma FramesCons(w: World, trace: seq<string>, w1: World, e: string,
                   r: (World, seq<string>), p: string, tail: (seq<string>, string, string))
    requires w1.buflen == w.buflen + 1 && e == CStr(p)
    requires Frames(w1, trace + [e], r, tail)
    ensures Frames(w, trace, r, ([p] + tail.0, tail.1, tail.2))
  {
    assert r.1 == trace + Texts([p] + tail.0) by {
      TextsCons(p, tail.0);
      assert (trace + [e]) + Texts(tail.0) == trace + ([e] + Texts(tail.0));
    }
  }

  /** A line end after a non-empty partial line: terminate (w0 is w with the character read), then go on receiving. */
  lemma ReceiveTerminates(cfg: Config, w: World, trace: seq<string>, w0: World, w1: World, line: string)
    requires Valid(w) && SaneConfig(cfg) && w.rx != [] && w.buflen < BufSize && w.count > 0
    requires IsTerminator(w.rx[0]) || w.count >= MaxCmdSize - 1
    requires w0 == w.(rx := w.rx[1..]) && (w1, line) == Terminate(cfg, w0)
    ensures Receive(cfg, w, trace) == Receive(cfg, w1, trace + [line])
  {
  }

  /** Any other character: store it (w0 is w with the character read), then go on receiving. */
  lemma ReceiveStores(cfg: Config, w: World, trace: seq<string>, w0: World, w1: World)
    requires Valid(w) && SaneConfig(cfg) && w.rx != [] && w.buflen < BufSize
    requires !IsTerminator(w.rx[0]) && w.count < MaxCmdSize - 1
    requires w0 == w.(rx := w.rx[1..]) && w1 == Store(w0, w.rx[0])
    ensures Receive(cfg, w, trace) == Receive(cfg, w1, trace)
  {
  }

  /** Nothing is read when no character waits or the queue is full. */
  lemma ReceiveStops(cfg: Config, w: World, trace: seq<string>)
    requires Valid(w) && SaneConfig(cfg) && (w.rx == [] || w.buflen >= BufSize)
    ensures Receive(cfg, w, trace) == (w, trace)
  {
  }

  /** The reference's step for a line end after a non-empty partial line. */
  lemma ConsumeTerminates(p: string, input: string, room: nat)
    requires input != [] && room > 0 && p != []
    requires IsTerminator(input[0]) || |p| >= MaxCmdSize - 1
    ensures var tail := Consume([], input[1..], room - 1);
      Consume(p, input, room) == ([p] + tail.0, tail.1, tail.2)
  {
  }

  /** The reference's step for any other character. */
  lemma ConsumeStores(p: string, input: string, room: nat)
    requires input != [] && room > 0
    requires !IsTerminator(input[0]) && |p| < MaxCmdSize - 1
    ensures Consume(p, input, room) == Consume(p + [input[0]], input[1..], room)
  {
  }

  lemma TextsCons(l: string, ls: seq<string>)
    ensures Texts([l] + ls) == [CStr(l)] + Texts(ls)
  {
    assert ([l] + ls)[1..] == ls;
  }

  /** Every line the reference frames from a clean start is one the queue can hold. */
  lemma {:induction false} ConsumedLinesWellFormed(p: string, input: string, room: nat)
    requires |p| <= MaxCmdSize - 1 && forall i :: 0 <= i < |p| ==> !IsTerminator(p[i])
    ensures var (lines, q, _) := Consume(p, input, room);
      && |lines| <= room
      && (forall k :: 0 <= k < |lines| ==> WellFormedLine(lines[k]))
      && |q| <= MaxCmdSize - 1 && (forall i :: 0 <= i < |q| ==> !IsTerminator(q[i]))
    decreases |input|
  {
    if input == [] || room == 0 {
    } else if IsTerminator(input[0]) || |p| >= MaxCmdSize - 1 {
      if p != [] {
        ConsumedLinesWellFormed([], input[1..], room - 1);
      }
    } else {
      ConsumedLinesWellFormed(p + [input[0]], input[1..], room);
    }
  }

  /** The characters of a line without line ends are appended to the partial line. */
  lemma {:induction false} ConsumeText(p: string, l: string, rest: string, room: nat)
    requires room > 0 && |p| + |l| <= MaxCmdSize - 1
    requires forall i :: 0 <= i < |l| ==> !IsTerminator(l[i])
    ensures Consume(p, l + rest, room) == Consume(p + l, rest, room)
    decreases |l|
  {
    if l != [] {
      assert (l + rest)[0] == l[0] && (l + rest)[1..] == l[1..] + rest;
      ConsumeText(p + [l[0]], l[1..], rest, room);
      assert p + [l[0]] + l[1..] == p + l;
    } else {
      assert l + rest == rest && p + l == p;
    }
  }

  /**
   * Round trip: well-formed lines sent one after the other, each ended by
   * a line feed, are framed back into exactly those lines when the queue
   * has room for them.
   */
  lemma {:induction false} ConsumeJoin(ls: seq<string>, room: nat)
    requires |ls| <= room
    requires forall k :: 0 <= k < |ls| ==> WellFormedLine(ls[k])
    ensures Consume([], Join(ls), room) == (ls, [], [])
  {
    if ls != [] {
      var l := ls[0];
      var rest := [LF] + Join(ls[1..]);
      assert Join(ls) == l + rest;
      ConsumeText([], l, rest, room);
      assert [] + l == l;
      assert rest[0] == LF && rest[1..] == Join(ls[1..]);
      ConsumeJoin(ls[1..], room - 1);
      assert [l] + ls[1..] == ls;
    }
  }

  /**
   * A character arriving when the partial line is full ends the line as a
   * line feed would: it is consumed and never stored.
   */
  lemma ForcedEndDropsCharacter(p: string, c: char, rest: string, room: nat)
    requires |p| == MaxCmdSize - 1 && room > 0
    ensures Consume(p, [c] + rest, room) == Consume(p, [LF] + rest, room)
  {
    assert ([c] + rest)[1..] == rest && ([LF] + rest)[1..] == rest;
  }

  /**
   * A line end with an empty partial line makes receiveCommands return at
   * once: that character is consumed and the rest of the input stays
   * unread, although the queue has room.
   */
  lemma EmptyLineStops(cfg: Config, w: World, trace: seq<string>)
    requires Valid(w) && SaneConfig(cfg) && w.count == 0 && w.buflen < BufSize
    requires w.rx != [] && IsTerminator(w.rx[0])
    ensures Receive(cfg, w, trace) == (w.(rx := w.rx[1..]), trace)
  {
  }

  /**
   * The parameters of a dispatched line are read from the oldest queued
   * line: that is the line being dispatched when the queue was empty, and a
   * different slot otherwise.
   */
  lemma DispatchReadsOldestLine(w: World)
    requires Valid(w) && w.count > 0 && w.buflen < BufSize
    ensures w.buflen == 0 ==> CurrentLine(Cut(w)) == CStr(Partial(w))
    ensures w.buflen > 0 ==> w.bufindr != w.bufindw
  {
    SlotsCoincide(w);
  }

  /**
   * loop() keeps the queue invariant, leaves at most three lines waiting,
   * releases at most one line, and reads nothing while three or more wait.
   */
  lemma LoopBounds(cfg: Config, w: World)
    requires Valid(w) && SaneConfig(cfg)
    ensures var r := Loop(cfg, w).0;
      && Valid(r) && r.buflen <= BufSize - 1
      && (r.bufindr == w.bufindr || r.bufindr == (w.bufindr + 1) % 4)
      && (w.buflen >= BufSize - 1 ==> r.rx == w.rx && r.buflen == w.buflen - 1)
      && (w.buflen > 0 ==> r.bufindr == (w.bufindr + 1) % 4)
  {
    var received := if w.buflen < BufSize - 1 then Receive(cfg, w, []) else (w, []);
    assert Loop(cfg, w).0 == if received.0.buflen > 0 then Release(received.0) else received.0;
  }

  /** loop() is the receiver, run when fewer than three lines wait, followed by the release of the oldest line. */
  lemma LoopReleases(cfg: Config, w: World, r: World)
    requires Valid(w) && SaneConfig(cfg)
    requires r == if w.buflen < BufSize - 1 then Receive(cfg, w, []).0 else w
    ensures Valid(r)
    ensures r.buflen > 0 ==> Loop(cfg, w).0 == Release(r)
    ensures r.buflen == 0 ==> Loop(cfg, w).0 == r
  {
  }

  /** A queued line never holds a line end and never has more than 95 characters. */
  lemma QueuedLinesWellFormed(cfg: Config, w: World)
    requires Valid(w) && SaneConfig(cfg) && w.count == 0
    ensures var (lines, _, _) := Consume(Partial(w), w.rx, BufSize - w.buflen);
      forall k :: 0 <= k < |lines| ==> WellFormedLine(lines[k])
  {
    ConsumedLinesWellFormed(Partial(w), w.rx, BufSize - w.buflen);
  }
}
