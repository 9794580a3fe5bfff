/**
 * The engine as the firmware runs it: the command class owns the receive
 * buffer (a 384-character array, four slots of 96), the queue counters,
 * the strchr pointer and the port's pending input; the file browser owns
 * the two selection strings. Every method is proved to leave the engine in
 * the state the matching function of Framer or Browser computes from the
 * state before, so the properties proved there hold of the methods.
 */
module Engine {
  import opened Text
  import opened Numbers
  import opened Hosts
  import opened Worlds
  import opened Handlers
  import Browser
  import Framer

  /** DwinTFTFileBrowser: the selected directory and file name. */
  class FileBrowser {
    var selectedFilename: string
    var selectedDirectory: string

    constructor ()
      ensures selectedFilename == [] && selectedDirectory == []
    {
      selectedFilename := [];
      selectedDirectory := [];
    }

    /** reset(): both selections become empty strings. */
    method Reset()
      modifies this
      ensures selectedFilename == [] && selectedDirectory == []
    {
      selectedFilename := [];
      selectedDirectory := [];
    }

    /**
     * The listing loop of listFiles(): positions lo .. hi-1 are sought one
     * after the other and the selected entry of each is printed. The lines
     * are gathered and written to the serial port in one go, which leaves
     * the text the panel receives the same.
     */
    method ListWindow(cmd: CommandEngine, lo: nat, hi: nat)
      modifies cmd`host
      ensures var win := Browser.Window(old(cmd.host.media), lo, hi);
        cmd.host == old(cmd.host).(media := win.0, out := old(cmd.host.out) + win.1)
    {
      if hi <= lo {
        return;
      }
      var m, text := cmd.host.media, "";
      var pos := lo;
      while pos < hi
        invariant lo <= pos <= hi
        invariant (m, text) == Browser.Window(cmd.host.media, lo, pos)
        decreases hi - pos
      {
        m := Seek(m, pos);
        text := text + Browser.EntryText(m.current);
        pos := pos + 1;
      }
      cmd.host := cmd.host.(media := m, out := cmd.host.out + text);
    }

    /**
     * What listFiles() prints between FN and END: the extra menu's page
     * when it is the selected directory, otherwise the synthetic pair on the
     * first page and then the window of entries.
     */
    method ListPage(cmd: CommandEngine, itemPos: nat)
      modifies cmd`host
      ensures var page := Browser.ListBody(cmd.cfg, old(cmd.host.media), itemPos, selectedDirectory);
        cmd.host == old(cmd.host).(media := page.0, out := old(cmd.host.out) + page.1)
    {
      if EqualsIgnoreCase(selectedDirectory, Browser.ExtraMenuDir) {
        cmd.host := Emit(cmd.host, Browser.ExtraMenuPage(cmd.cfg, itemPos));
        return;
      }
      var itemCount := Count(cmd.host.media);
      var maxItems := Browser.Min(itemPos + 4, itemCount);
      if itemPos == 0 {
        maxItems := Browser.Min(3, itemCount + 1);
        ListFirstPage(cmd, maxItems);
      } else {
        ListWindow(cmd, itemPos - 1, maxItems);
      }
    }

    /** The first page of a directory: the synthetic pair, then positions 0 .. end-1. */
    method ListFirstPage(cmd: CommandEngine, end: nat)
      modifies cmd`host
      ensures var page := Browser.DirectoryPage(old(cmd.host.media), 0, end);
        cmd.host == old(cmd.host).(media := page.0, out := old(cmd.host.out) + page.1)
    {
      ghost var out0 := cmd.host.out;
      ghost var m0 := cmd.host.media;
      if !AtRoot(cmd.host.media) {
        cmd.host := Emit(cmd.host, Browser.ParentDir + CRLF + Browser.ParentDir + CRLF);
      } else {
        cmd.host := Emit(cmd.host, Browser.ExtraMenuDir + CRLF + Browser.ExtraMenuDir + CRLF);
      }
      assert cmd.host == old(cmd.host).(out := out0 + Browser.FirstPair(m0));
      ListWindow(cmd, 0, end);
      ghost var win := Browser.Window(m0, 0, end);
      assert out0 + Browser.FirstPair(m0) + win.1 == out0 + (Browser.FirstPair(m0) + win.1);
    }

    /**
     * listFiles(): J02 without a card; otherwise FN, the page the S
     * parameter of the oldest queued line asks for, and END.
     */
    method ListFiles(cmd: CommandEngine)
      requires cmd.browser == this && cmd.Valid()
      modifies cmd`host, cmd`strchrPtr
      ensures cmd.Valid() && cmd.Abs() == Browser.List(cmd.cfg, old(cmd.Abs()))
    {
      if !cmd.host.mediaInserted {
        cmd.host := Send(cmd.host, J02);
        return;
      }
      ghost var w0 := cmd.Abs();
      ghost var line := CurrentLine(w0);
      var itemPos: nat := 0;
      var seen := cmd.CodeSeen('S');
      if seen {
        var v := cmd.CodeValue('S');
        itemPos := ToU16(v);
      }
      assert itemPos == Browser.ItemPos(line);
      PrintListing(cmd, itemPos);
      assert cmd.Abs() == w0.(host := cmd.host);
      SameQueueValid(w0, cmd.Abs());
    }

    /** FN, the page from itemPos on, and END, each followed by CR LF. */
    method PrintListing(cmd: CommandEngine, itemPos: nat)
      requires cmd.host.mediaInserted
      modifies cmd`host
      ensures cmd.host == Browser.ListFiles(cmd.cfg, old(cmd.host), itemPos, selectedDirectory)
    {
      cmd.host := Emit(cmd.host, FileListStart);
      cmd.host := Emit(cmd.host, CRLF);
      ListPage(cmd, itemPos);
      cmd.host := Emit(cmd.host, FileListEnd);
      cmd.host := Emit(cmd.host, CRLF);
    }

    /** handleExtraMenu(): "<../>" resets the selection and lists; every other name runs its action. */
    method HandleExtraMenu(cmd: CommandEngine)
      requires cmd.browser == this && cmd.Valid()
      modifies this, cmd`host, cmd`strchrPtr
      ensures cmd.Valid() && cmd.Abs() == Browser.HandleExtraMenu(cmd.cfg, old(cmd.Abs()))
    {
      if EqualsIgnoreCase(selectedFilename, Browser.MenuBack) {
        Reset();
        ListFiles(cmd);
      } else {
        ghost var w0 := cmd.Abs();
        cmd.host := Browser.MenuAction(cmd.cfg, cmd.host, selectedFilename);
        assert cmd.Abs() == w0.(host := cmd.host);
        SameQueueValid(w0, cmd.Abs());
      }
    }

    /**
     * The file-name branch of selectFile(): a NUL goes one character before
     * the first '*' of the name, in the buffer itself; the name up to the
     * first NUL is selected and opened; J20 or J21 says whether that worked.
     */
    method OpenSelected(cmd: CommandEngine, aPos: nat)
      requires cmd.browser == this && cmd.Valid()
      modifies this, cmd`host, cmd.buf
      ensures cmd.Valid() && cmd.Abs() == Browser.OpenSelected(old(cmd.Abs()), aPos)
    {
      ghost var w0 := cmd.Abs();
      CutSelected(cmd, aPos);
      ghost var w1 := cmd.Abs();
      selectedFilename := CStrAt(cmd.buf[..], aPos + 4);
      cmd.host := cmd.host.(media := OpenFileRead(cmd.host.media, selectedFilename));
      if cmd.host.media.fileOpen {
        cmd.host := Send(cmd.host, J20);
      } else {
        cmd.host := Send(cmd.host, J21);
      }
      assert cmd.Abs() == w1.(selectedFilename := selectedFilename, host := cmd.host);
      SameQueueValid(w1, cmd.Abs());
    }

    /** The star cut of selectFile(): a NUL one character before the first '*' of the name. */
    method CutSelected(cmd: CommandEngine, aPos: nat)
      requires cmd.browser == this && cmd.Valid()
      modifies cmd.buf
      ensures cmd.Valid() && cmd.Abs() == old(cmd.Abs()).(mem := Browser.CutAtStar(old(cmd.buf[..]), aPos + 4))
    {
      ghost var w0 := cmd.Abs();
      var star := Strchr(cmd.buf[..], aPos + 4, '*');
      if star.Some? {
        cmd.buf[star.value - 1] := NUL;
      }
      assert cmd.buf[..] == Browser.CutAtStar(w0.mem, aPos + 4);
      assert cmd.Abs() == w0.(mem := cmd.buf[..]);
      SameQueueValid(w0, cmd.Abs());
    }

    /**
     * selectFile() for the line whose 'A' the strchr pointer marks: J02
     * without a card; otherwise the branch the line's text selects, and a
     * final CR LF.
     */
    method SelectFile(cmd: CommandEngine)
      requires cmd.browser == this && cmd.Valid()
      requires 0 <= cmd.strchrPtr < cmd.buf.Length && cmd.buf[cmd.strchrPtr] == CommandLetter
      modifies this, cmd`host, cmd`strchrPtr, cmd.buf
      ensures cmd.Valid() && cmd.Abs() == Browser.SelectFile(cmd.cfg, old(cmd.Abs()), old(cmd.strchrPtr))
    {
      if !cmd.host.mediaInserted {
        cmd.host := Send(cmd.host, J02);
        return;
      }
      var aPos := cmd.strchrPtr;
      ghost var w := cmd.Abs();
      match Browser.Classify(cmd.buf[..], aPos)
      case Parent =>
        SelectParent(cmd);
        assert cmd.Abs() == Browser.SelectFile(cmd.cfg, w, aPos);
      case ShortDirectory =>
        assert cmd.Abs() == Browser.SelectFile(cmd.cfg, w, aPos);
      case Directory(dir) =>
        SelectDirectory(cmd, dir);
        assert cmd.Abs() == Browser.SelectFile(cmd.cfg, w, aPos);
      case _ =>
        SelectName(cmd, aPos);
    }

    /**
     * The branches of selectFile() for a line that does not end in '/':
     * the extra menu's name, a "<...>" entry, or a file name to open.
     */
    method SelectName(cmd: CommandEngine, aPos: nat)
      requires cmd.browser == this && cmd.Valid() && cmd.host.mediaInserted
      requires aPos < cmd.buf.Length && cmd.buf[aPos] == CommandLetter
      requires var s := Browser.Classify(cmd.buf[..], aPos); s.ExtraMenuName? || s.MenuEntry? || s.FileName?
      modifies this, cmd`host, cmd`strchrPtr, cmd.buf
      ensures cmd.Valid() && cmd.Abs() == Browser.SelectFile(cmd.cfg, old(cmd.Abs()), aPos)
    {
      ghost var w := cmd.Abs();
      match Browser.Classify(cmd.buf[..], aPos)
      case ExtraMenuName(name) =>
        SelectExtraMenu(cmd, name);
        assert cmd.Abs() == Browser.SelectFile(cmd.cfg, w, aPos);
      case MenuEntry(name) =>
        SelectMenuEntry(cmd, name);
        assert cmd.Abs() == Browser.SelectFile(cmd.cfg, w, aPos);
      case FileName(_) =>
        SelectFileName(cmd, aPos);
        assert cmd.Abs() == Browser.SelectFile(cmd.cfg, w, aPos);
    }

    /** Any other name: it is cut at its '*', selected and opened, then the line end. */
    method SelectFileName(cmd: CommandEngine, aPos: nat)
      requires cmd.browser == this && cmd.Valid()
      modifies this, cmd`host, cmd.buf
      ensures cmd.Valid() && cmd.Abs() == Browser.ChooseFile(old(cmd.Abs()), aPos)
    {
      OpenSelected(cmd, aPos);
      ghost var w2 := cmd.Abs();
      cmd.host := Emit(cmd.host, CRLF);
      assert cmd.Abs() == w2.(host := cmd.host);
      SameQueueValid(w2, cmd.Abs());
    }

    /** The listing, then the line end that closes selectFile(). */
    method ListAndEnd(cmd: CommandEngine)
      requires cmd.browser == this && cmd.Valid()
      modifies cmd`host, cmd`strchrPtr
      ensures cmd.Valid() && cmd.Abs() == Browser.EndLine(Browser.List(cmd.cfg, old(cmd.Abs())))
    {
      ListFiles(cmd);
      ghost var w1 := cmd.Abs();
      cmd.host := Emit(cmd.host, CRLF);
      assert cmd.Abs() == w1.(host := cmd.host);
      SameQueueValid(w1, cmd.Abs());
    }

    /** A name ending in '/' whose text starts with "..": up one directory, then the listing. */
    method SelectParent(cmd: CommandEngine)
      requires cmd.browser == this && cmd.Valid()
      modifies cmd`host, cmd`strchrPtr
      ensures cmd.Valid()
      ensures cmd.Abs() == Browser.EnterParent(cmd.cfg, old(cmd.Abs()))
    {
      cmd.host := cmd.host.(media := UpDir(cmd.host.media));
      assert cmd.Abs() == old(cmd.Abs()).(host := old(cmd.host).(media := UpDir(old(cmd.host.media))));
      ListAndEnd(cmd);
    }

    /** A directory name: it becomes the selected directory and is entered, then the listing. */
    method SelectDirectory(cmd: CommandEngine, dir: string)
      requires cmd.browser == this && cmd.Valid()
      modifies this, cmd`host, cmd`strchrPtr
      ensures cmd.Valid()
      ensures cmd.Abs() == Browser.EnterDirectory(cmd.cfg, old(cmd.Abs()), dir)
    {
      selectedDirectory := dir;
      assert cmd.Abs() == old(cmd.Abs()).(selectedDirectory := dir);
      cmd.host := cmd.host.(media := ChangeDir(cmd.host.media, dir));
      assert cmd.Abs() == old(cmd.Abs()).(selectedDirectory := dir, host := old(cmd.host).(media := ChangeDir(old(cmd.host.media), dir)));
      ListAndEnd(cmd);
    }

    /** The extra menu's own name: it becomes the selected directory, then its page. */
    method SelectExtraMenu(cmd: CommandEngine, name: string)
      requires cmd.browser == this && cmd.Valid()
      modifies this, cmd`host, cmd`strchrPtr
      ensures cmd.Valid()
      ensures cmd.Abs() == Browser.EnterExtraMenu(cmd.cfg, old(cmd.Abs()), name)
    {
      selectedDirectory := name;
      assert cmd.Abs() == old(cmd.Abs()).(selectedDirectory := name);
      ListAndEnd(cmd);
    }

    /** A "<...>" name: it becomes the selected file name and the extra menu acts on it. */
    method SelectMenuEntry(cmd: CommandEngine, name: string)
      requires cmd.browser == this && cmd.Valid()
      modifies this, cmd`host, cmd`strchrPtr
      ensures cmd.Valid()
      ensures cmd.Abs() == Browser.ChooseMenuEntry(cmd.cfg, old(cmd.Abs()), name)
    {
      ghost var w0 := cmd.Abs();
      selectedFilename := name;
      assert cmd.Abs() == w0.(selectedFilename := name);
      SameQueueValid(w0, cmd.Abs());
      HandleExtraMenu(cmd);
      ghost var w2 := cmd.Abs();
      cmd.host := Emit(cmd.host, CRLF);
      assert cmd.Abs() == w2.(host := cmd.host);
      SameQueueValid(w2, cmd.Abs());
    }

    /**
     * refreshFileList(): the selection is reset; without a card J02 is
     * sent, otherwise the enumerator goes up until it is at the root and
     * the root is listed.
     */
    method RefreshFileList(cmd: CommandEngine)
      requires cmd.browser == this && cmd.Valid()
      modifies this, cmd`host, cmd`strchrPtr
      ensures cmd.Valid() && cmd.Abs() == Browser.Refresh(cmd.cfg, old(cmd.Abs()))
    {
      Reset();
      if !cmd.host.mediaInserted {
        cmd.host := Send(cmd.host, J02);
        return;
      }
      ghost var m0 := cmd.host.media;
      while !AtRoot(cmd.host.media)
        modifies cmd`host
        invariant cmd.host == old(cmd.host).(media := m0.(path := cmd.host.media.path))
        decreases |cmd.host.media.path|
      {
        cmd.host := cmd.host.(media := UpDir(cmd.host.media));
      }
      ListFiles(cmd);
    }
  }


  /**
   * strchr on the oldest queued line finds c exactly when codeSeen(c)
   * holds, and the C string one past it is the text after the first c.
   */
  lemma ParameterText(w: World, c: Letter)
    requires Worlds.Valid(w)
    ensures Strchr(w.mem, SlotStart(w.bufindr), c).Some? == Seen(CurrentLine(w), c)
    ensures match Strchr(w.mem, SlotStart(w.bufindr), c)
      case Some(p) => CStrAt(w.mem, p + 1) == After(CurrentLine(w), c)
      case None => true
  {
    var start := SlotStart(w.bufindr);
    var line := CStrAt(w.mem, start);
    assert line == CurrentLine(w);
    match Strchr(w.mem, start, c)
    case Some(p) =>
      assert c in line && CStrAt(w.mem, p + 1) == After(line, c) by {
        StrchrAfter(w.mem, start, c, p);
      }
    case None =>
      assert c !in line by {
        StrchrFinds(w.mem, start, c);
      }
  }

  /** strtod one past the 'A' strchr found is codeValue of the oldest queued line. */
  lemma ParameterValue(w: World, c: Letter, p: nat)
    requires Worlds.Valid(w) && Strchr(w.mem, SlotStart(w.bufindr), c) == Some(p)
    ensures Seen(CurrentLine(w), c) && Strtod(CStrAt(w.mem, p + 1)) == Value(CurrentLine(w), c)
  {
    var start := SlotStart(w.bufindr);
    var line := CStrAt(w.mem, start);
    assert c in line && CStrAt(w.mem, p + 1) == After(line, c) by {
      StrchrAfter(w.mem, start, c, p);
    }
  }

  /** DwinTFTCommandClass with the receive state it owns. */
  class CommandEngine {
    const cfg: Config
    /** TFTcmdbuffer: slot r occupies positions 96 * r .. 96 * r + 95. */
    const buf: array<char>
    const browser: FileBrowser
    var buflen: int
    var bufindr: int
    var bufindw: int
    /** serial3_count: the characters of the line being received. */
    var count: int
    /** TFTstrchr_pointer, as a position in buf. */
    var strchrPtr: int
    /** The characters waiting on the panel's serial port. */
    var rx: string
    var host: Host

    /** The engine as one World value. */
    ghost function Abs(): World
      reads this, buf, browser
    {
      World(buf[..], buflen, bufindr, bufindw, count, rx, host, browser.selectedDirectory, browser.selectedFilename)
    }

    ghost predicate Valid()
      reads this, buf, browser
    {
      Worlds.Valid(Abs()) && SaneConfig(cfg)
    }

    /** The oldest queued line, as codeSeen() and codeValue() read it. */
    ghost function Line(): string
      requires Valid()
      reads this, buf, browser
    {
      CurrentLine(Abs())
    }

    constructor (cfg: Config, host: Host, rx: string)
      requires SaneConfig(cfg)
      ensures Valid() && Abs() == Initial(host, rx)
      ensures fresh(buf) && fresh(browser)
    {
      this.cfg := cfg;
      buf := new char[MemSize](_ => NUL);
      browser := new FileBrowser();
      buflen, bufindr, bufindw, count, strchrPtr := 0, 0, 0, 0, -1;
      this.rx := rx;
      this.host := host;
      new;
      assert buf[..] == seq(MemSize, _ => NUL);
    }

    /**
     * codeSeen(c): whether c occurs in the oldest queued line; the strchr
     * pointer is left at its first occurrence.
     */
    method CodeSeen(c: Letter) returns (seen: bool)
      requires Valid()
      modifies this`strchrPtr
      ensures seen == Seen(Line(), c)
      ensures seen ==> Strchr(buf[..], SlotStart(bufindr), c) == Some(strchrPtr)
      ensures !seen ==> strchrPtr == -1
    {
      ParameterText(Abs(), c);
      var p := Strchr(buf[..], SlotStart(bufindr), c);
      seen := p.Some?;
      strchrPtr := if seen then p.value else -1;
    }

    /**
     * codeValue(): strtod of the characters after the strchr pointer. After
     * codeSeen(c) found c, that is the number after the first c of the
     * oldest queued line.
     */
    method CodeValue(ghost c: Letter) returns (v: real)
      requires Valid() && Strchr(buf[..], SlotStart(bufindr), c) == Some(strchrPtr)
      ensures Seen(Line(), c) && v == Value(Line(), c)
    {
      ghost var w := Abs();
      var text := CStrAt(buf[..], strchrPtr + 1);
      v := Strtod(text);
      ghost var line := Line();
      assert line == CurrentLine(w) && text == CStrAt(w.mem, strchrPtr + 1);
      assert Seen(line, c) && v == Value(line, c) by {
        ParameterValue(w, c, strchrPtr);
      }
    }

    /**
     * handleCommand(id) for a line whose 'A' the strchr pointer marks: the
     * browser commands A8, A13 and A26 go to the file browser, every other
     * id to its handler.
     */
    method HandleCommand(id: int)
      requires Valid() && 0 <= id < 256
      requires 0 <= strchrPtr < buf.Length && buf[strchrPtr] == CommandLetter
      modifies this, buf, browser
      ensures Valid() && Abs() == Framer.Handle(cfg, old(Abs()), id, old(strchrPtr))
    {
      if id == 8 {
        browser.ListFiles(this);
      } else if id == 13 {
        browser.SelectFile(this);
      } else if id == 26 {
        browser.RefreshFileList(this);
      } else {
        host := Respond(cfg, host, CStrAt(buf[..], SlotStart(bufindr)), id);
      }
    }

    /** The NUL after the partial line ("terminate string"). */
    method CutLine()
      requires Valid() && count > 0 && buflen < BufSize
      modifies buf
      ensures Valid() && Abs() == Framer.Cut(old(Abs()))
    {
      buf[SlotStart(bufindw) + count] := NUL;
    }

    /**
     * The line in the write slot is handled if it holds an 'A': the strchr
     * pointer is left at that 'A' and the number after it is the id. The
     * ghost result is the text of the line.
     */
    method DispatchLine() returns (ghost line: string)
      requires Valid()
      modifies this, buf, browser
      ensures line == CStrAt(old(buf[..]), SlotStart(old(bufindw)))
      ensures Valid() && Abs() == Framer.Dispatch(cfg, old(Abs())).0
    {
      ghost var w := Abs();
      line := CStrAt(buf[..], SlotStart(bufindw));
      var p := Strchr(buf[..], SlotStart(bufindw), CommandLetter);
      Framer.DispatchFound(cfg, w);
      if p.Some? {
        var id := CommandId(Strtod(CStrAt(buf[..], p.value + 1)));
        HandleAt(p.value, id);
      }
    }

    /** strchrPtr left at the line's 'A' and the line handled under id. */
    method HandleAt(aPos: nat, id: int)
      requires Valid() && 0 <= id < 256 && aPos < buf.Length && buf[aPos] == CommandLetter
      modifies this, buf, browser
      ensures Valid() && Abs() == Framer.Handle(cfg, old(Abs()), id, aPos)
    {
      strchrPtr := aPos;
      HandleCommand(id);
    }

    /**
     * A line end after a non-empty partial line: the NUL after the line,
     * the dispatch, and the slot moving on. The ghost result is the text
     * of the line.
     */
    method TerminateLine() returns (ghost line: string)
      requires Valid() && count > 0 && buflen < BufSize
      modifies this, buf, browser
      ensures Valid() && (Abs(), line) == Framer.Terminate(cfg, old(Abs()))
    {
      ghost var w := Abs();
      CutLine();
      ghost var w1 := Abs();
      line := DispatchLine();
      ghost var w2 := Abs();
      Framer.TerminateSteps(cfg, w, w1, line, w2);
      EnqueueLine();
    }

    /** The terminated line takes its slot: the write slot moves on and the next line starts empty. */
    method EnqueueLine()
      requires Valid() && buflen < BufSize
      modifies this`bufindw, this`buflen, this`count
      ensures Valid() && Abs() == Framer.Enqueue(old(Abs()))
    {
      bufindw, buflen, count := (bufindw + 1) % 4, buflen + 1, 0;
    }

    /** A character stored at the end of the partial line. */
    method StoreChar(c: char)
      requires Valid() && count < MaxCmdSize - 1 && buflen < BufSize
      modifies this`count, buf
      ensures Valid() && Abs() == Framer.Store(old(Abs()), c)
    {
      InnerCell(bufindw, count);
      buf[SlotStart(bufindw) + count] := c;
      count := count + 1;
    }

    /**
     * receiveCommands(): reads characters while some wait and the queue has
     * room, and ends exactly as the receiver function does.
     */
    method ReceiveCommands()
      requires Valid()
      modifies this, buf, browser
      ensures Valid() && Abs() == Framer.Receive(cfg, old(Abs()), []).0
    {
      ghost var trace: seq<string> := [];
      ghost var goal := Framer.Receive(cfg, Abs(), []);
      while rx != [] && buflen < BufSize
        invariant Valid()
        invariant Framer.Receive(cfg, Abs(), trace) == goal
        decreases |rx|
      {
        ghost var w := Abs();
        var c := rx[0];
        rx := rx[1..];
        ghost var w0 := Abs();
        assert w0 == w.(rx := w.rx[1..]);
        ReadKeepsValid(w, w.rx[1..]);
        if IsTerminator(c) || count >= MaxCmdSize - 1 {
          if count == 0 {
            Framer.EmptyLineStops(cfg, w, trace);
            return;
          }
          var line := TerminateLine();
          Framer.ReceiveTerminates(cfg, w, trace, w0, Abs(), line);
          trace := trace + [line];
        } else {
          StoreChar(c);
          Framer.ReceiveStores(cfg, w, trace, w0, Abs());
        }
      }
      Framer.ReceiveStops(cfg, Abs(), trace);
    }

    /** loop(): receive while fewer than three lines wait, then release the oldest waiting line. */
    method Loop()
      requires Valid()
      modifies this, buf, browser
      ensures Valid() && Abs() == Framer.Loop(cfg, old(Abs())).0
    {
      ghost var w := Abs();
      if buflen < BufSize - 1 {
        ReceiveCommands();
      }
      ghost var r := Abs();
      Framer.LoopReleases(cfg, w, r);
      if buflen > 0 {
        ReleaseLine();
      }
    }

    /** The oldest waiting line leaves the queue. */
    method ReleaseLine()
      requires Valid() && buflen > 0
      modifies this`buflen, this`bufindr
      ensures Valid() && Abs() == Framer.Release(old(Abs()))
    {
      buflen := buflen - 1;
      bufindr := (bufindr + 1) % 4;
    }
  }
}
