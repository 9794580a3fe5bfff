/**
 * The file browser behind A8 (list), A13 (select) and A26 (refresh): the
 * paged directory listing with its synthetic first entries, the extra menu
 * shown as a pseudo-directory, the classification of a selected name, and
 * the actions of the extra menu. The browser's state is the two strings
 * selectedDirectory and selectedFilename of the world; the directory
 * enumerator is the media of the host.
 */
module Browser {
  import opened Text
  import opened Numbers
  import opened Hosts
  import opened Worlds

  /** The name that stands for the extra menu in the listing and in selectedDirectory. */
  const ExtraMenuDir: string := "<Extra Menu>"
  /** The first extra-menu entry, which leaves the menu. */
  const MenuBack: string := "<../>"
  /** The entry that stands for the parent directory. */
  const ParentDir: string := "../"

  // The Z nudges of the extra menu.
  const ZUp01: string := "G0 Z0.1"
  const ZUp002: string := "G0 Z0.02"
  const ZDown01: string := "G0 Z-0.1"
  const ZDown002: string := "G0 Z-0.02"

  function Min(a: int, b: int): (m: int)
    ensures m <= a && m <= b && (m == a || m == b)
  {
    if a < b then a else b
  }

  /** reset(): no directory and no file selected. */
  function Reset(w: World): (r: World)
    ensures r.selectedDirectory == [] && r.selectedFilename == []
    ensures r == w.(selectedDirectory := r.selectedDirectory, selectedFilename := r.selectedFilename)
  {
    w.(selectedDirectory := [], selectedFilename := [])
  }

  /** The S parameter of A8, stored into the uint16_t itemPos; 0 without S. */
  function ItemPos(line: string): (p: nat)
    ensures p < 65536
    ensures !Seen(line, 'S') ==> p == 0
  {
    if Seen(line, 'S') then ToU16(Value(line, 'S')) else 0
  }

  /** One listed entry: short name, then long name, each on its own line, with a '/' after a directory's. */
  function EntryText(e: Entry): string {
    if e.isDir then e.shortName + "/" + CRLF + e.longName + "/" + CRLF
    else e.shortName + CRLF + e.longName + CRLF
  }

  /** The listing of several entries, one after the other. */
  function EntriesText(es: seq<Entry>): string {
    if es == [] then "" else EntriesText(es[..|es| - 1]) + EntryText(es[|es| - 1])
  }

  /**
   * The listing loop over positions lo .. hi-1: each position is sought,
   * then the entry the enumerator has selected is printed. The result is
   * the enumerator afterwards and the text printed.
   */
  function Window(m: Media, lo: nat, hi: nat): (Media, string)
    decreases hi
  {
    if hi <= lo then (m, "")
    else
      var (m1, s) := Window(m, lo, hi - 1);
      var m2 := Seek(m1, hi - 1);
      (m2, s + EntryText(m2.current))
  }

  /** The pair printed before the first page: the parent directory, or the extra menu at the root. */
  function FirstPair(m: Media): string {
    if AtRoot(m) then ExtraMenuDir + CRLF + ExtraMenuDir + CRLF else ParentDir + CRLF + ParentDir + CRLF
  }

  /**
   * The end of the listing window as listFiles computes it: on the first
   * page three positions, bounded by one past the last entry; on the others
   * four positions past the offset, bounded by the last entry.
   */
  function WindowEndAsWritten(itemPos: nat, count: nat): nat {
    if itemPos == 0 then Min(3, count + 1)
    else Min(itemPos + 4, count)
  }

  /**
   * The end of the listing window as evidently intended: never past the
   * last entry. It is the end listFiles computes except on the first page
   * of a directory with fewer than three entries.
   */
  function WindowEnd(itemPos: nat, count: nat): (e: nat)
    ensures e <= count
    ensures itemPos == 0 ==> e == Min(3, count)
  {
    if itemPos == 0 then Min(3, count) else Min(itemPos + 4, count)
  }

  /**
   * A page of a real directory with the window ending at end: on the first
   * page the synthetic pair and positions 0 .. end-1; on the others
   * positions itemPos-1 .. end-1 (listFiles decrements itemPos first).
   */
  function DirectoryPage(m: Media, itemPos: nat, end: nat): (Media, string) {
    if itemPos == 0 then
      var (m1, s) := Window(m, 0, end);
      (m1, FirstPair(m) + s)
    else Window(m, itemPos - 1, end)
  }

  /** The extra-menu entries, in the order the pages show them. */
  function MenuItems(cfg: Config): (items: seq<string>)
    ensures |items| == 12 && items[0] == MenuBack
  {
    [MenuBack, cfg.menuHotendPid, cfg.menuHotbedPid, cfg.menuSaveEeprom,
     cfg.menuLoadDefaults, cfg.menuPreheatBed, cfg.menuStartMesh, cfg.menuNextMesh,
     cfg.menuZUp01, cfg.menuZUp002, cfg.menuZDown01, cfg.menuZDown002]
  }

  /** The menu lines printed for some entries. */
  function MenuLines(cfg: Config, names: seq<string>): string {
    if names == [] then "" else MenuLines(cfg, names[..|names| - 1]) + cfg.menuLine(names[|names| - 1])
  }

  /** buildExtraMenu(pos): the page pos/4 when pos is a multiple of four. */
  function ExtraMenuPage(cfg: Config, pos: nat): string {
    if pos % 4 != 0 then ""
    else if pos / 4 == 0 then
      cfg.menuLine(MenuBack) + cfg.menuLine(cfg.menuHotendPid) + cfg.menuLine(cfg.menuHotbedPid)
      + cfg.menuLine(cfg.menuSaveEeprom)
    else if pos / 4 == 1 then
      cfg.menuLine(cfg.menuLoadDefaults) + cfg.menuLine(cfg.menuPreheatBed)
      + cfg.menuLine(cfg.menuStartMesh) + cfg.menuLine(cfg.menuNextMesh)
    else if pos / 4 == 2 then
      cfg.menuLine(cfg.menuZUp01) + cfg.menuLine(cfg.menuZUp002) + cfg.menuLine(cfg.menuZDown01)
      + cfg.menuLine(cfg.menuZDown002)
    else ""
  }

  /** The part of a listing between FN and END, and the enumerator afterwards. */
  function ListBody(cfg: Config, m: Media, itemPos: nat, dir: string): (Media, string) {
    if EqualsIgnoreCase(dir, ExtraMenuDir) then (m, ExtraMenuPage(cfg, itemPos))
    else DirectoryPage(m, itemPos, WindowEndAsWritten(itemPos, Count(m)))
  }

  /**
   * listFiles() for the page that starts at itemPos: J02 without a card;
   * otherwise FN, the page, and END. Only the enumerator's selected entry
   * changes besides the output.
   */
  function ListFiles(cfg: Config, h: Host, itemPos: nat, dir: string): (r: Host)
    ensures !h.mediaInserted ==> r == Send(h, J02)
    ensures h.mediaInserted ==>
      r.media == h.media.(current := r.media.current)
      && r.out == h.out + FileListStart + CRLF + ListBody(cfg, h.media, itemPos, dir).1 + FileListEnd + CRLF
    ensures r == h.(media := r.media, out := r.out)
  {
    if !h.mediaInserted then Send(h, J02)
    else
      var (m, body) := ListBody(cfg, h.media, itemPos, dir);
      WindowKeepsDirectory(h.media, itemPos, WindowEndAsWritten(itemPos, Count(h.media)));
      h.(media := m, out := h.out + FileListStart + CRLF + body + FileListEnd + CRLF)
  }

  /** listFiles() as the browser calls it: itemPos is the S parameter of the oldest queued line. */
  function List(cfg: Config, w: World): (r: World)
    requires Valid(w)
    ensures r == w.(host := ListFiles(cfg, w.host, ItemPos(CurrentLine(w)), w.selectedDirectory))
  {
    w.(host := ListFiles(cfg, w.host, ItemPos(CurrentLine(w)), w.selectedDirectory))
  }

  /** The final line end of selectFile(). */
  function EndLine(w: World): (r: World)
    ensures r == w.(host := Emit(w.host, CRLF))
  {
    w.(host := Emit(w.host, CRLF))
  }

  /** The three G-code lines of a Z nudge: relative mode, the move, absolute mode. */
  function Nudge(h: Host, move: string): Host {
    Do(Do(Do(h, GcodeQueue(G91)), GcodeQueue(move)), GcodeQueue(G90))
  }

  /** The actions of the extra menu other than leaving it; an unknown name does nothing. */
  function MenuAction(cfg: Config, h: Host, f: string): (r: Host)
    ensures r.out == h.out && Extends(h, r) && |r.calls| <= |h.calls| + 3
  {
    if EqualsIgnoreCase(f, cfg.menuHotendPid) then Do(h, GcodeNow(HotendPidGcode))
    else if EqualsIgnoreCase(f, cfg.menuHotbedPid) then Do(h, GcodeNow(HotbedPidGcode))
    else if EqualsIgnoreCase(f, cfg.menuSaveEeprom) then Do(h, GcodeNow(M500))
    else if EqualsIgnoreCase(f, cfg.menuLoadDefaults) then Do(h, GcodeNow(M502))
    else if EqualsIgnoreCase(f, cfg.menuPreheatBed) then Do(h, GcodeNow(PreheatBedGcode))
    else if EqualsIgnoreCase(f, cfg.menuStartMesh) then Do(h, GcodeNow(MeshStart))
    else if EqualsIgnoreCase(f, cfg.menuNextMesh) then Do(h, GcodeNow(MeshNext))
    else if EqualsIgnoreCase(f, cfg.menuZUp01) then Nudge(h, ZUp01)
    else if EqualsIgnoreCase(f, cfg.menuZUp002) then Nudge(h, ZUp002)
    else if EqualsIgnoreCase(f, cfg.menuZDown01) then Nudge(h, ZDown01)
    else if EqualsIgnoreCase(f, cfg.menuZDown002) then Nudge(h, ZDown002)
    else h
  }

  /** handleExtraMenu(): "<../>" leaves the menu and lists; every other entry runs its action. */
  function HandleExtraMenu(cfg: Config, w: World): (r: World)
    requires Valid(w)
    ensures SameQueue(w, r)
  {
    if EqualsIgnoreCase(w.selectedFilename, MenuBack) then List(cfg, Reset(w))
    else w.(host := MenuAction(cfg, w.host, w.selectedFilename))
  }

  /** The character at index i of the buffer; NUL past its end. */
  function At(mem: seq<char>, i: nat): char {
    if i < |mem| then mem[i] else NUL
  }

  /** What the text of an A13 line selects. */
  datatype Selection =
    | Parent
    | Directory(dir: string)
    | ShortDirectory
    | ExtraMenuName(name: string)
    | MenuEntry(name: string)
    | FileName(text: string)

  /**
   * The classification selectFile() makes of the line whose 'A' is at aPos,
   * first match wins: the last character of the line is '/' and the two
   * characters four after the 'A' are "..", the last character is '/', the
   * text four after the 'A' is the extra menu's name (any case), that text
   * starts with '<' and the line ends with '>', anything else. A directory
   * from a line of fewer than five characters makes the firmware copy a
   * negative or too short length; the model sets that case apart.
   */
  function Classify(mem: seq<char>, aPos: nat): (s: Selection)
    requires aPos < |mem| && mem[aPos] == CommandLetter
    ensures s.Directory? ==> |CStrAt(mem, aPos)| >= 5 && s.dir + "/" == CStrAt(mem, aPos)[4..]
    ensures s.ExtraMenuName? ==> EqualsIgnoreCase(s.name, ExtraMenuDir)
  {
    var sel := CStrAt(mem, aPos);
    var text := CStrAt(mem, aPos + 4);
    var last := sel[|sel| - 1];
    if last == '/' && At(mem, aPos + 4) == '.' && At(mem, aPos + 5) == '.' then Parent
    else if last == '/' then
      if |sel| < 5 then ShortDirectory
      else
        DirectoryName(mem, aPos);
        Directory(text[..|text| - 1])
    else if EqualsIgnoreCase(text, ExtraMenuDir) then ExtraMenuName(text)
    else if At(mem, aPos + 4) == '<' && last == '>' then MenuEntry(text)
    else FileName(text)
  }

  /** The text after "A13 " of a line ending in '/' is the directory name and that '/'. */
  lemma DirectoryName(mem: seq<char>, aPos: nat)
    requires aPos < |mem|
    requires |CStrAt(mem, aPos)| >= 5 && CStrAt(mem, aPos)[|CStrAt(mem, aPos)| - 1] == '/'
    ensures var text := CStrAt(mem, aPos + 4);
      |text| >= 1 && text[..|text| - 1] + "/" == CStrAt(mem, aPos)[4..]
  {
    CStrAtSuffix(mem, aPos, 4);
    var text := CStrAt(mem, aPos + 4);
    assert text == text[..|text| - 1] + "/";
  }

  /** The buffer after the cut of the file-name branch: a NUL one character before the first '*' after start. */
  function CutAtStar(mem: seq<char>, start: nat): (r: seq<char>)
    requires start >= 1
    ensures |r| == |mem| && (RowEnds(mem) ==> RowEnds(r))
  {
    match Strchr(mem, start, '*')
    case Some(p) => mem[p - 1 := NUL]
    case None => mem
  }

  /**
   * The file-name branch of selectFile(): the cut, then the name up to the
   * first NUL is selected and opened, and J20 or J21 reports whether that
   * worked.
   */
  function OpenSelected(w: World, aPos: nat): (r: World)
    requires Valid(w)
    ensures SameQueue(w, r)
    ensures r.host.media == OpenFileRead(w.host.media, r.selectedFilename)
    ensures r.selectedDirectory == w.selectedDirectory
  {
    var mem := CutAtStar(w.mem, aPos + 4);
    var name := CStrAt(mem, aPos + 4);
    var h := w.host.(media := OpenFileRead(w.host.media, name));
    w.(mem := mem, selectedFilename := name, host := if h.media.fileOpen then Send(h, J20) else Send(h, J21))
  }

  /**
   * selectFile() on the line whose 'A' is at aPos: J02 without a card;
   * otherwise the branch the classification picks, and a final CR LF.
   */
  function SelectFile(cfg: Config, w: World, aPos: nat): (r: World)
    requires Valid(w) && aPos < |w.mem| && w.mem[aPos] == CommandLetter
    ensures SameQueue(w, r)
    ensures !w.host.mediaInserted ==> r == w.(host := Send(w.host, J02))
  {
    if !w.host.mediaInserted then w.(host := Send(w.host, J02))
    else
      match Classify(w.mem, aPos)
      case Parent => EnterParent(cfg, w)
      case ShortDirectory => w
      case Directory(dir) => EnterDirectory(cfg, w, dir)
      case ExtraMenuName(name) => EnterExtraMenu(cfg, w, name)
      case MenuEntry(name) => ChooseMenuEntry(cfg, w, name)
      case FileName(_) => ChooseFile(w, aPos)
  }

  /** A "<...>" entry: it becomes the selected file name, the extra menu acts on it, then the line end. */
  function ChooseMenuEntry(cfg: Config, w: World, name: string): (r: World)
    requires Valid(w)
    ensures SameQueue(w, r)
  {
    var w1 := w.(selectedFilename := name);
    SameQueueValid(w, w1);
    EndLine(HandleExtraMenu(cfg, w1))
  }

  /** Any other name: it is cut at its '*', selected and opened, then the line end. */
  function ChooseFile(w: World, aPos: nat): (r: World)
    requires Valid(w)
    ensures SameQueue(w, r)
  {
    EndLine(OpenSelected(w, aPos))
  }

  /** "../": the enumerator goes up one directory, then the listing and the line end. */
  function EnterParent(cfg: Config, w: World): (r: World)
    requires Valid(w)
    ensures SameQueue(w, r)
  {
    var w1 := w.(host := w.host.(media := UpDir(w.host.media)));
    SameQueueValid(w, w1);
    EndLine(List(cfg, w1))
  }

  /** A directory: it is selected and entered, then the listing and the line end. */
  function EnterDirectory(cfg: Config, w: World, dir: string): (r: World)
    requires Valid(w)
    ensures SameQueue(w, r)
  {
    var w1 := w.(selectedDirectory := dir, host := w.host.(media := ChangeDir(w.host.media, dir)));
    SameQueueValid(w, w1);
    EndLine(List(cfg, w1))
  }

  /** The extra menu's name: it becomes the selected directory, then its page and the line end. */
  function EnterExtraMenu(cfg: Config, w: World, name: string): (r: World)
    requires Valid(w)
    ensures SameQueue(w, r)
  {
    var w1 := w.(selectedDirectory := name);
    SameQueueValid(w, w1);
    EndLine(List(cfg, w1))
  }

  /**
   * refreshFileList(): the selection is reset; with a card the enumerator
   * goes up to the root directory and the root is listed, without one J02
   * is sent.
   */
  function Refresh(cfg: Config, w: World): (r: World)
    requires Valid(w)
    ensures SameQueue(w, r)
    ensures r.selectedDirectory == [] && r.selectedFilename == []
    ensures !w.host.mediaInserted ==> r.host == Send(w.host, J02)
  {
    var w1 := Reset(w);
    if !w.host.mediaInserted then w1.(host := Send(w.host, J02))
    else List(cfg, w1.(host := w1.host.(media := AtRootDir(w1.host.media))))
  }

  // ---------------------------------------------------------------------
  // Properties of the browser

  /** Seeking never leaves the current directory. */
  lemma {:induction false} WindowKeepsDirectory(m: Media, itemPos: nat, end: nat)
    ensures DirectoryPage(m, itemPos, end).0 == m.(current := DirectoryPage(m, itemPos, end).0.current)
  {
    var lo: nat := if itemPos == 0 then 0 else itemPos - 1;
    WindowSeeks(m, lo, end);
  }

  lemma {:induction false} WindowSeeks(m: Media, lo: nat, hi: nat)
    ensures Window(m, lo, hi).0 == m.(current := Window(m, lo, hi).0.current)
    decreases hi
  {
    if hi > lo {
      WindowSeeks(m, lo, hi - 1);
    }
  }

  /**
   * A window inside the directory lists exactly the entries at its
   * positions, in order, and leaves the last of them selected.
   */
  lemma {:induction false} WindowLists(m: Media, lo: nat, hi: nat)
    requires lo <= hi <= Count(m)
    ensures Window(m, lo, hi).1 == EntriesText(Listing(m)[lo..hi])
    ensures lo < hi ==> Window(m, lo, hi).0 == m.(current := Listing(m)[hi - 1])
    ensures lo == hi ==> Window(m, lo, hi).0 == m
    decreases hi
  {
    if lo < hi {
      var prev := Window(m, lo, hi - 1);
      WindowLists(m, lo, hi - 1);
      assert prev.0.path == m.path && prev.0.dirs == m.dirs;
      WindowStep(m, lo, hi);
      assert EntriesText(Listing(m)[lo..hi]) == prev.1 + EntryText(Listing(m)[hi - 1]) by {
        EntriesSnoc(Listing(m), lo, hi);
      }
    }
  }

  lemma EntriesSnoc(es: seq<Entry>, lo: nat, hi: nat)
    requires lo < hi <= |es|
    ensures EntriesText(es[lo..hi]) == EntriesText(es[lo..hi - 1]) + EntryText(es[hi - 1])
  {
    var t := es[lo..hi];
    assert t[..|t| - 1] == es[lo..hi - 1];
    assert t[|t| - 1] == es[hi - 1];
  }

  /** One more position: the entry there is selected and printed after the others. */
  lemma WindowStep(m: Media, lo: nat, hi: nat)
    requires lo < hi <= Count(m)
    requires Window(m, lo, hi - 1).0.path == m.path && Window(m, lo, hi - 1).0.dirs == m.dirs
    ensures Window(m, lo, hi).0 == Window(m, lo, hi - 1).0.(current := Listing(m)[hi - 1])
    ensures Window(m, lo, hi).1 == Window(m, lo, hi - 1).1 + EntryText(Listing(m)[hi - 1])
  {
  }

  /**
   * The first page of a directory: the synthetic pair, then its first
   * three entries (fewer if it has fewer).
   */
  lemma FirstPage(m: Media)
    ensures DirectoryPage(m, 0, WindowEnd(0, Count(m))).1
      == FirstPair(m) + EntriesText(Listing(m)[..Min(3, Count(m))])
  {
    WindowLists(m, 0, Min(3, Count(m)));
  }

  /**
   * A later page at offset S: the entries at positions S-1 up to S+3,
   * which is up to five entries, or nothing when S-1 is past the end.
   */
  lemma LaterPage(m: Media, s: nat)
    requires s > 0
    ensures var e := WindowEndAsWritten(s, Count(m));
      s - 1 < e ==> DirectoryPage(m, s, e).1 == EntriesText(Listing(m)[s - 1..e]) && e - (s - 1) <= 5
    ensures var e := WindowEndAsWritten(s, Count(m));
      s - 1 >= e ==> DirectoryPage(m, s, e).1 == ""
  {
    var e := WindowEndAsWritten(s, Count(m));
    if s - 1 < e {
      WindowLists(m, s - 1, e);
    }
  }

  /**
   * The first page as listFiles prints it: with three entries or more, the
   * synthetic pair and the first three; with fewer, every entry and then
   * the last one again, since the seek one past the end is refused; in an
   * empty directory, the entry the enumerator already had selected.
   */
  lemma FirstPageAsWritten(m: Media)
    ensures var page := DirectoryPage(m, 0, WindowEndAsWritten(0, Count(m))).1;
      Count(m) >= 3 ==> page == FirstPair(m) + EntriesText(Listing(m)[..3])
    ensures var page := DirectoryPage(m, 0, WindowEndAsWritten(0, Count(m))).1;
      0 < Count(m) < 3 ==> page == FirstPair(m) + EntriesText(Listing(m)) + EntryText(Listing(m)[Count(m) - 1])
    ensures var page := DirectoryPage(m, 0, WindowEndAsWritten(0, Count(m))).1;
      Count(m) == 0 ==> page == FirstPair(m) + EntryText(m.current)
  {
    var c := Count(m);
    var e := WindowEndAsWritten(0, c);
    assert DirectoryPage(m, 0, e).1 == FirstPair(m) + Window(m, 0, e).1;
    if c >= 3 {
      assert e == 3;
      WindowLists(m, 0, 3);
      assert Listing(m)[0..3] == Listing(m)[..3];
    } else {
      assert e == c + 1;
      WindowOnePast(m);
    }
  }

  /** A window from position 0 to one past the last entry prints the last entry twice. */
  lemma WindowOnePast(m: Media)
    ensures Count(m) > 0 ==>
      Window(m, 0, Count(m) + 1).1 == EntriesText(Listing(m)) + EntryText(Listing(m)[Count(m) - 1])
    ensures Count(m) == 0 ==> Window(m, 0, Count(m) + 1).1 == EntryText(m.current)
  {
    var c := Count(m);
    WindowLists(m, 0, c);
    assert Listing(m)[0..c] == Listing(m);
    var prev := Window(m, 0, c);
    assert Seek(prev.0, c) == prev.0;
    assert Window(m, 0, c + 1).1 == prev.1 + EntryText(prev.0.current);
  }

  /**
   * The two window ends agree on every later page and on the first page
   * of a directory with three entries or more; otherwise the end as
   * written is one past the last entry.
   */
  lemma WindowEndsAgree(itemPos: nat, count: nat)
    ensures itemPos > 0 || count >= 3 ==> WindowEndAsWritten(itemPos, count) == WindowEnd(itemPos, count)
    ensures itemPos == 0 && count < 3 ==> WindowEndAsWritten(itemPos, count) == count + 1 > count
  {
  }

  /**
   * The first page as written reaches one position past the last entry
   * when the directory has fewer than three: at the root with a single
   * entry, the refused seek leaves that entry selected and it is listed twice.
   */
  lemma FirstPageAsWrittenRepeats(m: Media, e: Entry)
    requires AtRoot(m) && Listing(m) == [e]
    ensures DirectoryPage(m, 0, WindowEndAsWritten(0, Count(m))).1
      == ExtraMenuDir + CRLF + ExtraMenuDir + CRLF + EntryText(e) + EntryText(e)
  {
    assert WindowEndAsWritten(0, Count(m)) == 2;
    assert Window(m, 0, 1) == (m.(current := e), "" + EntryText(e));
    assert Seek(m.(current := e), 1) == m.(current := e);
  }

  /** An extra-menu page shows the four entries from the offset on; other offsets show nothing. */
  lemma ExtraMenuPages(cfg: Config, pos: nat)
    ensures pos % 4 == 0 && pos < 12 ==> ExtraMenuPage(cfg, pos) == MenuLines(cfg, MenuItems(cfg)[pos..pos + 4])
    ensures pos % 4 != 0 || pos >= 12 ==> ExtraMenuPage(cfg, pos) == ""
  {
    if pos % 4 == 0 && pos < 12 {
      var page := MenuItems(cfg)[pos..pos + 4];
      FourLines(cfg, page);
    }
  }

  /** The lines of four entries, written out. */
  lemma FourLines(cfg: Config, names: seq<string>)
    requires |names| == 4
    ensures MenuLines(cfg, names)
      == cfg.menuLine(names[0]) + cfg.menuLine(names[1]) + cfg.menuLine(names[2]) + cfg.menuLine(names[3])
  {
    var p1 := names[..1];
    var p2 := names[..2];
    var p3 := names[..3];
    assert p1[..0] == [];
    assert MenuLines(cfg, p1) == cfg.menuLine(names[0]);
    assert p2[..1] == p1;
    assert MenuLines(cfg, p2) == MenuLines(cfg, p1) + cfg.menuLine(names[1]);
    assert p3[..2] == p2;
    assert MenuLines(cfg, p3) == MenuLines(cfg, p2) + cfg.menuLine(names[2]);
    assert names[..3] == p3;
    assert MenuLines(cfg, names) == MenuLines(cfg, p3) + cfg.menuLine(names[3]);
  }

  /** The calls the menu entry at index i of MenuItems makes (none for the first, which lists). */
  function ActionCalls(i: nat): seq<Call>
    requires 1 <= i < 12
  {
    match i
    case 1 => [GcodeNow(HotendPidGcode)]
    case 2 => [GcodeNow(HotbedPidGcode)]
    case 3 => [GcodeNow(M500)]
    case 4 => [GcodeNow(M502)]
    case 5 => [GcodeNow(PreheatBedGcode)]
    case 6 => [GcodeNow(MeshStart)]
    case 7 => [GcodeNow(MeshNext)]
    case 8 => NudgeCalls(ZUp01)
    case 9 => NudgeCalls(ZUp002)
    case 10 => NudgeCalls(ZDown01)
    case _ => NudgeCalls(ZDown002)
  }

  /** A Z nudge: relative positioning, the move, absolute positioning, all queued. */
  function NudgeCalls(move: string): seq<Call> {
    [GcodeQueue(G91), GcodeQueue(move), GcodeQueue(G90)]
  }

  lemma NudgeQueues(h: Host, move: string)
    ensures Nudge(h, move) == h.(calls := h.calls + NudgeCalls(move))
  {
    assert h.calls + [GcodeQueue(G91)] + [GcodeQueue(move)] + [GcodeQueue(G90)] == h.calls + NudgeCalls(move);
  }

  /** No entry before index i matches the selected name. */
  predicate FirstMatch(cfg: Config, f: string, i: nat)
    requires i < 12
  {
    EqualsIgnoreCase(f, MenuItems(cfg)[i]) && forall j :: 0 <= j < i ==> !EqualsIgnoreCase(f, MenuItems(cfg)[j])
  }

  /** The first entry a name matches decides the calls the menu makes. */
  lemma MenuActionOf(cfg: Config, h: Host, f: string, i: nat)
    requires 1 <= i < 12 && FirstMatch(cfg, f, i)
    ensures MenuAction(cfg, h, f) == h.(calls := h.calls + ActionCalls(i))
  {
    var items := MenuItems(cfg);
    if i < 8 {
      MenuActionNow(cfg, h, f, i);
    } else {
      assert forall j :: 1 <= j < 8 ==> !EqualsIgnoreCase(f, items[j]);
      MenuActionNudge(cfg, h, f, i);
    }
  }

  lemma MenuActionNow(cfg: Config, h: Host, f: string, i: nat)
    requires 1 <= i < 8 && FirstMatch(cfg, f, i)
    ensures MenuAction(cfg, h, f) == h.(calls := h.calls + ActionCalls(i))
  {
    var items := MenuItems(cfg);
    assert i > 1 ==> !EqualsIgnoreCase(f, items[1]);
    assert i > 2 ==> !EqualsIgnoreCase(f, items[2]);
    assert i > 3 ==> !EqualsIgnoreCase(f, items[3]);
    assert i > 4 ==> !EqualsIgnoreCase(f, items[4]);
    assert i > 5 ==> !EqualsIgnoreCase(f, items[5]);
    assert i > 6 ==> !EqualsIgnoreCase(f, items[6]);
  }

  lemma MenuActionNudge(cfg: Config, h: Host, f: string, i: nat)
    requires 8 <= i < 12 && FirstMatch(cfg, f, i)
    ensures MenuAction(cfg, h, f) == h.(calls := h.calls + ActionCalls(i))
  {
    var items := MenuItems(cfg);
    assert !EqualsIgnoreCase(f, items[1]) && !EqualsIgnoreCase(f, items[2]) && !EqualsIgnoreCase(f, items[3]);
    assert !EqualsIgnoreCase(f, items[4]) && !EqualsIgnoreCase(f, items[5]) && !EqualsIgnoreCase(f, items[6]);
    assert !EqualsIgnoreCase(f, items[7]);
    assert i > 8 ==> !EqualsIgnoreCase(f, items[8]);
    assert i > 9 ==> !EqualsIgnoreCase(f, items[9]);
    assert i > 10 ==> !EqualsIgnoreCase(f, items[10]);
    if i == 8 {
      NudgeQueues(h, ZUp01);
    } else if i == 9 {
      NudgeQueues(h, ZUp002);
    } else if i == 10 {
      NudgeQueues(h, ZDown01);
    } else {
      NudgeQueues(h, ZDown002);
    }
  }

  /**
   * Selecting an extra-menu entry makes exactly the calls of the first
   * entry whose name it equals, ignoring case, and prints nothing.
   */
  lemma MenuEntryRunsItsAction(cfg: Config, w: World, i: nat)
    requires Valid(w) && 1 <= i < 12 && FirstMatch(cfg, w.selectedFilename, i)
    ensures HandleExtraMenu(cfg, w) == w.(host := w.host.(calls := w.host.calls + ActionCalls(i)))
  {
    assert !EqualsIgnoreCase(w.selectedFilename, MenuItems(cfg)[0]);
    MenuActionOf(cfg, w.host, w.selectedFilename, i);
  }

  /** A name that matches no entry changes nothing. */
  lemma UnknownMenuEntry(cfg: Config, w: World)
    requires Valid(w)
    requires forall j :: 0 <= j < 12 ==> !EqualsIgnoreCase(w.selectedFilename, MenuItems(cfg)[j])
    ensures HandleExtraMenu(cfg, w) == w
  {
    var items := MenuItems(cfg);
    assert !EqualsIgnoreCase(w.selectedFilename, items[0]);
    assert !EqualsIgnoreCase(w.selectedFilename, items[1]);
    assert !EqualsIgnoreCase(w.selectedFilename, items[2]);
    assert !EqualsIgnoreCase(w.selectedFilename, items[3]);
    assert !EqualsIgnoreCase(w.selectedFilename, items[4]);
    assert !EqualsIgnoreCase(w.selectedFilename, items[5]);
    assert !EqualsIgnoreCase(w.selectedFilename, items[6]);
    assert !EqualsIgnoreCase(w.selectedFilename, items[7]);
    assert !EqualsIgnoreCase(w.selectedFilename, items[8]);
    assert !EqualsIgnoreCase(w.selectedFilename, items[9]);
    assert !EqualsIgnoreCase(w.selectedFilename, items[10]);
    assert !EqualsIgnoreCase(w.selectedFilename, items[11]);
  }

  /**
   * The classification in terms of the text the panel sends after "A13 ":
   * a directory ends in '/', the parent directory also starts with "..",
   * the extra menu's name is matched ignoring case, and an extra-menu entry
   * is enclosed in '<' and '>'.
   */
  function ClassOf(name: string): Selection {
    if name != [] && name[|name| - 1] == '/' then
      if |name| >= 2 && name[0] == '.' && name[1] == '.' then Parent else Directory(name[..|name| - 1])
    else if EqualsIgnoreCase(name, ExtraMenuDir) then ExtraMenuName(name)
    else if name != [] && name[0] == '<' && name[|name| - 1] == '>' then MenuEntry(name)
    else FileName(name)
  }

  /** For a line "A13 name" the classification of the buffer is that of the name. */
  lemma ClassifyLine(mem: seq<char>, aPos: nat, name: string)
    requires aPos < |mem| && CStrAt(mem, aPos) == "A13 " + name
    ensures Classify(mem, aPos) == ClassOf(name)
  {
    LineChars(mem, aPos, name);
    var sel := CStrAt(mem, aPos);
    assert sel[|sel| - 1] == if name == [] then ' ' else name[|name| - 1];
    if name != [] && name[|name| - 1] == '/' {
      assert |sel| >= 5;
    }
  }

  /** The characters of a line "A13 name" that the classification looks at. */
  lemma LineChars(mem: seq<char>, aPos: nat, name: string)
    requires aPos < |mem| && CStrAt(mem, aPos) == "A13 " + name
    ensures CStrAt(mem, aPos + 4) == name
    ensures name != [] ==> At(mem, aPos + 4) == name[0]
    ensures |name| >= 2 ==> At(mem, aPos + 5) == name[1]
    ensures |name| == 1 ==> At(mem, aPos + 5) == NUL
    ensures name == [] ==> At(mem, aPos + 4) == NUL
  {
    CStrAtSuffix(mem, aPos, 4);
    var sel := CStrAt(mem, aPos);
    assert name != [] ==> mem[aPos + 4] == sel[4] == name[0];
    assert |name| >= 2 ==> mem[aPos + 5] == sel[5] == name[1];
  }

  /** The name a selected file is opened under: the text, cut one character before its first '*'. */
  function StarCut(text: string): (name: string)
    ensures |name| <= |text| && name <= text
    ensures '*' !in text ==> name == text
  {
    if '*' !in text then text
    else
      var head := Before(text, '*');
      if head == [] then text else head[..|head| - 1]
  }

  /** The name read back after the cut is StarCut of the text. */
  lemma CutName(mem: seq<char>, start: nat)
    requires start >= 1
    ensures CStrAt(CutAtStar(mem, start), start) == StarCut(CStrAt(mem, start))
  {
    var text := CStrAt(mem, start);
    match Strchr(mem, start, '*')
    case Some(p) =>
      assert CutAtStar(mem, start) == mem[p - 1 := NUL];
      CutNameAt(mem, start, p);
    case None =>
      assert CutAtStar(mem, start) == mem;
      assert '*' !in text by {
        StrchrFinds(mem, start, '*');
      }
      assert StarCut(text) == text;
  }

  /** CutName where strchr finds the '*' at p. */
  lemma CutNameAt(mem: seq<char>, start: nat, p: nat)
    requires start >= 1 && Strchr(mem, start, '*') == Some(p)
    ensures CStrAt(mem[p - 1 := NUL], start) == StarCut(CStrAt(mem, start))
  {
    var text := CStrAt(mem, start);
    var k := p - start;
    assert k < |text| && text[k] == '*' && Before(text, '*') == text[..k] by {
      StrchrBefore(mem, start, '*', p);
    }
    StarCutAt(text, k);
    CutNameStar(mem, start, text, k);
  }

  /** With the first '*' of text at k, StarCut keeps the k - 1 characters before it, or all of text when k is 0. */
  lemma StarCutAt(text: string, k: nat)
    requires k < |text| && text[k] == '*' && Before(text, '*') == text[..k]
    ensures StarCut(text) == if k == 0 then text else text[..k - 1]
    ensures '*' !in text[..k]
  {
  }

  lemma CutNameStar(mem: seq<char>, start: nat, text: string, k: nat)
    requires start >= 1 && text == CStrAt(mem, start) && k < |text| && text[k] == '*' && '*' !in text[..k]
    ensures CStrAt(mem[start - 1 + k := NUL], start) == if k == 0 then text else text[..k - 1]
  {
    if k == 0 {
      CStrAtUntouched(mem, start, start - 1, NUL);
    } else {
      CStrAtCut(mem, start, start - 1 + k);
    }
  }

  /**
   * Selecting a file: the name cut before the '*' is selected and opened,
   * J20 or J21 reports the outcome, and the directory selection stays.
   */
  lemma SelectFileOpens(cfg: Config, w: World, aPos: nat)
    requires Valid(w) && aPos < |w.mem| && w.mem[aPos] == CommandLetter && w.host.mediaInserted
    requires Classify(w.mem, aPos).FileName?
    ensures var r := SelectFile(cfg, w, aPos);
      var name := StarCut(CStrAt(w.mem, aPos + 4));
      && r.selectedFilename == name
      && r.selectedDirectory == w.selectedDirectory
      && r.host.media == OpenFileRead(w.host.media, name)
      && r.host.calls == w.host.calls
      && r.host.out == w.host.out + ((if r.host.media.fileOpen then J20 else J21) + CRLF) + CRLF
  {
    assert SelectFile(cfg, w, aPos) == EndLine(OpenSelected(w, aPos));
    CutName(w.mem, aPos + 4);
  }

  /**
   * Selecting "../" goes up one directory and lists it; the directory
   * selection is not changed by going up.
   */
  lemma SelectParent(cfg: Config, w: World, aPos: nat)
    requires Valid(w) && aPos < |w.mem| && w.mem[aPos] == CommandLetter && w.host.mediaInserted
    requires Classify(w.mem, aPos) == Parent
    ensures var r := SelectFile(cfg, w, aPos);
      && r.selectedDirectory == w.selectedDirectory
      && r.selectedFilename == w.selectedFilename
      && r.mem == w.mem
      && r.host.media.path == UpDir(w.host.media).path
      && r.host.out == w.host.out + FileListStart + CRLF
        + ListBody(cfg, UpDir(w.host.media), ItemPos(CurrentLine(w)), w.selectedDirectory).1 + FileListEnd + CRLF + CRLF
  {
  }

  /**
   * Selecting "name/" selects and enters the directory name, without the
   * '/', and lists it.
   */
  lemma SelectDirectory(cfg: Config, w: World, aPos: nat, dir: string)
    requires Valid(w) && aPos < |w.mem| && w.mem[aPos] == CommandLetter && w.host.mediaInserted
    requires Classify(w.mem, aPos) == Directory(dir)
    ensures var r := SelectFile(cfg, w, aPos);
      && r.selectedDirectory == dir
      && r.selectedFilename == w.selectedFilename
      && r.host.media.path == ChangeDir(w.host.media, dir).path
      && r.host.out == w.host.out + FileListStart + CRLF
        + ListBody(cfg, ChangeDir(w.host.media, dir), ItemPos(CurrentLine(w)), dir).1 + FileListEnd + CRLF + CRLF
  {
  }

  /** Selecting the extra menu's name (any case) enters the extra menu and lists the page S asks for. */
  lemma SelectExtraMenu(cfg: Config, w: World, aPos: nat, name: string)
    requires Valid(w) && aPos < |w.mem| && w.mem[aPos] == CommandLetter && w.host.mediaInserted
    requires Classify(w.mem, aPos) == ExtraMenuName(name)
    ensures var r := SelectFile(cfg, w, aPos);
      && EqualsIgnoreCase(r.selectedDirectory, ExtraMenuDir)
      && r.host.out == w.host.out + FileListStart + CRLF + ExtraMenuPage(cfg, ItemPos(CurrentLine(w)))
        + FileListEnd + CRLF + CRLF
  {
    var w1 := w.(selectedDirectory := name);
    assert Valid(w1);
    assert SelectFile(cfg, w, aPos) == EndLine(List(cfg, w1));
    assert CurrentLine(w1) == CurrentLine(w);
    assert ListBody(cfg, w.host.media, ItemPos(CurrentLine(w)), name).1 == ExtraMenuPage(cfg, ItemPos(CurrentLine(w)));
  }

  /** Leaving the extra menu clears the selection and lists the enumerator's directory. */
  lemma MenuBackLists(cfg: Config, w: World)
    requires Valid(w) && EqualsIgnoreCase(w.selectedFilename, MenuBack)
    ensures var r := HandleExtraMenu(cfg, w);
      && r.selectedDirectory == [] && r.selectedFilename == []
      && r.host == ListFiles(cfg, w.host, ItemPos(CurrentLine(w)), [])
  {
  }

  /** Refreshing with a card goes to the root and lists the page the S of the oldest queued line asks for. */
  lemma RefreshListsRoot(cfg: Config, w: World)
    requires Valid(w) && w.host.mediaInserted
    ensures var r := Refresh(cfg, w);
      var m := AtRootDir(w.host.media);
      && AtRoot(r.host.media)
      && r.host.out == w.host.out + FileListStart + CRLF
        + ListBody(cfg, m, ItemPos(CurrentLine(w)), []).1 + FileListEnd + CRLF
  {
  }
}
