/**
 * The layout core of package logx (logx.go): padding text into columns,
 * shortening source paths to their last few directories, and turning call
 * stack frames into `dir/dir/file.go:line` locations for log prefixes and
 * stack traces.
 *
 * The call stack is an oracle. A `Stack` lists frames innermost first, and
 * `RuntimeCaller(stack, skip)` is what `runtime.Caller(skip)` reports when
 * called from the function whose own frame is `stack[0]`. Every function here
 * that the Go code enters on the way to `runtime.Caller` takes the stack as its
 * CALLER sees it and pushes its own frame with `Enter`, so the depth offsets of
 * the source (`levelUp+1`, `i+lvlInit`, `sl.lvl`) are checked against actual
 * nesting rather than restated.
 */
module Logx {
  import opened GoStrings
  import opened FilePaths

  /** How many directories the prefix of a log line shows. */
  const LeadingDirsInPrefix: nat := 2
  /** Default column width of the prefix. */
  const ColWidth: int := 6
  /** Minimum number of spaces towards the next column. */
  const MinCX: nat := 2

  // ---------------------------------------------------------------------
  // Columns

  lemma MulMonotone(a: int, b: int, c: int)
    requires c > 0 && a <= b
    ensures a * c <= b * c
  {
  }

  lemma MulCancelLess(a: int, b: int, c: int)
    requires c > 0 && a * c < b * c
    ensures a < b
  {
  }

  lemma MultipleMod(a: int, c: int)
    requires c > 0
    ensures (a * c) % c == 0
  {
    var x := a * c;
    var d, r := x / c, x % c;
    assert x == d * c + r;
    assert r == (a - d) * c;
    MulCancelLess(a - d, 1, c);
    MulCancelLess(-1, a - d, c);
  }

  /** The next multiple of a positive width past `n` lies within one width of it. */
  lemma NextMultiple(n: nat, colWidth: int)
    requires colWidth > 0
    ensures var next := (n / colWidth + 1) * colWidth;
            n < next <= n + colWidth && next % colWidth == 0
  {
    var q := n / colWidth;
    assert n == q * colWidth + n % colWidth;
    assert (q + 1) * colWidth == q * colWidth + colWidth;
    MultipleMod(q + 1, colWidth);
  }

  /**
   * Pads `arg` with spaces. A string shorter than `minWidth` is brought to
   * `minWidth + MinCX`; a longer one to the next multiple of `colWidth` past
   * its length plus `MinCX`.
   */
  function Columnify(arg: string, minWidth: int, colWidth: int): (r: string)
    requires colWidth > 0
    ensures |r| >= |arg| + MinCX
    ensures r[..|arg|] == arg
    ensures forall i :: |arg| <= i < |r| ==> r[i] == ' '
    ensures |arg| < minWidth ==> |r| == minWidth + MinCX
    ensures |arg| >= minWidth ==>
              |r| % colWidth == 0 && |arg| + MinCX < |r| <= |arg| + MinCX + colWidth
  {
    if |arg| < minWidth then
      arg + Repeat(' ', minWidth + MinCX - |arg|)
    else
      // Go divides truncating toward zero; both operands are positive, so `/` agrees.
      var largestFraction := (|arg| + MinCX) / colWidth + 1;
      NextMultiple(|arg| + MinCX, colWidth);
      var padd := largestFraction * colWidth - |arg|;
      arg + Repeat(' ', padd)
  }

  /** A short field is padded to `minWidth + minCX` characters. */
  lemma ColumnifyShortExample()
    ensures Columnify("ab", 8, 6) == "ab" + "        "
  {
    assert Columnify("ab", 8, 6) == "ab" + Repeat(' ', 8);
  }

  /**
   * The doc comment promises a length that is a multiple of `colWidth`; a
   * short field gets `minWidth + minCX` characters instead, whatever `colWidth` is.
   */
  lemma ColumnifyShortNotAligned()
    ensures |Columnify("ab", 8, 6)| == 10 && |Columnify("ab", 8, 6)| % 6 != 0
  {
  }

  /** A long field ends on the FIRST column boundary past its text and gutter. */
  lemma ColumnifyNextColumn(arg: string, minWidth: int, colWidth: int, boundary: int)
    requires colWidth > 0 && |arg| >= minWidth
    requires boundary % colWidth == 0 && boundary > |arg| + MinCX
    ensures |Columnify(arg, minWidth, colWidth)| <= boundary
  {
    var width := |Columnify(arg, minWidth, colWidth)|;
    var k, m := width / colWidth, boundary / colWidth;
    assert width == k * colWidth;
    assert boundary == m * colWidth;
    assert (k - 1) * colWidth == width - colWidth;
    MulCancelLess(k - 1, m, colWidth);
    MulMonotone(k, m, colWidth);
  }

  /** The width of a long field, as logx.go:93-94 computes it. */
  lemma ColumnifyLongWidth(arg: string, minWidth: int, colWidth: int)
    requires colWidth > 0 && |arg| >= minWidth
    ensures |Columnify(arg, minWidth, colWidth)| == ((|arg| + MinCX) / colWidth + 1) * colWidth
  {
    var width := |Columnify(arg, minWidth, colWidth)|;
    var q := (|arg| + MinCX) / colWidth;
    NextMultiple(|arg| + MinCX, colWidth);
    ColumnifyNextColumn(arg, minWidth, colWidth, (q + 1) * colWidth);
    // `width` is a multiple above |arg| + MinCX, so it is no smaller than the next one either.
    var k := width / colWidth;
    assert width == k * colWidth;
    assert q * colWidth <= |arg| + MinCX;
    MulCancelLess(q, k, colWidth);
    MulMonotone(q + 1, k, colWidth);
  }

  /**
   * Padding is undone by trimming trailing spaces, and re-padding the trimmed
   * text gives the same field again.
   */
  lemma ColumnifyRetrimmed(arg: string, minWidth: int, colWidth: int)
    requires colWidth > 0
    requires arg == [] || arg[|arg| - 1] != ' '
    ensures TrimRight(Columnify(arg, minWidth, colWidth), " ") == arg
    ensures Columnify(TrimRight(Columnify(arg, minWidth, colWidth), " "), minWidth, colWidth)
            == Columnify(arg, minWidth, colWidth)
  {
    var r := Columnify(arg, minWidth, colWidth);
    var t := TrimRight(r, " ");
    // Trimming stops exactly where the padding begins.
    assert |t| == |arg|;
  }

  // ---------------------------------------------------------------------
  // Shortened source paths

  /** The `k` directories above the file, outermost first: Base(DirN(p, k)), …, Base(DirN(p, 1)). */
  function TrailingDirs(path: Path, k: nat): (dirs: Path)
    ensures |dirs| == k
  {
    if k == 0 then [] else [Base(DirN(path, k))] + TrailingDirs(path, k - 1)
  }

  /** The path kept by `leadDirsBeforeSourceFile`: `dirs` directories and the file name. */
  function ShortenPath(path: Path, dirs: nat): (r: Path)
    ensures |r| == dirs + 1 && r[dirs] == Base(path)
    ensures dirs == 0 ==> r == [Base(path)]
  {
    TrailingDirs(path, dirs) + [Base(path)]
  }

  /** With enough ancestors, the directories kept are the ones just above the file, in order. */
  lemma {:induction false} TrailingDirsAreAncestors(path: Path, k: nat)
    requires k < |path|
    ensures TrailingDirs(path, k) == path[|path| - 1 - k..|path| - 1]
  {
    if k > 0 {
      TrailingDirsAreAncestors(path, k - 1);
      DirNDropsSegments(path, k);
      assert Base(DirN(path, k)) == path[|path| - 1 - k];
    }
  }

  /** A path with at least `dirs` ancestor directories is cut to its last `dirs + 1` segments. */
  lemma ShortenPathKeepsTail(path: Path, dirs: nat)
    requires dirs < |path|
    ensures ShortenPath(path, dirs) == path[|path| - 1 - dirs..]
  {
    TrailingDirsAreAncestors(path, dirs);
  }

  /** An example: two directories kept in front of the file name. */
  lemma ShortenPathExample()
    ensures Render(ShortenPath(["a", "b", "c", "d", "file.go"], 2)) == "c/d/file.go"
  {
    var path := ["a", "b", "c", "d", "file.go"];
    ShortenPathKeepsTail(path, 2);
    assert ShortenPath(path, 2) == ["c", "d", "file.go"];
  }

  /**
   * leadDirsBeforeSourceFile: peels one directory off per round and puts it in
   * front of the ones collected so far, then appends the file name.
   */
  method LeadDirsBeforeSourceFile(path: Path, dirsBeforeSourceFile: nat) returns (lastDirs: Path)
    ensures lastDirs == ShortenPath(path, dirsBeforeSourceFile)
    ensures |lastDirs| == dirsBeforeSourceFile + 1
    ensures lastDirs[dirsBeforeSourceFile] == Base(path)
    ensures dirsBeforeSourceFile < |path| ==>
              lastDirs == path[|path| - 1 - dirsBeforeSourceFile..]
  {
    var rump := path;
    var dirs: Path := [];
    for i := 0 to dirsBeforeSourceFile
      invariant rump == DirN(path, i)
      invariant dirs == TrailingDirs(path, i)
    {
      rump := Dir(rump);
      var dir := Base(rump);
      dirs := [dir] + dirs;
    }
    // filepath.Join(filepath.Join(dirs...), filepath.Base(path))
    lastDirs := dirs + [Base(path)];
    if dirsBeforeSourceFile < |path| {
      ShortenPathKeepsTail(path, dirsBeforeSourceFile);
    }
  }

  // ---------------------------------------------------------------------
  // The call stack

  /** One stack frame: the source file and line a function is executing. */
  datatype Frame = Frame(file: Path, line: nat)

  /** Frames, innermost first. */
  type Stack = seq<Frame>

  /** What `runtime.Caller` reports: Go's zero values ("", 0) and `ok == false` past the top. */
  datatype CallerInfo = CallerInfo(file: Path, line: nat, ok: bool)

  function RuntimeCaller(stack: Stack, skip: nat): (c: CallerInfo)
    ensures c.ok <==> skip < |stack|
    ensures Frame(c.file, c.line) == FrameOrMissing(stack, skip)
  {
    if skip < |stack| then CallerInfo(stack[skip].file, stack[skip].line, true)
    else CallerInfo([], 0, false)
  }

  /** Where logx.go sits in its module tree. */
  const SourceFile: Path := ["github.com", "zew", "logx", "logx.go"]

  /** The frame of a logx.go function that is at line `line`. */
  function Site(line: nat): Frame
  {
    Frame(SourceFile, line)
  }

  /** The stack inside a function entered from `callers`, stopped at `here`. */
  function Enter(callers: Stack, here: Frame): Stack
  {
    [here] + callers
  }

  /** Frame `k` of a stack, or the zero frame `runtime.Caller` reports past its top. */
  function FrameOrMissing(stack: Stack, k: nat): Frame
  {
    if k < |stack| then stack[k] else Frame([], 0)
  }

  /** Entering a function moves every frame one level further up. */
  lemma FrameOrMissingEnter(stack: Stack, here: Frame, k: nat)
    ensures FrameOrMissing(Enter(stack, here), k + 1) == FrameOrMissing(stack, k)
  {
  }

  /** A frame with its path shortened. */
  function Shortened(f: Frame, dirs: nat): Frame
  {
    Frame(ShortenPath(f.file, dirs), f.line)
  }

  /** `fmt.Sprintf("%s:%d", file, line)`. */
  function FormatLocation(f: Frame): (r: string)
    ensures var n := |Render(f.file)|;
            |r| > n + 1 && r[..n] == Render(f.file) && r[n] == ':' && IsDecimal(r[n + 1..])
  {
    Render(f.file) + ":" + NatToString(f.line)
  }

  /** The line number is the decimal text after the last ':' of a location, and the path is before it. */
  lemma FormatLocationParts(f: Frame)
    ensures var s, k := FormatLocation(f), |FormatLocation(f)| - |NatToString(f.line)|;
            1 <= k && s[k - 1] == ':' && ':' !in s[k..] &&
            s[..k - 1] == Render(f.file) && IsDecimal(s[k..]) && DecimalValue(s[k..]) == f.line
  {
    var s := FormatLocation(f);
    var k := |s| - |NatToString(f.line)|;
    assert s[k..] == NatToString(f.line);
    assert s[..k - 1] == Render(f.file);
    DecimalRoundTrip(f.line);
  }

  /**
   * stackLine(levelUp, dirs): `levelUp` counts frames above stackLine's caller
   * (0 is the caller's own position), because stackLine adds one for itself.
   */
  function StackLine(callers: Stack, levelUp: nat, dirsBeforeSourceFile: nat): (f: Frame)
    ensures f == Shortened(FrameOrMissing(callers, levelUp), dirsBeforeSourceFile)
  {
    var c := RuntimeCaller(Enter(callers, Site(120)), levelUp + 1);
    Frame(ShortenPath(c.file, dirsBeforeSourceFile), c.line)
  }

  /** The prefix a log line gets for frame `f`: its shortened location padded into a column. */
  function LocationPrefix(f: Frame): (r: string)
    ensures var loc := FormatLocation(Shortened(f, LeadingDirsInPrefix));
            |r| >= |loc| + MinCX && |r| >= 8 + MinCX && r[..|loc|] == loc &&
            (forall i :: |loc| <= i < |r| ==> r[i] == ' ') &&
            (|loc| >= 8 ==> |r| % ColWidth == 0)
  {
    Columnify(FormatLocation(Shortened(f, LeadingDirsInPrefix)), 8, ColWidth)
  }

  /**
   * sourceLocationPrefix, with `sl.lvl` as the parameter `lvl`: the location
   * `lvl - 1` frames above the function that asks for the prefix.
   */
  function SourceLocationPrefix(callers: Stack, lvl: nat): (r: string)
    ensures 1 <= lvl ==> r == LocationPrefix(FrameOrMissing(callers, lvl - 1))
    ensures |r| >= 8 + MinCX
  {
    var f := StackLine(Enter(callers, Site(127)), lvl, LeadingDirsInPrefix);
    Columnify(FormatLocation(f), 8, ColWidth)
  }

  // ---------------------------------------------------------------------
  // Printf

  /** The message part of a Printf line: trailing newlines trimmed, padded into a 56/4 column. */
  function PrintfPayload(message: string): (r: string)
    ensures var text := TrimRight(message, "\n");
            |r| >= |text| + MinCX && r[..|text|] == text &&
            (forall i :: |text| <= i < |r| ==> r[i] == ' ') &&
            (|text| >= 56 ==> |r| % 4 == 0)
    ensures message == [] || message[|message| - 1] != '\n' ==> r[..|message|] == message
  {
    Columnify(TrimRight(message, "\n"), 56, 4)
  }

  /**
   * The line Printf hands to the logger, given the text `fmt.Sprintf` made of
   * its arguments. With `sl.lvl` = 2, the value of the commented-out call at
   * logx.go:126, it is located at Printf's own call site, callers[0].
   */
  function PrintfLine(callers: Stack, lvl: nat, message: string): (r: string)
    ensures 2 <= lvl ==> r == LocationPrefix(FrameOrMissing(callers, lvl - 2)) + PrintfPayload(message)
  {
    assert 2 <= lvl ==> FrameOrMissing(Enter(callers, Site(163)), lvl - 1) == FrameOrMissing(callers, lvl - 2) by {
      if 2 <= lvl { FrameOrMissingEnter(callers, Site(163), lvl - 2); }
    }
    SourceLocationPrefix(Enter(callers, Site(163)), lvl) + PrintfPayload(message)
  }

  // ---------------------------------------------------------------------
  // Stack traces

  /** The settings of one stackTrace call. */
  datatype TraceConfig = TraceConfig(lvlInit: nat, lvlsUp: nat, dirs: nat)

  /** Arguments for which `make` and `runtime.Caller` stay within the modelled range. */
  predicate ValidTraceArgs(args: seq<int>)
  {
    && (|args| > 0 ==> args[0] >= -2)
    && (|args| > 1 ==> args[1] >= 0)
    && (|args| > 2 ==> args[2] >= 0)
  }

  /** Defaults 2, 4 and 2; the first argument is added to lvlInit, the others replace. */
  function TraceConfigOf(args: seq<int>): (cfg: TraceConfig)
    requires ValidTraceArgs(args)
    ensures |args| == 0 ==> cfg == TraceConfig(2, 4, 2)
    ensures cfg.lvlInit == 2 + (if |args| > 0 then args[0] else 0)
    ensures |args| > 1 ==> cfg.lvlsUp == args[1]
    ensures |args| <= 1 ==> cfg.lvlsUp == 4
    ensures |args| > 2 ==> cfg.dirs == args[2]
    ensures |args| <= 2 ==> cfg.dirs == 2
  {
    TraceConfig(2 + (if |args| > 0 then args[0] else 0),
                if |args| > 1 then args[1] else 4,
                if |args| > 2 then args[2] else 2)
  }

  /** When the trace loop stops: the guard logx.go has, and the end of the stack. */
  datatype BreakGuard = AsWritten | AtStackTop

  predicate Breaks(g: BreakGuard, c: CallerInfo): (r: bool)
    ensures g == AsWritten && c.file == [] ==> !r
    ensures g == AsWritten && |c.file| == 1 ==> (r <==> c.line == 0 && c.file[0] == ".")
    ensures g == AtStackTop ==> (r <==> !c.ok)
  {
    match g
    case AsWritten => c.line == 0 && Render(c.file) == "."
    case AtStackTop => !c.ok
  }

  /** Whether the guard fires in round `j`. */
  predicate BreaksAt(stack: Stack, cfg: TraceConfig, g: BreakGuard, j: nat)
  {
    Breaks(g, RuntimeCaller(stack, j + cfg.lvlInit))
  }

  /** The first round, from `i` on, at which the guard fires; `lvlsUp` if none does. */
  function FirstBreak(stack: Stack, cfg: TraceConfig, g: BreakGuard, i: nat): (b: nat)
    requires i <= cfg.lvlsUp
    ensures i <= b <= cfg.lvlsUp
    ensures b < cfg.lvlsUp ==> BreaksAt(stack, cfg, g, b)
    ensures forall j :: i <= j < b ==> !BreaksAt(stack, cfg, g, j)
    decreases cfg.lvlsUp - i
  {
    if i == cfg.lvlsUp then i
    else if BreaksAt(stack, cfg, g, i) then i
    else FirstBreak(stack, cfg, g, i + 1)
  }

  /** The text of one trace entry for what `runtime.Caller` reported. */
  function EntryText(c: CallerInfo, dirs: nat): (r: string)
    ensures |r| >= 12 + MinCX
  {
    Columnify(FormatLocation(Frame(ShortenPath(c.file, dirs), c.line)), 12, 12)
  }

  /** The body of one trace round once the frame is known to be there. */
  method FormatEntry(c: CallerInfo, dirsBeforeSourceFile: nat) returns (entry: string)
    ensures entry == EntryText(c, dirsBeforeSourceFile)
    ensures |entry| >= 12 + MinCX
    ensures dirsBeforeSourceFile < |c.file| ==>
              var loc := Render(c.file[|c.file| - 1 - dirsBeforeSourceFile..]) + ":" + NatToString(c.line);
              |entry| >= |loc| + MinCX && entry[..|loc|] == loc &&
              (forall i :: |loc| <= i < |entry| ==> entry[i] == ' ') &&
              (|loc| >= 12 ==> |entry| % 12 == 0)
  {
    var file := LeadDirsBeforeSourceFile(c.file, dirsBeforeSourceFile);
    var location := FormatLocation(Frame(file, c.line));
    entry := Columnify(location, 12, 12);
  }

  /** The `lvlsUp` entries of a trace; those from the break on stay "". */
  function TraceLines(stack: Stack, cfg: TraceConfig, g: BreakGuard): (lines: seq<string>)
    ensures |lines| == cfg.lvlsUp
  {
    FilledUpTo(stack, cfg, FirstBreak(stack, cfg, g, 0))
  }

  /** The `lvlsUp` entries after `n` rounds of the trace loop: the first `n` filled, the rest "". */
  function FilledUpTo(stack: Stack, cfg: TraceConfig, n: nat): (lines: seq<string>)
    ensures |lines| == cfg.lvlsUp
  {
    seq(cfg.lvlsUp, i requires 0 <= i < cfg.lvlsUp =>
      if i < n then EntryText(RuntimeCaller(stack, i + cfg.lvlInit), cfg.dirs) else "")
  }

  /** One more round fills entry `n` and leaves every other entry as it was. */
  lemma FilledOneMore(stack: Stack, cfg: TraceConfig, n: nat)
    requires n < cfg.lvlsUp
    ensures FilledUpTo(stack, cfg, n + 1)
            == FilledUpTo(stack, cfg, n)[n := EntryText(RuntimeCaller(stack, n + cfg.lvlInit), cfg.dirs)]
  {
  }

  /** What stackTrace(args...) returns when it stops at the end of the stack. */
  function Trace(callers: Stack, args: seq<int>): (lines: seq<string>)
    requires ValidTraceArgs(args)
    ensures |lines| == TraceConfigOf(args).lvlsUp
  {
    TraceLines(Enter(callers, Site(204)), TraceConfigOf(args), AtStackTop)
  }

  /** What stackTrace(args...) returns with the guard logx.go has. */
  function TraceAsWritten(callers: Stack, args: seq<int>): (lines: seq<string>)
    requires ValidTraceArgs(args)
    ensures |lines| == TraceConfigOf(args).lvlsUp
  {
    TraceLines(Enter(callers, Site(204)), TraceConfigOf(args), AsWritten)
  }

  /** With the guard at the end of the stack, the loop runs exactly as far as frames exist. */
  lemma {:induction false} FirstBreakAtStackTop(stack: Stack, cfg: TraceConfig, i: nat)
    requires i <= cfg.lvlsUp
    ensures FirstBreak(stack, cfg, AtStackTop, i) ==
            if |stack| <= i + cfg.lvlInit then i
            else if cfg.lvlsUp <= |stack| - cfg.lvlInit then cfg.lvlsUp
            else |stack| - cfg.lvlInit
    decreases cfg.lvlsUp - i
  {
    if i < cfg.lvlsUp && i + cfg.lvlInit < |stack| {
      FirstBreakAtStackTop(stack, cfg, i + 1);
    }
  }

  /**
   * Entry `i` of a trace that stops at the end of the stack is filled exactly
   * when there is a frame `i + lvlInit` levels up, and then shows that frame.
   */
  lemma TraceFilledIffFrame(stack: Stack, cfg: TraceConfig, i: nat)
    requires i < cfg.lvlsUp
    ensures TraceLines(stack, cfg, AtStackTop)[i] != "" <==> i + cfg.lvlInit < |stack|
    ensures i + cfg.lvlInit < |stack| ==>
              TraceLines(stack, cfg, AtStackTop)[i]
              == Columnify(FormatLocation(Shortened(stack[i + cfg.lvlInit], cfg.dirs)), 12, 12)
  {
    var stop := FirstBreak(stack, cfg, AtStackTop, 0);
    FirstBreakAtStackTop(stack, cfg, 0);
    assert i < stop <==> i + cfg.lvlInit < |stack|;
    var c := RuntimeCaller(stack, i + cfg.lvlInit);
    var entry := EntryText(c, cfg.dirs);
    assert |entry| >= 12 + MinCX;
    TraceLinesAt(stack, cfg, AtStackTop, i);
    assert i + cfg.lvlInit < |stack| ==> Frame(c.file, c.line) == stack[i + cfg.lvlInit];
  }

  /** Entry `i` of a trace: the frame's text before the break, "" from it on. */
  lemma TraceLinesAt(stack: Stack, cfg: TraceConfig, g: BreakGuard, i: nat)
    requires i < cfg.lvlsUp
    ensures TraceLines(stack, cfg, g)[i]
            == if i < FirstBreak(stack, cfg, g, 0) then EntryText(RuntimeCaller(stack, i + cfg.lvlInit), cfg.dirs) else ""
  {
  }

  /** Asking for one more level keeps every entry already there. */
  lemma {:induction false} FirstBreakExtended(stack: Stack, cfg: TraceConfig, g: BreakGuard, i: nat)
    requires i <= cfg.lvlsUp
    ensures var more := cfg.(lvlsUp := cfg.lvlsUp + 1);
            FirstBreak(stack, cfg, g, i) == Min(FirstBreak(stack, more, g, i), cfg.lvlsUp)
    decreases cfg.lvlsUp - i
  {
    if i < cfg.lvlsUp && !BreaksAt(stack, cfg, g, i) {
      FirstBreakExtended(stack, cfg, g, i + 1);
    }
  }

  function Min(a: int, b: int): int
  {
    if a <= b then a else b
  }

  /** A trace of `n` levels is a prefix of the trace of `n + 1` levels. */
  lemma TracePrefixStable(stack: Stack, cfg: TraceConfig, g: BreakGuard)
    ensures TraceLines(stack, cfg, g)
            == TraceLines(stack, cfg.(lvlsUp := cfg.lvlsUp + 1), g)[..cfg.lvlsUp]
  {
    FirstBreakExtended(stack, cfg, g, 0);
  }

  /**
   * The loop of stackTrace: `lvlsUp` entries, filled from `lvlInit` levels up
   * until the guard fires.
   */
  method TraceLoop(stack: Stack, cfg: TraceConfig, g: BreakGuard) returns (lines: array<string>)
    ensures fresh(lines)
    ensures lines[..] == TraceLines(stack, cfg, g)
  {
    var lvlInit, lvlsUp, dirsBeforeSourceFile := cfg.lvlInit, cfg.lvlsUp, cfg.dirs;
    ghost var stop := FirstBreak(stack, cfg, g, 0);
    lines := new string[lvlsUp](_ => "");
    var i := 0;
    while i < lvlsUp
      invariant 0 <= i <= lvlsUp
      invariant FirstBreak(stack, cfg, g, i) == stop
      invariant lines[..] == FilledUpTo(stack, cfg, i)
    {
      var c := RuntimeCaller(stack, i + lvlInit);
      if Breaks(g, c) {
        assert stop == i;
        break;
      }
      WriteEntry(lines, stack, cfg, i);
      i := i + 1;
    }
    assert i == stop;
  }

  /** One round of the trace loop past its guard: entry `i` gets the frame's text. */
  method WriteEntry(lines: array<string>, stack: Stack, cfg: TraceConfig, i: nat)
    requires i < cfg.lvlsUp == lines.Length
    requires lines[..] == FilledUpTo(stack, cfg, i)
    modifies lines
    ensures lines[..] == FilledUpTo(stack, cfg, i + 1)
    ensures lines[i] == EntryText(RuntimeCaller(stack, i + cfg.lvlInit), cfg.dirs)
    ensures forall j :: 0 <= j < lines.Length && j != i ==> lines[j] == old(lines[j])
  {
    var c := RuntimeCaller(stack, i + cfg.lvlInit);
    lines[i] := FormatEntry(c, cfg.dirs);
    FilledOneMore(stack, cfg, i);
  }

  /**
   * stackTrace, stopping at the end of the stack: `lvlsUp` entries, each
   * filled exactly when a frame exists at its depth.
   */
  method StackTrace(callers: Stack, args: seq<int>) returns (lines: array<string>)
    requires ValidTraceArgs(args)
    ensures fresh(lines)
    ensures lines[..] == Trace(callers, args)
    ensures lines.Length == TraceConfigOf(args).lvlsUp
    ensures forall i :: 0 <= i < lines.Length ==>
              (lines[i] != "" <==> i + TraceConfigOf(args).lvlInit < |callers| + 1)
  {
    var cfg := TraceConfigOf(args);
    var stack := Enter(callers, Site(204));
    lines := TraceLoop(stack, cfg, AtStackTop);
    forall k | 0 <= k < lines.Length
      ensures lines[k] != "" <==> k + cfg.lvlInit < |stack|
    {
      TraceFilledIffFrame(stack, cfg, k);
    }
  }

  /** stackTrace exactly as logx.go writes its loop guard. */
  method StackTraceAsWritten(callers: Stack, args: seq<int>) returns (lines: array<string>)
    requires ValidTraceArgs(args)
    ensures fresh(lines)
    ensures lines[..] == TraceAsWritten(callers, args)
    ensures lines.Length == TraceConfigOf(args).lvlsUp
  {
    lines := TraceLoop(Enter(callers, Site(204)), TraceConfigOf(args), AsWritten);
  }

  /**
   * As logx.go writes it, the loop compares the raw file with "." while
   * `runtime.Caller` reports a missing frame as ("", 0): unless some real frame
   * is literally "." at line 0, every one of the `lvlsUp` entries gets filled,
   * including those past the end of the stack.
   */
  lemma AsWrittenTraceIgnoresStackTop(callers: Stack, args: seq<int>)
    requires ValidTraceArgs(args)
    requires forall k :: 0 <= k < |callers| ==> callers[k].line != 0 || Render(callers[k].file) != "."
    ensures forall i :: 0 <= i < |TraceAsWritten(callers, args)| ==> TraceAsWritten(callers, args)[i] != ""
  {
    var stack, cfg := Enter(callers, Site(204)), TraceConfigOf(args);
    var t := TraceLines(stack, cfg, AsWritten);
    assert FirstBreak(stack, cfg, AsWritten, 0) == cfg.lvlsUp by {
      var stop := FirstBreak(stack, cfg, AsWritten, 0);
      if stop < cfg.lvlsUp {
        AsWrittenGuardMisses(callers, stop + cfg.lvlInit);
      }
    }
    forall i | 0 <= i < cfg.lvlsUp
      ensures t[i] != ""
    {
      TraceLinesAt(stack, cfg, AsWritten, i);
    }
  }

  /** The guard as written fires on no level, not even past the end of the stack. */
  lemma AsWrittenGuardMisses(callers: Stack, skip: nat)
    requires forall k :: 0 <= k < |callers| ==> callers[k].line != 0 || Render(callers[k].file) != "."
    ensures !Breaks(AsWritten, RuntimeCaller(Enter(callers, Site(204)), skip))
  {
    var stack := Enter(callers, Site(204));
    if skip == 0 {
      assert stack[0] == Site(204);
    } else if skip < |stack| {
      assert stack[skip] == callers[skip - 1];
    } else {
      assert Render([]) == "";
    }
  }

  /**
   * The discrepancy on one input: called with the default arguments from a
   * function that has no frame above it, the trace as written shows an entry for a frame that
   * does not exist, where the trace that stops at the end of the stack is empty.
   */
  lemma StackTopCounterexample()
    ensures var callers := [Frame(["cmd", "main.go"], 9)];
            |callers| + 1 <= TraceConfigOf([]).lvlInit &&
            TraceAsWritten(callers, [])[0] != "" && Trace(callers, []) == ["", "", "", ""]
  {
    var callers := [Frame(["cmd", "main.go"], 9)];
    AsWrittenTraceIgnoresStackTop(callers, []);
    var t := Trace(callers, []);
    forall i | 0 <= i < 4 ensures t[i] == "" {
      TraceFilledIffFrame(Enter(callers, Site(204)), TraceConfigOf([]), i);
    }
  }

  /**
   * SPrintStackTrace(args...): a newline and tab, then the entries of the
   * trace, each further one after another newline and tab.
   */
  function SPrintStackTrace(callers: Stack, args: seq<int>): (r: string)
    requires ValidTraceArgs(args)
    ensures TraceConfigOf(args).lvlsUp == 0 ==> r == "\n\t"
    ensures TraceConfigOf(args).lvlsUp > 0 ==> r == PrefixEach(Trace(Enter(callers, Site(174)), args), "\n\t")
  {
    var lines := Trace(Enter(callers, Site(174)), args);
    assert |lines| > 0 ==> "\n\t" + Join(lines, "\n\t") == PrefixEach(lines, "\n\t") by {
      if |lines| > 0 { JoinAfterSeparator(lines, "\n\t"); }
    }
    "\n\t" + Join(lines, "\n\t")
  }

  /**
   * Entry `i` of SPrintStackTrace(args...) shows the frame `i + args[0]`
   * levels above its caller's position, and is "" when there is none: the two
   * frames of SPrintStackTrace and stackTrace are what lvlInit's 2 skips.
   */
  lemma SPrintStackTraceShowsCallers(callers: Stack, args: seq<int>, i: nat)
    requires ValidTraceArgs(args)
    requires i < TraceConfigOf(args).lvlsUp
    requires 0 <= i + (if |args| > 0 then args[0] else 0)
    ensures var depth := i + (if |args| > 0 then args[0] else 0);
            var entry := Trace(Enter(callers, Site(174)), args)[i];
            (entry != "" <==> depth < |callers|) &&
            (depth < |callers| ==>
               entry == Columnify(FormatLocation(Shortened(callers[depth], TraceConfigOf(args).dirs)), 12, 12))
  {
    var cfg := TraceConfigOf(args);
    var stack := Enter(Enter(callers, Site(174)), Site(204));
    var depth := i + (if |args| > 0 then args[0] else 0);
    assert Trace(Enter(callers, Site(174)), args) == TraceLines(stack, cfg, AtStackTop);
    assert i + cfg.lvlInit == depth + 2 && |stack| == |callers| + 2;
    assert depth < |callers| ==> stack[depth + 2] == callers[depth];
    TraceFilledIffFrame(stack, cfg, i);
  }

  /** SPrintStackTrace(args...) over the trace as logx.go writes its loop guard. */
  function SPrintStackTraceAsWritten(callers: Stack, args: seq<int>): (r: string)
    requires ValidTraceArgs(args)
    ensures TraceConfigOf(args).lvlsUp == 0 ==> r == "\n\t"
    ensures TraceConfigOf(args).lvlsUp > 0 ==>
              r == PrefixEach(TraceAsWritten(Enter(callers, Site(174)), args), "\n\t")
  {
    var lines := TraceAsWritten(Enter(callers, Site(174)), args);
    assert |lines| > 0 ==> "\n\t" + Join(lines, "\n\t") == PrefixEach(lines, "\n\t") by {
      if |lines| > 0 { JoinAfterSeparator(lines, "\n\t"); }
    }
    "\n\t" + Join(lines, "\n\t")
  }

  /**
   * As written, every one of the `lvlsUp` entries SPrintStackTrace joins is
   * filled, whether or not a frame exists at its depth.
   */
  lemma SPrintStackTraceAsWrittenFillsAll(callers: Stack, args: seq<int>, i: nat)
    requires ValidTraceArgs(args)
    requires forall k :: 0 <= k < |callers| ==> callers[k].line != 0 || Render(callers[k].file) != "."
    requires i < TraceConfigOf(args).lvlsUp
    ensures TraceAsWritten(Enter(callers, Site(174)), args)[i] != ""
  {
    var stack := Enter(callers, Site(174));
    forall k | 0 <= k < |stack|
      ensures stack[k].line != 0 || Render(stack[k].file) != "."
    {
      if k > 0 {
        assert stack[k] == callers[k - 1];
      }
    }
    AsWrittenTraceIgnoresStackTop(stack, args);
  }

  /**
   * Called from the top of the stack with the default arguments, the corrected
   * SPrintStackTrace is four empty entries, and the one as written is not.
   */
  lemma SPrintStackTraceAtStackTop()
    ensures SPrintStackTrace([], []) == "\n\t\n\t\n\t\n\t"
    ensures SPrintStackTraceAsWritten([], []) != SPrintStackTrace([], [])
  {
    var stack := Enter([], Site(174));
    var t := Trace(stack, []);
    forall i | 0 <= i < 4 ensures t[i] == "" {
      TraceFilledIffFrame(Enter(stack, Site(204)), TraceConfigOf([]), i);
    }
    assert t == ["", "", "", ""];
    assert PrefixEach(t, "\n\t") == "\n\t\n\t\n\t\n\t";
    SPrintStackTraceAsWrittenFillsAll([], [], 0);
    var w := TraceAsWritten(stack, []);
    assert |PrefixEach(w, "\n\t")| > 8 by {
      assert PrefixEach(w, "\n\t") == "\n\t" + w[0] + PrefixEach(w[1..], "\n\t");
      assert |w[0]| >= 14;
    }
  }
}
