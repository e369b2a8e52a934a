# logx, modelled in Dafny

`github.com/zew/logx` is a small Go logging package. It puts a short source
location (`dir/dir/file.go:line`) in front of each message and pads both fields
into columns. It also renders short stack traces, and its `Debugf` adds the
request's URL path. This project models the layout logic of that package:

- column padding (`Columnify`);
- path shortening (`leadDirsBeforeSourceFile`);
- locating the caller (`stackLine`, `sourceLocationPrefix`);
- the text `Printf` builds;
- the stack-trace loop (`stackTrace`, `SPrintStackTrace`);
- the request-path trimmer of `Debugf` (`choppOffLeadingDirs`).

Layout:

- `strings.dfy` (module `GoStrings`): the pieces of Go's `strings` and `fmt`
  the logger uses.
- `filepaths.dfy` (module `FilePaths`): paths as sequences of segments, with
  `Dir`, `Base` and rendering.
- `logx.dfy` (module `Logx`): `logx.go`.
- `logxwithreq.dfy` (module `LogxWithReq`): `logxwithreq.go`.

The call stack is an explicit value:

- A `Stack` is a sequence of frames, innermost first. `RuntimeCaller(stack, skip)`
  plays `runtime.Caller(skip)`.
- Past the top of the stack it reports Go's zero values `("", 0)` with
  `ok == false`. `FrameOrMissing` gives that missing frame a name.
- Each modelled function takes the stack as its caller sees it and pushes its
  own frame (`Enter`, at the line of the call it makes). So the source's depth
  offsets (`levelUp + 1`, `i + lvlInit`, `sl.lvl`) keep their meaning and are
  proved, not assumed.

`stackTrace` and `leadDirsBeforeSourceFile` update local state in loops, and
they are methods:

- `stackTrace` fills a preallocated array.
- Both are proved against specification functions (`TraceLines`,
  `ShortenPath`), and their properties are lemmas about those functions.

The rest is straight-line code and is modelled as functions.

A trace is easily read as being truncated once the stack runs out. The model
follows the code instead. In the code, `lines := make([]string, lvlsUp)` means the trace always
has `lvlsUp` entries, and the entries from the loop's break on stay `""`.
As logx.go:205 is written, the guard does not fire past the end of the stack,
so the missing frames are filled with `.:0` locations (see "## Findings").
Only a loop that stops at the end of the stack leaves them `""`; the model
proves both.

## Model

| member | source | states |
|---|---|---|
| Logx.Columnify | logx.go:88-98 | The result is `arg` followed only by spaces, with at least `minCX` (2) of them. A short `arg` gives exactly `minWidth + 2` characters. A long one ends on a multiple of `colWidth`, more than `len + 2` and at most `len + 2 + colWidth`. |
| Logx.ColumnifyShortExample | logx.go:89-91 | `Columnify("ab", 8, 6)` is "ab" and eight spaces, 10 characters. |
| Logx.ColumnifyShortNotAligned | logx.go:85-91 | The doc comment's promise, that the length is a multiple of `colWidth`, holds only for long fields. `Columnify("ab", 8, 6)` is 10 characters, which is not a multiple of 6. |
| Logx.ColumnifyNextColumn | logx.go:84-85 | A long field is no wider than any column boundary past its text and gutter, so it ends on the first one. |
| Logx.ColumnifyLongWidth | logx.go:92-95 | A long field's width is exactly `((len(arg) + 2) / colWidth + 1) * colWidth`. |
| Logx.ColumnifyRetrimmed | logx.go:89-97 | Trimming trailing spaces undoes the padding of text that does not end in a space, and padding again gives the same field. |
| Logx.TrailingDirs | logx.go:105-110 | The directories collected for `k` rounds number exactly `k`. |
| Logx.ShortenPath | logx.go:111-113 | The shortened path has `dirs + 1` segments. The last is `Base(path)`, and with `dirs == 0` it is `Base(path)` alone. |
| Logx.TrailingDirsAreAncestors | logx.go:106-110 | With more than `k` segments, the `k` collected directories are the ones directly above the file, in their original order, because each round prepends. |
| Logx.ShortenPathKeepsTail | logx.go:103-114 | A path with at least `dirs` ancestors is cut to its last `dirs + 1` segments. |
| Logx.ShortenPathExample | logx.go:100-114 | `/a/b/c/d/file.go` with two directories becomes `c/d/file.go`. |
| Logx.LeadDirsBeforeSourceFile | logx.go:103-114 | The loop returns `ShortenPath(path, dirs)`: `dirs + 1` segments ending in `Base(path)`, and the path's last `dirs + 1` segments when it has that many. |
| FilePaths.Dir | logx.go:107 | `filepath.Dir` drops the last segment. The path is what it returns with `Base` appended, and an empty path stays empty. |
| FilePaths.Base | logx.go:108-112 | `filepath.Base` is the last segment, and "." for an empty path. |
| FilePaths.Render | logx.go:111-112 | The text of a path: nothing for no segments, the segment alone for one, and otherwise all segments with one '/' between neighbours, so its length is the segments' total plus one less than their number. |
| FilePaths.DirN | logx.go:106-107 | `Dir` applied `k` times leaves `|p| - k` segments, or none once the path runs out. |
| FilePaths.DirNDropsSegments | logx.go:107 | Taking `Dir` `k` times removes the last `k` segments. |
| Logx.FormatLocation | logx.go:210 | `"%s:%d"` of a frame: the rendered path, then ':', then at least one decimal digit. |
| Logx.FormatLocationParts | logx.go:128 | In `file:line` the text after the last ':' is the decimal line number, which reads back as the line, and the text before it is the rendered path. |
| Logx.RuntimeCaller | logx.go:204 | `runtime.Caller(skip)` says ok exactly when a frame exists `skip` levels up, and reports that frame, or the zero frame ("", 0) when there is none. |
| Logx.FrameOrMissingEnter | logx.go:120 | One frame pushed on the stack moves every frame, including the missing one past the top, one level up. |
| Logx.StackLine | logx.go:119-122 | `stackLine(levelUp, d)` reports the frame `levelUp` levels above its caller, with `d` directories kept. Past the top it reports the zero frame. |
| Logx.LocationPrefix | logx.go:128-129 | A frame's location with 2 directories kept, followed only by spaces in an 8/6 column. It is at least 10 characters, and a location of 8 or more characters ends on a multiple of 6. |
| Logx.SourceLocationPrefix | logx.go:125-131 | With `sl.lvl >= 1`, the prefix is the frame `sl.lvl - 1` levels above the asking function, formatted with 2 directories in an 8/6 column. It is at least 10 characters. |
| Logx.PrintfPayload | logx.go:160-162 | The message loses its trailing newlines and is then padded with spaces in a 56/4 column. A message without a trailing newline is kept whole at the front. |
| Logx.PrintfLine | logx.go:159-165 | With `sl.lvl >= 2`, Printf's line is the location of the frame `sl.lvl - 2` levels above Printf's caller, followed by the payload. With `sl.lvl = 2`, the value of the commented-out call at logx.go:126, that is Printf's own call site. |
| Logx.TraceConfigOf | logx.go:185-199 | With no arguments the settings are 2, 4 and 2. `lvlInit` is 2 plus `args[0]` when given, and `lvlsUp` and `dirs` are `args[1]` and `args[2]` when given, else 4 and 2. |
| Logx.Breaks | logx.go:204-207 | The loop's guard. As written (`line == 0 && file == "."`) it never fires on the empty file `runtime.Caller` reports past the end of the stack, and for a one-segment file it fires exactly on "." at line 0. The corrected guard fires exactly when `runtime.Caller` reports `!ok`. |
| Logx.FirstBreak | logx.go:202-207 | The first round, from `i` on, at which the loop's guard fires, or `lvlsUp` if none does. The guard fires there and at no earlier round. |
| Logx.TraceLines | logx.go:201 | A trace always has `lvlsUp` entries. |
| Logx.FilledUpTo | logx.go:201 | After any number of rounds the array still has `lvlsUp` entries. |
| Logx.FilledOneMore | logx.go:208-211 | One round writes entry `i` and changes no other entry. |
| Logx.EntryText | logx.go:208-211 | One entry's text is at least 14 characters, so a filled entry is never "". |
| Logx.FormatEntry | logx.go:208-211 | One round computes `EntryText`, at least 14 characters. When the path has `d` directories above the file, the entry is its last `d + 1` segments, then ':' and the decimal line, then only spaces; a location of 12 or more characters ends on a multiple of 12. |
| Logx.TraceLoop | logx.go:201-213 | The loop returns a fresh array that equals `TraceLines`. The entries before the first break hold their frames, and every entry from the break on is "". Each round past the guard (`WriteEntry`) writes entry `i` with `FormatEntry` and keeps the array equal to `FilledUpTo`. |
| Logx.WriteEntry | logx.go:204-211 | One round past the guard, in place: entry `i` becomes the frame's `EntryText` at depth `i + lvlInit`, every other entry keeps its old value, so an array equal to `FilledUpTo(i)` becomes `FilledUpTo(i + 1)`. |
| Logx.Trace | logx.go:183-214 | The trace as a value, with the loop stopping at the end of the stack: `lvlsUp` entries, whose contents `TraceFilledIffFrame` describes. |
| Logx.TraceAsWritten | logx.go:183-214 | The trace as a value, with the guard as logx.go writes it: `lvlsUp` entries, whose contents `AsWrittenTraceIgnoresStackTop` describes. |
| Logx.StackTrace | logx.go:183-214 | With the guard stopping at the end of the stack, the result is a fresh array of `lvlsUp` entries. Entry `i` is filled exactly when a frame exists `i + lvlInit` levels up, where the defaults are 2 + args[0], 4 and 2. |
| Logx.FirstBreakAtStackTop | logx.go:202-207 | The corrected loop stops exactly where the stack runs out, or after `lvlsUp` rounds. |
| Logx.TraceFilledIffFrame | logx.go:201-212 | Entry `i` is non-empty if and only if its frame exists, and it then shows that frame's shortened location in a 12/12 column. |
| Logx.TraceLinesAt | logx.go:201-212 | Entry `i` is the frame's text before the first break and "" from it on. |
| Logx.FirstBreakExtended | logx.go:202 | Asking for one more level does not move an earlier break. |
| Logx.TracePrefixStable | logx.go:201-213 | The trace of `n` levels is a prefix of the trace of `n + 1` levels. |
| Logx.StackTraceAsWritten | logx.go:183-214 | The loop with the guard as written (`line == 0 && file == "."`) returns a fresh array equal to `TraceAsWritten`, with `lvlsUp` entries. |
| Logx.AsWrittenGuardMisses | logx.go:204-205 | The guard as written fires on no level, including the levels past the end of the stack, unless a real frame is "." at line 0. |
| Logx.AsWrittenTraceIgnoresStackTop | logx.go:202-212 | As written, every one of the `lvlsUp` entries is filled, including those past the top of the stack. |
| Logx.StackTopCounterexample | logx.go:204-205 | stackTrace called, with the default arguments, from a function that has no frame above it. As written, the trace's first entry is filled, while the trace that stops at the end of the stack is four "" entries. |
| Logx.SPrintStackTrace | logx.go:173-178 | With the trace stopped at the end of the stack, the result is "\n\t" followed by each entry, each preceded by its own "\n\t". For zero levels it is "\n\t" alone. |
| Logx.SPrintStackTraceShowsCallers | logx.go:173-178 | With the trace stopped at the end of the stack, entry `i` of SPrintStackTrace(args...) is filled exactly when a frame exists `i + args[0]` levels above its caller, and then shows that frame. |
| Logx.SPrintStackTraceAsWritten | logx.go:173-178 | With the guard as logx.go writes it, the result is "\n\t" followed by each as-written entry, each preceded by its own "\n\t"; "\n\t" alone for zero levels. |
| Logx.SPrintStackTraceAsWrittenFillsAll | logx.go:173-214 | As written, every one of the `lvlsUp` entries SPrintStackTrace joins is filled, whether or not a frame exists at its depth, unless a real frame is "." at line 0. |
| Logx.SPrintStackTraceAtStackTop | logx.go:173-214 | Called from the top of the stack with default arguments, the corrected result is four empty entries, "\n\t\n\t\n\t\n\t", and the as-written result differs from it. |
| GoStrings.Repeat | logx.go:91 | `strings.Repeat(" ", n)` gives `n` copies of the character. |
| GoStrings.Join | logx.go:175 | `strings.Join`: "" for no parts; otherwise it starts with the first part, and its length is the parts' total plus one separator between each pair of neighbours. |
| GoStrings.JoinAfterSeparator | logx.go:175-176 | One more separator in front of `strings.Join` gives every part its own separator. |
| GoStrings.TrimRight | logx.go:161 | `strings.TrimRight` leaves a prefix whose last character is outside the cutset, and everything removed is in the cutset. |
| GoStrings.NatToString | logx.go:210 | `%d` of a non-negative line number gives non-empty text, all decimal digits, without a leading zero. |
| GoStrings.DecimalRoundTrip | logx.go:128 | Reading back the decimal text of a line number gives the number. |
| GoStrings.Index | logxwithreq.go:38 | `strings.Index` is -1 exactly when the character is absent; otherwise it is the first position of the character. |
| GoStrings.IndexFrom | logxwithreq.go:41 | From position `k` on, the search result is -1 exactly when no character there matches; otherwise it is the first match. |
| GoStrings.CountZero | logxwithreq.go:38 | A character occurs zero times if and only if it is not in the string. |
| GoStrings.CountConcat | logxwithreq.go:38-43 | Counting over a concatenation adds the two counts. |
| GoStrings.CountSplit | logxwithreq.go:38-43 | Splitting a string at `k` splits its count. |
| LogxWithReq.ChoppOffLeadingDirs | logxwithreq.go:37-45 | The result is a suffix of the input. A path without '/' is returned unchanged, and one with a '/' gets strictly shorter. |
| LogxWithReq.CountThroughFirstSlash | logxwithreq.go:38-39 | The text up to and including the first '/' holds exactly one '/'. |
| LogxWithReq.CountAfterFirstSlash | logxwithreq.go:39 | Cutting through the first '/' removes one '/'. |
| LogxWithReq.CountFromFirstSlash | logxwithreq.go:42 | Cutting in front of the first '/' removes none. |
| LogxWithReq.ChopOneSlash | logxwithreq.go:38-43 | With exactly one '/', the result is the text after it and holds no '/'. |
| LogxWithReq.ChopCutsAtSecondSlash | logxwithreq.go:41-42 | When a second '/' follows the first, the result is cut at that second '/'. |
| LogxWithReq.ChopTwoSlashes | logxwithreq.go:38-43 | With at least two '/', the result starts with '/'. The part cut off holds exactly one '/', so the result is the input from its second '/' on and has one '/' fewer. |
| LogxWithReq.ChopExample | logxwithreq.go:37-45 | "/app/foo/bar" becomes "/foo/bar". |
| LogxWithReq.DebugfFormat | logxwithreq.go:16-17 | The format is the shortened path padded with spaces in a 12/4 column, followed by the caller's format unchanged. |
| LogxWithReq.DebugfLine | logxwithreq.go:15-21 | Outside App Engine, raising `sl.lvl` for Debugf's own frame locates the line exactly where Printf, called at the same place with the prefixed format, would locate it: at the frame `sl.lvl - 2` levels above Debugf's caller. |

## Left out

- `runtime.Caller` is replaced by the `Stack` value and `RuntimeCaller`. Real stack inspection, inlining and the `ok` flag's other failure modes are not modelled.
- `sl.lvl` and `SL().Incr().Decr()` are not defined in the files modelled, so the level is a parameter `lvl` and `Incr()` is `lvl + 1`. The `defer ... Decr()` restore is not modelled.
- `fmt.Sprintf(format, args...)` over `interface{}` values is a parameter: the model takes the text it produces. A '%' in a request path would be read as a verb by `Printf`, and that is not modelled.
- `Print`, `Println`, `l.Print` and the writer setup (`Get`, `LogToStdOut`, `LogTo`, `Disable`, `SetFlags`, `LogToResponseBody`) are output I/O over `log.Logger` and are not modelled.
- `Fatal` and `Fatalf` end in a `panic`, and `PathToSourceFile` is a thin `runtime.Caller` wrapper; neither is modelled.
- `PrintStackTrace` hands the trace to `Printf` as a format string, so it would expand any '%' in it. It is not modelled beyond `SPrintStackTrace` and `PrintfLine`.
- The App Engine half of `Debugf` (`appengine.NewContext`, the recover, `log.Debugf`) and `appengine.go` are foreign calls and are not modelled.
- `appenginenot.go` is not part of this model. Lines 16-23 of it are the same path trimming and padding as logxwithreq.go:16-17, which `DebugfFormat` models.
- Paths are sequences of segments. The degenerate cases of Go's `filepath.Dir`, `Base` and `Join` are not Go-exact: a path that runs out of ancestors, where Go yields "." or "/", and `Join`'s cleaning. The properties about kept directories are stated for paths with enough ancestors.
- Logx.Columnify: requires `colWidth > 0`. Go panics on a zero column width in the long branch. With a negative one, Go's truncating division usually makes the padding negative, and then `strings.Repeat` panics: `len(arg) = 10` with `colWidth = -4` gives padding -2. The exceptions are `colWidth = -1`, and `-2` with an even length, which pad by 1 or 0 spaces.
- Logx.Columnify: counts characters where Go's `len` counts UTF-8 bytes, so the widths agree with Go only on ASCII text: `Columnify("é", 8, 6)` is "é" and 8 spaces in Go, and "é" and 9 spaces here. The same holds for `PrintfPayload`, `DebugfFormat` and every prefix and entry built on `Columnify`.
- Logx.StackLine: `levelUp` is a `nat`, and negative levels are not modelled.
- Logx.SourceLocationPrefix: stated for `sl.lvl >= 1`. With 0 the prefix shows sourceLocationPrefix's own frame.
- Logx.PrintfLine: stated for `sl.lvl >= 2`. Smaller values name frames inside the logger itself.
- LogxWithReq.DebugfLine: stated for `sl.lvl >= 2`, like `PrintfLine`. With smaller values the location names a frame inside the logger.
- Logx.StackTrace: `ValidTraceArgs` asks for `args[0] >= -2` and non-negative `args[1]` and `args[2]`. Go panics on a negative length in `make` or a negative capacity. A negative skip passed to `runtime.Caller` is not modelled.
- Logx.TraceConfigOf: the three `if len(args) > k` steps of logx.go:191-199 are one function computing the three settings. It is the same case split, written as an expression.
- Strings are sequences of characters, and Go strings are indexed by byte. The slicing in `choppOffLeadingDirs` only cuts at '/', an ASCII byte, so its result is the same text either way. The lengths are another matter: see the `Logx.Columnify` line above.

## Findings

| source | as written | input that shows it | evidently intended | confidence | as-written member | corrected member |
|---|---|---|---|---|---|---|
| logx.go:204-207 | The trace loop breaks only when `line == 0 && file == "."`, testing the raw file reported by `runtime.Caller`. Past the top of the stack `runtime.Caller` reports `("", 0)`, so the guard never fires there. All `lvlsUp` entries are filled, and those past the top of the stack with `.:0`, a location of a frame that does not exist (unless a real frame is "." at line 0). | `stackTrace()` called directly from a function with no frame above it (default arguments 2, 4, 2). As written, entry 0 is filled; stopping at the end of the stack, all four entries are "". Likewise `SPrintStackTrace()` from the top of the stack: as written its entries are filled, while the corrected result is "\n\t\n\t\n\t\n\t". | Stop at the first depth that has no caller (`!ok`), leaving the remaining entries "". | medium, not executed | Logx.StackTraceAsWritten (with Logx.AsWrittenTraceIgnoresStackTop and Logx.StackTopCounterexample), and at the public entry point Logx.SPrintStackTraceAsWritten (with Logx.SPrintStackTraceAsWrittenFillsAll and Logx.SPrintStackTraceAtStackTop) | Logx.StackTrace (with Logx.TraceFilledIffFrame), and Logx.SPrintStackTrace (with Logx.SPrintStackTraceShowsCallers) |
