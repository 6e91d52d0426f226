/** The file-context builder: the text block that frames every included
    file, URL and directory entry, as `go/ai/config/context.go` writes it. */
module ContextBuilder {
  import opened Wrappers
  import opened Str

  /** The `--file`, `--dir`, `--context-above` and `--linum` options. */
  datatype Context = Context(files: seq<string>, dirs: seq<string>, above: bool, lineNumbers: bool)

  const Header: string := "# Additional context (files)"

  /** `Context.Empty`: no file and no directory was asked for. */
  predicate Empty(c: Context)
  {
    |c.files| == 0 && |c.dirs| == 0
  }

  /** One call of the `filepath.Walk` callback: the visited path, whether it
      is a directory, and the error the walk reports for it. */
  datatype WalkEvent = WalkEvent(path: string, isDir: bool, err: Option<Error>)

  /** One `(path, err)` pair yielded by `allPaths`. */
  datatype PathItem = PathItem(path: string, err: Option<Error>)

  /** What a reader delivers: the text read before it stopped, and the read
      error that stopped it, if any (none means end of file). */
  datatype Stream = Stream(data: string, err: Option<Error>)

  /** The two parts of a parsed URL that `isURL` looks at. */
  datatype Url = Url(scheme: string, host: string)

  datatype HttpResponse = HttpResponse(status: int, body: Stream)

  /** The outside world the builder reads: `url.Parse`, `os.Open`,
      `http.Get`, and the callbacks `filepath.Walk` makes for each root. */
  datatype World = World(
    parseUrl: string -> Result<Url>,
    open: string -> Result<Stream>,
    get: string -> Result<HttpResponse>,
    walk: string -> seq<WalkEvent>)

  //////////////////////////////////////////////////////////////////////
  // Paths

  /** What `iterFiles` yields for one callback: the reported error, else
      nothing for a directory, else the path. */
  function Yield(e: WalkEvent): (r: seq<PathItem>)
    ensures |r| <= 1
  {
    if e.err.Some? then [PathItem(e.path, e.err)]
    else if e.isDir then []
    else [PathItem(e.path, None)]
  }

  /** `iterFiles`: every error the walk reports, and every non-directory
      path, in walk order. */
  function IterFiles(events: seq<WalkEvent>): (r: seq<PathItem>)
    ensures |r| <= |events|
  {
    if events == [] then [] else Yield(events[0]) + IterFiles(events[1..])
  }

  /** The walk order is kept: the items of two stretches of the walk are the
      first stretch's items followed by the second's. */
  lemma {:induction false} IterFilesConcat(a: seq<WalkEvent>, b: seq<WalkEvent>)
    ensures IterFiles(a + b) == IterFiles(a) + IterFiles(b)
  {
    if a == [] {
      assert a + b == b;
    } else {
      assert (a + b)[0] == a[0];
      assert (a + b)[1..] == a[1..] + b;
      IterFilesConcat(a[1..], b);
      ConcatAssocItems(Yield(a[0]), IterFiles(a[1..]), IterFiles(b));
    }
  }

  lemma ConcatAssocItems(x: seq<PathItem>, y: seq<PathItem>, z: seq<PathItem>)
    ensures x + (y + z) == (x + y) + z
  {
  }

  /** One callback yields exactly its own item, if any. */
  lemma IterFilesOne(e: WalkEvent)
    ensures IterFiles([e]) == Yield(e)
  {
    assert [e][1..] == [];
    assert Yield(e) + [] == Yield(e);
  }

  /** A clean item is yielded exactly for a clean non-directory event, and
      an error item exactly for an event carrying that error. */
  lemma {:induction false} IterFilesMembers(events: seq<WalkEvent>, p: string, e: Option<Error>)
    ensures e.None? ==> (PathItem(p, e) in IterFiles(events) <==> WalkEvent(p, false, None) in events)
    ensures e.Some? ==> (PathItem(p, e) in IterFiles(events) <==>
                         WalkEvent(p, false, e) in events || WalkEvent(p, true, e) in events)
  {
    if events != [] {
      IterFilesMembers(events[1..], p, e);
      assert events == [events[0]] + events[1..];
    }
  }

  /** The items of the directories, each directory's walk in turn. */
  function DirItems(dirs: seq<string>, walk: string -> seq<WalkEvent>): seq<PathItem>
  {
    if dirs == [] then [] else IterFiles(walk(dirs[0])) + DirItems(dirs[1..], walk)
  }

  /** One more directory appends its walk after all the earlier ones. */
  lemma {:induction false} DirItemsSnoc(dirs: seq<string>, d: string, walk: string -> seq<WalkEvent>)
    ensures DirItems(dirs + [d], walk) == DirItems(dirs, walk) + IterFiles(walk(d))
  {
    var head := IterFiles(walk(d));
    if dirs == [] {
      assert [d][1..] == [];
      assert DirItems([d], walk) == head + [];
      assert head + [] == head;
    } else {
      var ds := dirs + [d];
      assert ds[0] == dirs[0];
      assert ds[1..] == dirs[1..] + [d];
      DirItemsSnoc(dirs[1..], d, walk);
      var first := IterFiles(walk(dirs[0]));
      assert DirItems(ds, walk) == first + (DirItems(dirs[1..], walk) + head);
      assert first + (DirItems(dirs[1..], walk) + head) == (first + DirItems(dirs[1..], walk)) + head;
    }
  }

  /** `allPaths`: the files in list order, then each directory's walk. */
  function AllPaths(c: Context, walk: string -> seq<WalkEvent>): (r: seq<PathItem>)
    ensures |r| >= |c.files|
    ensures forall i :: 0 <= i < |c.files| ==> r[i] == PathItem(c.files[i], None)
    ensures r[|c.files|..] == DirItems(c.dirs, walk)
    ensures Empty(c) ==> r == []
  {
    seq(|c.files|, i requires 0 <= i < |c.files| => PathItem(c.files[i], None)) + DirItems(c.dirs, walk)
  }

  //////////////////////////////////////////////////////////////////////
  // Reading one path

  /** `isURL`: parsed, with a host, and with scheme `http` or `https`. */
  predicate IsURL(parseUrl: string -> Result<Url>, path: string)
  {
    var u := parseUrl(path);
    u.Ok? && u.value.scheme != "" && u.value.host != "" &&
    (u.value.scheme == "http" || u.value.scheme == "https")
  }

  /** The non-empty-scheme test is implied by the scheme comparison. */
  lemma IsURLIff(parseUrl: string -> Result<Url>, path: string)
    ensures IsURL(parseUrl, path) <==>
      parseUrl(path).Ok? && parseUrl(path).value.host != "" &&
      parseUrl(path).value.scheme in {"http", "https"}
  {
    if parseUrl(path).Ok? && parseUrl(path).value.scheme in {"http", "https"} {
      assert parseUrl(path).value.scheme != "";
    }
  }

  const StatusOK: int := 200

  /** `downloadContent`: the response body, unless the request fails or
      the status is not 200. */
  function DownloadContent(get: string -> Result<HttpResponse>, u: string): (r: Result<Stream>)
    ensures r.Ok? <==> get(u).Ok? && get(u).value.status == StatusOK
    ensures r.Ok? ==> r.value == get(u).value.body
    ensures r.Err? ==> HasPrefix(ErrorString(r.error), "failed to download URL " + u)
    ensures get(u).Err? ==> r.Err? && Unwrap(r.error) == Some(get(u).error)
  {
    var resp := get(u);
    if resp.Err? then
      var e := Wrap("failed to download URL " + u, resp.error);
      assert ErrorString(e) == ("failed to download URL " + u) + (": " + ErrorString(resp.error));
      Err(e)
    else if resp.value.status != StatusOK then
      var t := "failed to download URL " + u + ", status code: " + IntToString(resp.value.status);
      assert t == ("failed to download URL " + u) + (", status code: " + IntToString(resp.value.status));
      Err(Fail(t))
    else Ok(resp.value.body)
  }

  /** `readContent`: download URLs, open everything else. */
  function ReadContent(w: World, path: string): Result<Stream>
  {
    if IsURL(w.parseUrl, path) then DownloadContent(w.get, path) else w.open(path)
  }

  function StartMarker(path: string): string
  {
    "\n\n====> START OF " + path + " <====\n\n"
  }

  function EndMarker(path: string): string
  {
    "\n\n====> END OF " + path + " <===="
  }

  /** The `--linum` rendering: line `k` (from `first`) becomes `k: line\n`. */
  function Numbered(lines: seq<string>, first: nat): string
  {
    if lines == [] then ""
    else NumberedLine(first, lines[0]) + Numbered(lines[1..], first + 1)
  }

  /** One line of the `--linum` rendering, as `%d: %s\n` prints it. */
  function NumberedLine(n: nat, line: string): string
  {
    NatToString(n) + ": " + line + "\n"
  }

  /** The lines of a numbered text, one per source line. */
  function NumberedLines(lines: seq<string>, first: nat): (r: seq<string>)
    ensures |r| == |lines|
    ensures forall k :: 0 <= k < |lines| ==> r[k] == NatToString(first + k) + ": " + lines[k]
  {
    if lines == [] then []
    else [NatToString(first) + ": " + lines[0]] + NumberedLines(lines[1..], first + 1)
  }

  /** Numbering one more line appends exactly that line's rendering. */
  lemma {:induction false} NumberedSnoc(lines: seq<string>, l: string, first: nat)
    ensures Numbered(lines + [l], first) == Numbered(lines, first) + NumberedLine(first + |lines|, l)
  {
    if lines == [] {
      assert [l][1..] == [];
      assert Numbered([l], first) == NumberedLine(first, l) + "";
    } else {
      assert (lines + [l])[1..] == lines[1..] + [l];
      NumberedSnoc(lines[1..], l, first + 1);
      var head := NumberedLine(first, lines[0]);
      var last := NumberedLine(first + |lines|, l);
      var mid := Numbered(lines[1..], first + 1);
      assert Numbered(lines + [l], first) == head + (mid + last);
      assert Numbered(lines, first) == head + mid;
      assert head + (mid + last) == (head + mid) + last;
    }
  }

  /** Lines each followed by a newline: the text `bufio.ScanLines` reads
      back as exactly those lines. */
  function Terminated(lines: seq<string>): string
  {
    if lines == [] then "" else lines[0] + "\n" + Terminated(lines[1..])
  }

  /** Splitting newline-terminated lines and a final unterminated piece at
      the newlines gives the lines and then the piece. */
  lemma {:induction false} SplitTerminated(lines: seq<string>, last: string)
    requires forall k :: 0 <= k < |lines| ==> '\n' !in lines[k]
    requires '\n' !in last
    ensures Split(Terminated(lines) + last, '\n') == lines + [last]
  {
    if lines == [] {
      assert Terminated(lines) + last == last;
    } else {
      var rest := Terminated(lines[1..]);
      TerminatedCons(lines, last);
      SplitCons(lines[0], rest + last, '\n');
      SplitTerminated(lines[1..], last);
      SnocCons(lines, last);
    }
  }

  /** The first terminated line, peeled off the front of the text. */
  lemma TerminatedCons(lines: seq<string>, last: string)
    requires lines != []
    ensures Terminated(lines) + last == lines[0] + ['\n'] + (Terminated(lines[1..]) + last)
  {
    ConcatAssoc(lines[0] + "\n", Terminated(lines[1..]), last);
    assert lines[0] + "\n" == lines[0] + ['\n'];
  }

  lemma SnocCons(lines: seq<string>, last: string)
    requires lines != []
    ensures lines + [last] == [lines[0]] + (lines[1..] + [last])
  {
  }

  /** Scanning newline-terminated lines gives those lines back. */
  lemma LinesOfTerminated(lines: seq<string>)
    requires forall k :: 0 <= k < |lines| ==> '\n' !in lines[k]
    ensures Lines(Terminated(lines)) == lines
  {
    SplitTerminated(lines, "");
    assert Terminated(lines) + "" == Terminated(lines);
    var segs := Split(Terminated(lines), '\n');
    assert segs[..|segs| - 1] == lines;
  }

  /** A last line without its newline is still scanned as a line of its own. */
  lemma LinesOfUnterminated(lines: seq<string>, last: string)
    requires forall k :: 0 <= k < |lines| ==> '\n' !in lines[k]
    requires '\n' !in last && last != ""
    ensures Lines(Terminated(lines) + last) == lines + [last]
  {
    SplitTerminated(lines, last);
  }

  /** The numbered text is its numbered lines, each newline-terminated. */
  lemma {:induction false} NumberedIsTerminated(lines: seq<string>, first: nat)
    ensures Numbered(lines, first) == Terminated(NumberedLines(lines, first))
  {
    if lines != [] {
      NumberedIsTerminated(lines[1..], first + 1);
      var nl := NumberedLines(lines, first);
      assert nl[1..] == NumberedLines(lines[1..], first + 1);
    }
  }

  /** Reading a numbered text back line by line gives each source line
      behind its number: the numbering neither merges nor splits lines. */
  lemma LinesOfNumbered(lines: seq<string>, first: nat)
    requires forall k :: 0 <= k < |lines| ==> '\n' !in lines[k]
    ensures Lines(Numbered(lines, first)) == NumberedLines(lines, first)
  {
    var nl := NumberedLines(lines, first);
    forall k | 0 <= k < |nl|
      ensures '\n' !in nl[k]
    {
      var num := NatToString(first + k);
      assert nl[k] == num + ": " + lines[k];
      assert '\n' !in num;
    }
    NumberedIsTerminated(lines, first);
    LinesOfTerminated(nl);
  }

  /** With `--linum`, a newline-terminated text is numbered line by line. */
  lemma NumberedBody(lines: seq<string>)
    requires forall k :: 0 <= k < |lines| ==> '\n' !in lines[k]
    ensures Body(Terminated(lines), true) == Numbered(lines, 1)
    ensures Body(Terminated(lines), false) == Terminated(lines)
  {
    LinesOfTerminated(lines);
  }

  /** With `--linum`, a final line without a newline is numbered like the
      others and gains the newline. */
  lemma NumberedBodyUnterminated(lines: seq<string>, last: string)
    requires forall k :: 0 <= k < |lines| ==> '\n' !in lines[k]
    requires '\n' !in last && last != ""
    ensures Body(Terminated(lines) + last, true) == Numbered(lines, 1) + NumberedLine(|lines| + 1, last)
  {
    LinesOfUnterminated(lines, last);
    NumberedSnoc(lines, last, 1);
  }

  /** What `fileContent` writes for one stream: the text verbatim, or its
      lines numbered from 1. */
  function Body(data: string, lineNumbers: bool): string
  {
    if lineNumbers then Numbered(Lines(data), 1) else data
  }

  /** What `fileContent` appends to the buffer, and the error it returns. */
  function FileContentSpec(w: World, path: string, lineNumbers: bool): (r: (string, Option<Error>))
  {
    var src := ReadContent(w, path);
    if src.Err? then ("", Some(Wrap("error reading content from " + path, src.error)))
    else
      var text := StartMarker(path) + Body(src.value.data, lineNumbers);
      if src.value.err.Some? then
        var context :=
          if lineNumbers then "error reading content from " + path + " line by line"
          else "error writing content to buffer for " + path;
        (text, Some(Wrap(context, src.value.err.value)))
      else (text + EndMarker(path), None)
  }

  /** A successful read of one path appends its framed body and nothing else;
      a failed one reports the failure wrapped with the path. */
  lemma FileContentFraming(w: World, path: string, lineNumbers: bool)
    ensures var fc := FileContentSpec(w, path, lineNumbers);
      fc.1.None? <==> ReadContent(w, path).Ok? && ReadContent(w, path).value.err.None?
    ensures var fc := FileContentSpec(w, path, lineNumbers);
      fc.1.None? ==> fc.0 == StartMarker(path) + Body(ReadContent(w, path).value.data, lineNumbers) + EndMarker(path)
    ensures var fc := FileContentSpec(w, path, lineNumbers);
      ReadContent(w, path).Err? ==> fc == ("", Some(Wrap("error reading content from " + path, ReadContent(w, path).error)))
    ensures var fc := FileContentSpec(w, path, lineNumbers);
      fc.1.Some? ==> Unwrap(fc.1.value).Some?
  {
  }

  /** `bytes.Buffer`, holding the text written so far. */
  class Buffer {
    var text: string

    constructor ()
      ensures text == ""
    {
      text := "";
    }

    method WriteString(s: string)
      modifies this
      ensures text == old(text) + s
    {
      text := text + s;
    }
  }

  /** The `--linum` loop of `fileContent`: each scanned line behind its number. */
  method WriteNumbered(buf: Buffer, lines: seq<string>)
    modifies buf
    ensures buf.text == old(buf.text) + Numbered(lines, 1)
  {
    var lineNumber := 1;
    while lineNumber <= |lines|
      invariant 1 <= lineNumber <= |lines| + 1
      invariant buf.text == old(buf.text) + Numbered(lines[..lineNumber - 1], 1)
    {
      NumberedSnoc(lines[..lineNumber - 1], lines[lineNumber - 1], 1);
      assert lines[..lineNumber] == lines[..lineNumber - 1] + [lines[lineNumber - 1]];
      buf.WriteString(NumberedLine(lineNumber, lines[lineNumber - 1]));
      lineNumber := lineNumber + 1;
    }
    assert lines[..|lines|] == lines;
  }

  /** `fileContent`: frame the content of `path` into `buf`. */
  method FileContent(buf: Buffer, w: World, path: string, lineNumbers: bool) returns (err: Option<Error>)
    modifies buf
    ensures buf.text == old(buf.text) + FileContentSpec(w, path, lineNumbers).0
    ensures err == FileContentSpec(w, path, lineNumbers).1
  {
    ghost var before := buf.text;
    ghost var spec := FileContentSpec(w, path, lineNumbers);
    var src := ReadContent(w, path);
    if src.Err? {
      assert before + "" == before;
      return Some(Wrap("error reading content from " + path, src.error));
    }
    ghost var body := Body(src.value.data, lineNumbers);
    buf.WriteString(StartMarker(path));
    if lineNumbers {
      WriteNumbered(buf, Lines(src.value.data));
    } else {
      buf.WriteString(src.value.data);
    }
    assert buf.text == (before + StartMarker(path)) + body;
    ConcatAssoc(before, StartMarker(path), body);
    if src.value.err.Some? {
      assert spec.0 == StartMarker(path) + body;
      err := Some(Wrap(if lineNumbers then "error reading content from " + path + " line by line"
                       else "error writing content to buffer for " + path, src.value.err.value));
      return;
    }
    buf.WriteString(EndMarker(path));
    ConcatAssoc(before, StartMarker(path) + body, EndMarker(path));
    return None;
  }

  //////////////////////////////////////////////////////////////////////
  // The whole block

  /** The frame of one item yielded by `allPaths`, or the error it stops the
      build with: the walk's error, or the failure to read the path. */
  function Frame(w: World, item: PathItem, lineNumbers: bool): Result<string>
  {
    if item.err.Some? then Err(item.err.value)
    else
      var fc := FileContentSpec(w, item.path, lineNumbers);
      if fc.1.Some? then Err(fc.1.value) else Ok(fc.0)
  }

  /** The text the loop of `Build` appends for the first `n` items, or the
      first error it meets among them. */
  function FramesUpTo(w: World, items: seq<PathItem>, n: nat, lineNumbers: bool): Result<string>
    requires n <= |items|
    decreases n
  {
    if n == 0 then Ok("")
    else
      var pre := FramesUpTo(w, items, n - 1, lineNumbers);
      if pre.Err? then pre
      else
        var f := Frame(w, items[n - 1], lineNumbers);
        if f.Err? then f else Ok(pre.value + f.value)
  }

  /** The text the loop of `Build` appends for all of `items`. */
  function Frames(w: World, items: seq<PathItem>, lineNumbers: bool): Result<string>
  {
    FramesUpTo(w, items, |items|, lineNumbers)
  }

  /** Once the first `k` items fail, the later items change nothing. */
  lemma {:induction false} FramesStopAtError(w: World, items: seq<PathItem>, k: nat, n: nat, lineNumbers: bool)
    requires k <= n <= |items|
    requires FramesUpTo(w, items, k, lineNumbers).Err?
    ensures FramesUpTo(w, items, n, lineNumbers) == FramesUpTo(w, items, k, lineNumbers)
    decreases n
  {
    if k < n {
      FramesStopAtError(w, items, k, n - 1, lineNumbers);
    }
  }

  /** One turn of the loop of `Build`: a failing frame is the result of the
      whole loop, and a clean one extends the text of the prefix. */
  lemma FramesExtend(w: World, items: seq<PathItem>, i: nat, lineNumbers: bool)
    requires i < |items|
    requires FramesUpTo(w, items, i, lineNumbers).Ok?
    ensures Frame(w, items[i], lineNumbers).Err? ==> Frames(w, items, lineNumbers) == Frame(w, items[i], lineNumbers)
    ensures Frame(w, items[i], lineNumbers).Ok? ==>
      FramesUpTo(w, items, i + 1, lineNumbers) == Ok(FramesUpTo(w, items, i, lineNumbers).value + Frame(w, items[i], lineNumbers).value)
  {
    var f := Frame(w, items[i], lineNumbers);
    assert FramesUpTo(w, items, i + 1, lineNumbers) == if f.Err? then f else Ok(FramesUpTo(w, items, i, lineNumbers).value + f.value);
    if f.Err? {
      FramesStopAtError(w, items, i + 1, |items|, lineNumbers);
    }
  }

  /** An item is clean when its walk reported no error and its content reads
      to the end. */
  predicate CleanItem(w: World, item: PathItem, lineNumbers: bool)
  {
    item.err.None? && FileContentSpec(w, item.path, lineNumbers).1.None?
  }

  /** The frames of the first `n` items succeed exactly when each of them is
      clean. */
  lemma {:induction false} FramesOkIff(w: World, items: seq<PathItem>, n: nat, lineNumbers: bool)
    requires n <= |items|
    ensures FramesUpTo(w, items, n, lineNumbers).Ok? <==> forall i :: 0 <= i < n ==> CleanItem(w, items[i], lineNumbers)
    decreases n
  {
    if n > 0 {
      FramesOkIff(w, items, n - 1, lineNumbers);
    }
  }

  lemma ConcatAssoc(a: string, b: string, c: string)
    ensures (a + b) + c == a + (b + c)
  {
  }

  /** The error `Context.wrap` makes; `%s` keeps only the text. */
  function BuildError(e: Error): Error
  {
    Fail("failed to build file context: " + ErrorString(e))
  }

  /** What `Build` returns. */
  function BuildSpec(c: Context, w: World): (r: Result<string>)
    ensures r.Ok? ==> HasPrefix(r.value, Header)
    ensures r.Err? ==> r.error.Fail? && HasPrefix(r.error.text, "failed to build file context: ")
    ensures AllPaths(c, w.walk) == [] ==> r == Ok(Header)
    ensures Empty(c) ==> r == Ok(Header)
  {
    var items := AllPaths(c, w.walk);
    var f := Frames(w, items, c.lineNumbers);
    assert items == [] ==> f == Ok("") && Header + "" == Header;
    if f.Err? then Err(BuildError(f.error)) else Ok(Header + f.value)
  }

  /** One turn of the loop of `Build`. */
  method WriteFrame(buf: Buffer, w: World, item: PathItem, lineNumbers: bool) returns (err: Option<Error>)
    modifies buf
    ensures err.None? <==> Frame(w, item, lineNumbers).Ok?
    ensures err.Some? ==> Frame(w, item, lineNumbers) == Err(err.value)
    ensures err.None? ==> buf.text == old(buf.text) + Frame(w, item, lineNumbers).value
  {
    if item.err.Some? {
      return item.err;
    }
    err := FileContent(buf, w, item.path, lineNumbers);
  }

  /** The loop of `Build`: frame every item into `buf`, stopping at the
      first error. */
  method WriteFrames(buf: Buffer, w: World, items: seq<PathItem>, lineNumbers: bool) returns (err: Option<Error>)
    modifies buf
    ensures err.None? <==> Frames(w, items, lineNumbers).Ok?
    ensures err.Some? ==> Frames(w, items, lineNumbers) == Err(err.value)
    ensures err.None? ==> buf.text == old(buf.text) + Frames(w, items, lineNumbers).value
  {
    var i := 0;
    while i < |items|
      invariant 0 <= i <= |items|
      invariant FramesUpTo(w, items, i, lineNumbers).Ok?
      invariant buf.text == old(buf.text) + FramesUpTo(w, items, i, lineNumbers).value
    {
      FramesExtend(w, items, i, lineNumbers);
      ghost var pre := FramesUpTo(w, items, i, lineNumbers).value;
      err := WriteFrame(buf, w, items[i], lineNumbers);
      if err.Some? {
        return;
      }
      ConcatAssoc(old(buf.text), pre, Frame(w, items[i], lineNumbers).value);
      i := i + 1;
    }
    return None;
  }

  /** `Build`: the header, then every path framed, aborting on the first error. */
  method Build(c: Context, w: World) returns (r: Result<string>)
    ensures r == BuildSpec(c, w)
  {
    var buf := new Buffer();
    buf.WriteString(Header);
    assert buf.text == Header;
    var err := WriteFrames(buf, w, AllPaths(c, w.walk), c.lineNumbers);
    if err.Some? {
      return Err(BuildError(err.value));
    }
    return Ok(buf.text);
  }

  /** `Build` succeeds exactly when every path is clean. */
  lemma BuildOkIff(c: Context, w: World)
    ensures BuildSpec(c, w).Ok? <==>
      forall i :: 0 <= i < |AllPaths(c, w.walk)| ==> CleanItem(w, AllPaths(c, w.walk)[i], c.lineNumbers)
  {
    FramesOkIff(w, AllPaths(c, w.walk), |AllPaths(c, w.walk)|, c.lineNumbers);
  }

  /** Three lines terminated by newlines. */
  lemma TerminatedExample(a: string, b: string, c: string)
    ensures Terminated([a, b, c]) == a + "\n" + b + "\n" + c + "\n"
  {
    var ls := [a, b, c];
    assert ls[1..] == [b, c] && ls[1..][1..] == [c] && ls[1..][1..][1..] == [];
    assert Terminated([c]) == c + "\n" + "";
    assert Terminated([b, c]) == b + "\n" + (c + "\n");
    assert Terminated(ls) == a + "\n" + (b + "\n" + (c + "\n"));
  }

  /** Three lines numbered from 1: with `TerminatedExample` and
      `NumberedBody`, the `--linum` body of `a\nb\nc\n` (for lines `a`, `b`,
      `c` without newlines) is `1: a\n2: b\n3: c\n`. */
  lemma NumberingExample(a: string, b: string, c: string)
    ensures Numbered([a, b, c], 1) == "1: " + a + "\n2: " + b + "\n3: " + c + "\n"
  {
    var ls := [a, b, c];
    assert ls[1..] == [b, c] && ls[1..][1..] == [c] && ls[1..][1..][1..] == [];
    assert NatToString(3) == [Digit(3)] == "3";
    assert NatToString(2) == [Digit(2)] == "2";
    assert NatToString(1) == [Digit(1)] == "1";
    assert Numbered([c], 3) == "3: " + c + "\n" + "";
    assert Numbered([b, c], 2) == "2: " + b + "\n" + ("3: " + c + "\n");
    assert Numbered(ls, 1) == "1: " + a + "\n" + ("2: " + b + "\n" + ("3: " + c + "\n"));
  }

  /** Two local files read verbatim are framed one after the other, below
      the header. */
  lemma TwoFilesExample(w: World, p: string, q: string, x: string, y: string)
    requires !IsURL(w.parseUrl, p) && !IsURL(w.parseUrl, q)
    requires w.open(p) == Ok(Stream(x, None)) && w.open(q) == Ok(Stream(y, None))
    ensures BuildSpec(Context([p, q], [], false, false), w) == Ok(
      Header + (StartMarker(p) + x + EndMarker(p)) + (StartMarker(q) + y + EndMarker(q)))
  {
    var c := Context([p, q], [], false, false);
    var items := AllPaths(c, w.walk);
    assert items == [PathItem(p, None), PathItem(q, None)];
    var fa := StartMarker(p) + x + EndMarker(p);
    var fb := StartMarker(q) + y + EndMarker(q);
    assert FileContentSpec(w, p, false) == (fa, None);
    assert FileContentSpec(w, q, false) == (fb, None);
    assert "" + fa == fa;
    assert FramesUpTo(w, items, 1, false) == Ok(fa);
    assert Frames(w, items, false) == Ok(fa + fb);
    assert BuildSpec(c, w) == Ok(Header + (fa + fb));
    assert Header + (fa + fb) == Header + fa + fb;
  }
}
