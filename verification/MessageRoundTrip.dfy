/** What the request reader makes of printed requests, and of the responses this server prints. */
module MessageRoundTrip {
  import opened Decimal
  import opened HttpMessages
  import opened RequestReader

  // ----- the reader on any data -----

  /** What follows the request line. */
  function AfterRequestLine(s: string): string {
    AfterChunk(AfterChunk(AfterChunk(s, ' '), ' '), '\n')
  }

  /** On any data, `other` holds the lines after the request line from the second to the first one that is
      empty or a lone carriage return, inclusive: the first header line is dropped and the blank line kept.
      What is left unread is what comes after that line. */
  lemma OthersExact(s: string) returns (k: nat)
    ensures var ls, left := LinesOf(AfterRequestLine(s)), ReadRequestFrom(s).1;
            && k < |ls| && (ls[k] == "" || ls[k] == "\r")
            && (forall i :: 0 <= i < k ==> ls[i] != "" && ls[i] != "\r")
            && ReadRequestFrom(s).0.other == ls[1..k + 1]
            && IsEnd(left, AfterRequestLine(s))
            && if k + 1 == |ls| then left == ""
               else JoinLines(ls[..k + 1]) + "\n" + Completed(left) == Completed(AfterRequestLine(s))
  {
    k := LoopExact(AfterRequestLine(s));
  }

  lemma LoopExact(text: string) returns (k: nat)
    ensures var ls := LinesOf(text);
            var (other, left) := HeaderLoop(Chunk(text, '\n'), AfterChunk(text, '\n'));
            && k < |ls| && (ls[k] == "" || ls[k] == "\r")
            && (forall i :: 0 <= i < k ==> ls[i] != "" && ls[i] != "\r")
            && other == ls[1..k + 1] && IsEnd(left, text)
            && if k + 1 == |ls| then left == ""
               else JoinLines(ls[..k + 1]) + "\n" + Completed(left) == Completed(text)
  {
    HeaderLoopIs(text);
    k := FirstBlank(LinesOf(text));
    LeftExact(text, k + 1);
  }

  lemma LeftExact(text: string, n: nat)
    requires 0 < n <= |LinesOf(text)|
    ensures var ls, left := LinesOf(text), AfterLines(text, n);
            && IsEnd(left, text)
            && if n == |ls| then left == ""
               else JoinLines(ls[..n]) + "\n" + Completed(left) == Completed(text)
  {
    AfterLinesEnd(text, n);
    if n == |LinesOf(text)| {
      AllLinesRead(text);
    } else {
      AfterLinesIs(text, n);
    }
  }

  // ----- printed requests -----

  /** Lines, each with its line feed. */
  function HeaderText(lines: seq<string>): string {
    if lines == [] then "" else lines[0] + "\n" + HeaderText(lines[1..])
  }

  ghost predicate HeaderLinesOK(lines: seq<string>) {
    forall i :: 0 <= i < |lines| ==> NoLf(lines[i]) && lines[i] != "" && lines[i] != "\r"
  }

  /** A header block, the blank line that ends it, and what comes after. */
  function BlockText(lines: seq<string>, blank: string, body: string): string {
    HeaderText(lines) + (blank + "\n" + body)
  }

  function RequestText(method_: string, n: nat, path: string, m: nat, protocol: string, block: string): string {
    method_ + (Spaces(n) + (path + (Spaces(m) + (protocol + "\n" + block))))
  }

  /** One line is cut off. */
  lemma LineIs(line: string, rest: string)
    requires NoLf(line)
    ensures Chunk(line + "\n" + rest, '\n') == line && AfterChunk(line + "\n" + rest, '\n') == rest
  {
    assert line + "\n" + rest == line + ("\n" + rest);
    ChunkIs(line, "\n" + rest, '\n');
    assert ("\n" + rest)[1..] == rest;
  }

  lemma {:induction false} BlockIs(lines: seq<string>, blank: string, body: string)
    requires HeaderLinesOK(lines) && (blank == "" || blank == "\r")
    ensures var text := BlockText(lines, blank, body);
            HeaderLoop(Chunk(text, '\n'), AfterChunk(text, '\n')) == ((lines + [blank])[1..], body)
  {
    var text := BlockText(lines, blank, body);
    if lines == [] {
      assert text == blank + "\n" + body;
      LineIs(blank, body);
      assert ([] + [blank])[1..] == [];
    } else {
      var rest := BlockText(lines[1..], blank, body);
      BlockSplit(lines, blank, body);
      LineIs(lines[0], rest);
      BlockIs(lines[1..], blank, body);
      BlockFirst(lines, blank, body);
      BlockLines(lines, blank);
    }
  }

  lemma BlockLines(lines: seq<string>, blank: string)
    requires lines != []
    ensures [BlockFirstLine(lines, blank)] + (lines[1..] + [blank])[1..] == (lines + [blank])[1..]
  {
  }

  lemma BlockSplit(lines: seq<string>, blank: string, body: string)
    requires lines != []
    ensures BlockText(lines, blank, body) == lines[0] + "\n" + BlockText(lines[1..], blank, body)
  {
    var t := blank + "\n" + body;
    assert lines[0] + "\n" + HeaderText(lines[1..]) + t == lines[0] + "\n" + (HeaderText(lines[1..]) + t);
  }

  function BlockFirstLine(lines: seq<string>, blank: string): string
    requires lines != []
  {
    if |lines| > 1 then lines[1] else blank
  }

  lemma BlockFirst(lines: seq<string>, blank: string, body: string)
    requires lines != [] && HeaderLinesOK(lines) && (blank == "" || blank == "\r")
    ensures Chunk(BlockText(lines[1..], blank, body), '\n') == BlockFirstLine(lines, blank)
  {
    if |lines| > 1 {
      BlockSplit(lines[1..], blank, body);
      LineIs(lines[1], BlockText(lines[1..][1..], blank, body));
    } else {
      assert BlockText([], blank, body) == blank + "\n" + body;
      LineIs(blank, body);
    }
  }

  /** A request line, any number of spaces between its parts, header lines, a blank line and a body: the
      reader recovers the three parts exactly, keeps the header lines but the first, and stops at the
      body. */
  lemma RequestRoundTrip(method_: string, n: nat, path: string, m: nat, protocol: string,
                         lines: seq<string>, blank: string, body: string)
    requires NoLf(method_) && NoLf(path) && NoLf(protocol)
    requires ' ' !in method_ && ' ' !in path && n >= 1 && m >= 1
    requires path != "" && (protocol != "" ==> protocol[0] != ' ')
    requires HeaderLinesOK(lines) && (blank == "" || blank == "\r")
    ensures ReadRequestFrom(RequestText(method_, n, path, m, protocol, BlockText(lines, blank, body)))
         == (Request(method_, path, protocol, (lines + [blank])[1..]), body)
  {
    var block := BlockText(lines, blank, body);
    var line := protocol + "\n" + block;
    assert line[0] != ' ';
    WordIs(method_, n, path + (Spaces(m) + line));
    WordIs(path, m, line);
    LineIs(protocol, block);
    BlockIs(lines, blank, body);
  }

  lemma {:induction false} SpacesJoin(n: nat, m: nat)
    ensures Spaces(n) + Spaces(m) == Spaces(n + m)
  {
    if n > 0 {
      SpacesJoin(n - 1, m);
      assert Spaces(n) + Spaces(m) == [' '] + (Spaces(n - 1) + Spaces(m));
    } else {
      assert Spaces(0) + Spaces(m) == Spaces(m);
    }
  }

  /** An empty path is not read back: the reader takes the beginning of the protocol for it. */
  lemma EmptyPathMisread(method_: string, n: nat, m: nat, protocol: string, block: string)
    requires NoLf(method_) && ' ' !in method_ && n >= 1 && m >= 1
    requires NoLf(protocol) && protocol != "" && protocol[0] != ' '
    ensures ReadRequestFrom(RequestText(method_, n, "", m, protocol, block)).0.path != ""
  {
    var line := protocol + "\n" + block;
    assert line[0] == protocol[0];
    SpacesJoin(n, m);
    assert Spaces(n) + ("" + (Spaces(m) + line)) == Spaces(n + m) + line;
    WordIs(method_, n + m, line);
    assert ChunkLength(line, ' ') > 0;
  }

  // ----- exactly when a request is recovered -----

  predicate AllSpaces(s: string) {
    forall i :: 0 <= i < |s| ==> s[i] == ' '
  }

  /** The protocol does not begin with a space; and the path is not empty, or else the protocol is, and the
      text up to the end of the next line is blank too: what comes there is skipped with the path. */
  predicate Recoverable(path: string, protocol: string, lines: seq<string>, blank: string, body: string) {
    && (protocol == "" || protocol[0] != ' ')
    && (path != ""
        || (protocol == "" && if lines == [] then blank == "" && body == "" else AllSpaces(lines[0])))
  }

  /** The three parts and the rest after the blank line are those printed. */
  ghost predicate Recovered(method_: string, n: nat, path: string, m: nat, protocol: string,
                            lines: seq<string>, blank: string, body: string) {
    var (read, left) :=
      ReadRequestFrom(RequestText(method_, n, path, m, protocol, BlockText(lines, blank, body)));
    read.requestType == method_ && read.path == path && read.protocol == protocol && left == body
  }

  lemma {:induction false} SkippedFirst(s: string)
    ensures SkipSpaces(s) != "" ==> SkipSpaces(s)[0] != ' '
    decreases |s|
  {
    if s != "" && s[0] == ' ' {
      SkippedFirst(s[1..]);
    }
  }

  /** A protocol is never read with a space at its beginning. */
  lemma ProtocolFirst(s: string)
    ensures ReadRequestFrom(s).0.protocol != "" ==> ReadRequestFrom(s).0.protocol[0] != ' '
  {
    var s1 := AfterChunk(s, ' ');
    var rest := s1[ChunkLength(s1, ' ')..];
    SkippedFirst(if rest == "" then "" else rest[1..]);
  }

  lemma {:induction false} SkipLine(line: string, rest: string)
    requires NoLf(line) && rest != "" && rest[0] == '\n'
    ensures var s := SkipSpaces(line + rest);
            if AllSpaces(line) then s == rest else s != "" && s[0] != ' ' && s[0] != '\n'
    decreases |line|
  {
    if line == "" {
      assert line + rest == rest;
    } else {
      assert (line + rest)[1..] == line[1..] + rest;
      if line[0] == ' ' {
        SkipLine(line[1..], rest);
        assert AllSpaces(line) <==> AllSpaces(line[1..]) by {
          assert forall i :: 1 <= i < |line| ==> line[i] == line[1..][i - 1];
        }
      }
    }
  }

  lemma {:induction false} LoopLeaves(line: string, rest: string)
    ensures |HeaderLoop(line, rest).1| <= |rest|
    decreases |rest|, if IsBlank(line) then 0 else 1
  {
    if !IsBlank(line) {
      LoopLeaves(Chunk(rest, '\n'), AfterChunk(rest, '\n'));
    }
  }

  /** What header lines from `s` on leave unread. */
  function LeftAfter(s: string): string {
    HeaderLoop(Chunk(s, '\n'), AfterChunk(s, '\n')).1
  }

  lemma EmptyPath(block: string)
    ensures Chunk("\n" + block, ' ') == "" && AfterChunk("\n" + block, ' ') == SkipSpaces(block)
  {
    assert ("\n" + block)[1..] == block;
  }

  lemma NothingBetween(method_: string, n: nat, m: nat, block: string)
    ensures RequestText(method_, n, "", m, "", block) == method_ + (Spaces(n + m) + ("\n" + block))
  {
    var line := "" + "\n" + block;
    assert line == "\n" + block;
    SpacesJoin(n, m);
    assert Spaces(n) + ("" + (Spaces(m) + line)) == Spaces(n + m) + line;
  }

  lemma ReadParts(text: string, s1: string, s2: string)
    requires AfterChunk(text, ' ') == s1 && AfterChunk(s1, ' ') == s2
    ensures var (read, left) := ReadRequestFrom(text);
            && read.requestType == Chunk(text, ' ') && read.path == Chunk(s1, ' ')
            && read.protocol == Chunk(s2, '\n') && left == LeftAfter(AfterChunk(s2, '\n'))
  {
  }

  /** With neither path nor protocol, what the reader takes for the protocol comes after the line feed. */
  lemma BothEmpty(method_: string, n: nat, m: nat, lines: seq<string>, blank: string, body: string)
    requires NoLf(method_) && ' ' !in method_ && n >= 1 && m >= 1
    ensures var s := SkipSpaces(BlockText(lines, blank, body));
            Recovered(method_, n, "", m, "", lines, blank, body)
            <==> Chunk(s, '\n') == "" && LeftAfter(AfterChunk(s, '\n')) == body
  {
    var block := BlockText(lines, blank, body);
    NothingBetween(method_, n, m, block);
    WordIs(method_, n + m, "\n" + block);
    EmptyPath(block);
    ReadParts(RequestText(method_, n, "", m, "", block), "\n" + block, SkipSpaces(block));
  }

  lemma BothEmptyNoLines(method_: string, n: nat, m: nat, blank: string, body: string)
    requires NoLf(method_) && ' ' !in method_ && n >= 1 && m >= 1 && (blank == "" || blank == "\r")
    ensures Recovered(method_, n, "", m, "", [], blank, body) <==> blank == "" && body == ""
  {
    BothEmpty(method_, n, m, [], blank, body);
    assert BlockText([], blank, body) == blank + "\n" + body;
    assert SkipSpaces(blank + "\n" + body) == blank + "\n" + body;
    LineIs(blank, body);
    LeftIsLess(body);
  }

  lemma LeftIsLess(s: string)
    ensures if s == "" then LeftAfter(s) == "" else |LeftAfter(s)| < |s|
  {
    LoopLeaves(Chunk(s, '\n'), AfterChunk(s, '\n'));
  }

  lemma BothEmptyLines(method_: string, n: nat, m: nat, lines: seq<string>, blank: string, body: string)
    requires NoLf(method_) && ' ' !in method_ && n >= 1 && m >= 1 && (blank == "" || blank == "\r")
    requires lines != [] && HeaderLinesOK(lines)
    ensures Recovered(method_, n, "", m, "", lines, blank, body) <==> AllSpaces(lines[0])
  {
    BothEmpty(method_, n, m, lines, blank, body);
    BlockSplit(lines, blank, body);
    FirstLineSkipped(lines[0], BlockText(lines[1..], blank, body));
    BlockIs(lines[1..], blank, body);
  }

  lemma FirstLineSkipped(line: string, rest: string)
    requires NoLf(line)
    ensures var s := SkipSpaces(line + "\n" + rest);
            && (Chunk(s, '\n') == "" <==> AllSpaces(line))
            && (AllSpaces(line) ==> AfterChunk(s, '\n') == rest)
  {
    assert line + "\n" + rest == line + ("\n" + rest);
    SkipLine(line, "\n" + rest);
    assert "" + "\n" + rest == "\n" + rest;
    LineIs("", rest);
  }

  /** The parts of a printed request are recovered if and only if they are recoverable. */
  lemma RequestRecoveredIff(method_: string, n: nat, path: string, m: nat, protocol: string,
                            lines: seq<string>, blank: string, body: string)
    requires NoLf(method_) && NoLf(path) && NoLf(protocol)
    requires ' ' !in method_ && ' ' !in path && n >= 1 && m >= 1
    requires HeaderLinesOK(lines) && (blank == "" || blank == "\r")
    ensures Recovered(method_, n, path, m, protocol, lines, blank, body)
       <==> Recoverable(path, protocol, lines, blank, body)
  {
    var block := BlockText(lines, blank, body);
    if protocol != "" && protocol[0] == ' ' {
      ProtocolFirst(RequestText(method_, n, path, m, protocol, block));
    } else if path != "" {
      RequestRoundTrip(method_, n, path, m, protocol, lines, blank, body);
    } else if protocol != "" {
      EmptyPathMisread(method_, n, m, protocol, block);
    } else if lines == [] {
      BothEmptyNoLines(method_, n, m, blank, body);
    } else {
      BothEmptyLines(method_, n, m, lines, blank, body);
    }
  }

  // ----- printed responses -----

  /** What the constructor and the three operations make of a response. */
  ghost predicate WellFormed(r: Response) {
    && r.protocol == "HTTP/1.1" && r.statusText == StatusText(r.status)
    && (forall name :: name in r.headers ==> name in HEADER_ORDER)
    && r.closeAfterSending
  }

  lemma OperationsKeepWellFormed(r: Response, code: nat, h: Header, text: string)
    requires WellFormed(r)
    ensures WellFormed(ChangeStatus(r, code)) && WellFormed(PushHeader(r, h, text))
    ensures WellFormed(r.(content := text)) && WellFormed(WithHtml(r, text))
  {
  }

  ghost predicate ValuesNoLf(headers: map<string, string>) {
    forall name :: name in headers ==> NoLf(headers[name])
  }

  /** The header lines of a response. */
  function HeaderList(headers: map<string, string>, names: seq<string>): seq<string> {
    if names == [] then []
    else
      (if names[0] in headers then [names[0] + ": " + headers[names[0]]] else [])
      + HeaderList(headers, names[1..])
  }

  lemma {:induction false} HeaderBlockIs(headers: map<string, string>, names: seq<string>)
    requires ValuesNoLf(headers)
    requires forall i :: 0 <= i < |names| ==> NoLf(names[i])
    ensures HeaderBlock(headers, names) == HeaderText(HeaderList(headers, names))
    ensures HeaderLinesOK(HeaderList(headers, names))
  {
    if names != [] {
      HeaderBlockIs(headers, names[1..]);
      if names[0] in headers {
        var line, rest := names[0] + ": " + headers[names[0]], HeaderList(headers, names[1..]);
        HeaderLineOK(names[0], headers[names[0]]);
        assert ([line] + rest)[1..] == rest;
        assert names[0] + ": " + headers[names[0]] + "\n" == line + "\n";
      } else {
        assert [] + HeaderList(headers, names[1..]) == HeaderList(headers, names[1..]);
      }
    }
  }

  lemma HeaderLineOK(name: string, value: string)
    requires NoLf(name) && NoLf(value)
    ensures NoLf(name + ": " + value) && name + ": " + value != "" && name + ": " + value != "\r"
  {
    assert |name + ": " + value| >= 2;
  }

  lemma StatusTextNoLf(code: nat)
    ensures NoLf(StatusText(code))
  {
  }

  lemma StatusTextOK(code: nat)
    ensures NoLf(StatusText(code)) && StatusText(code) != "" && StatusText(code)[0] != ' '
  {
    StatusTextNoLf(code);
  }

  lemma DigitsAreWord(s: string)
    requires AllDigits(s)
    ensures NoLf(s) && ' ' !in s
  {
  }

  /** A response with content is the text of a request, as far as the reader is concerned. */
  lemma GenerateIs(r: Response)
    requires r.content != "" && ValuesNoLf(r.headers)
    ensures Generate(r)
         == RequestText(r.protocol, 1, NatToString(r.status), 1, r.statusText,
                        BlockText(HeaderList(r.headers, HEADER_ORDER), "", r.content + "\0" + "\0"))
  {
    HeaderOrderOK();
    HeaderBlockIs(r.headers, HEADER_ORDER);
    assert Spaces(1) == " ";
    Regroup(r.protocol, NatToString(r.status), r.statusText, HeaderBlock(r.headers, HEADER_ORDER), r.content);
  }

  lemma HeaderOrderOK()
    ensures forall i :: 0 <= i < |HEADER_ORDER| ==> NoLf(HEADER_ORDER[i])
  {
  }

  lemma Regroup(a: string, b: string, c: string, block: string, content: string)
    ensures a + " " + b + " " + c + "\n" + block + ("\n" + content) + "\0" + "\0"
         == a + (" " + (b + (" " + (c + "\n" + (block + ("" + "\n" + (content + "\0" + "\0")))))))
  {
    var tail := "" + "\n" + (content + "\0" + "\0");
    assert ("\n" + content) + "\0" + "\0" == tail;
    var line := a + " " + b + " " + c + "\n";
    assert line + block + ("\n" + content) + "\0" + "\0" == line + (block + tail);
    assert line == a + (" " + (b + (" " + (c + "\n"))));
    var rest := block + tail;
    assert c + "\n" + rest == (c + "\n") + rest;
    assert line + rest == a + (" " + (b + (" " + ((c + "\n") + rest))));
  }

  /** Reading a generated response back yields its protocol, status code and status text, and stops with
      the content and exactly two NULs unread. */
  lemma ResponseReadBack(r: Response)
    requires WellFormed(r) && r.content != "" && ValuesNoLf(r.headers)
    ensures var (read, left) := ReadRequestFrom(Generate(r));
            && read.requestType == "HTTP/1.1"
            && read.path == NatToString(r.status) && Value(read.path) == r.status
            && read.protocol == StatusText(r.status)
            && read.other == (HeaderList(r.headers, HEADER_ORDER) + [""])[1..]
            && left == r.content + "\0" + "\0"
  {
    GenerateIs(r);
    StatusTextOK(r.status);
    DigitsAreWord(NatToString(r.status));
    ValueOfPrinted(r.status);
    HeaderOrderOK();
    HeaderBlockIs(r.headers, HEADER_ORDER);
    RequestRoundTrip("HTTP/1.1", 1, NatToString(r.status), 1, r.statusText,
                     HeaderList(r.headers, HEADER_ORDER), "", r.content + "\0" + "\0");
  }
}
