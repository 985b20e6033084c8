/** The request reader: a cursor over a buffer, pieces and lines cut out of it, and what a whole request
    comes to. */
module RequestReader {
  import opened HttpMessages

  // ----- the buffer -----

  class DataBuffer {
    const data: string
    const size: nat
    var position: nat

    /** The source gives the size apart from the storage, which may be larger. */
    constructor (data: string, size: nat)
      requires size <= |data|
      ensures this.data == data && this.size == size && position == 0
      ensures Valid() && Rest() == data[..size]
    {
      this.data, this.size, this.position := data, size, 0;
    }

    ghost predicate Valid()
      reads this
    {
      position <= size <= |data|
    }

    /** What is still unread. */
    ghost function Rest(): string
      reads this
      requires Valid()
    {
      data[position..size]
    }

    /** The next character, and whether there is one. */
    method PeekByte() returns (c: char, some: bool)
      requires Valid()
      ensures some <==> Rest() != ""
      ensures c == if Rest() != "" then Rest()[0] else '\0'
    {
      if position < size {
        return data[position], true;
      } else {
        return '\0', false;
      }
    }

    method ReadByte() returns (c: char, some: bool)
      requires Valid()
      modifies this
      ensures Valid()
      ensures some <==> old(Rest()) != ""
      ensures if old(Rest()) != "" then c == old(Rest())[0] && Rest() == old(Rest())[1..]
              else c == '\0' && Rest() == ""
    {
      c, some := PeekByte();
      if some {
        position := position + 1;
      }
    }
  }

  // ----- pieces -----

  /** Cut the next piece off, with its delimiter. */
  method ReadDataChunk(input: DataBuffer, delim: char) returns (buffer: string)
    requires input.Valid()
    modifies input
    ensures input.Valid()
    ensures buffer == Chunk(old(input.Rest()), delim)
    ensures input.Rest() == AfterChunk(old(input.Rest()), delim)
  {
    buffer := CopyPiece(input, delim);
    var _, _ := input.ReadByte();
    if delim == ' ' {
      SkipBlanks(input);
    }
  }

  lemma OneMore(all: string, k: nat)
    requires k < |all|
    ensures all[..k] + [all[k]] == all[..k + 1]
    ensures all[k..][0] == all[k] && all[k..][1..] == all[k + 1..]
  {
  }

  /** The first loop of `ReadDataChunk`: the piece before the delimiter. */
  method CopyPiece(input: DataBuffer, delim: char) returns (buffer: string)
    requires input.Valid()
    modifies input
    ensures input.Valid()
    ensures buffer == Chunk(old(input.Rest()), delim)
    ensures input.Rest() == old(input.Rest())[ChunkLength(old(input.Rest()), delim)..]
  {
    ghost var all := input.Rest();
    buffer := "";
    while true
      invariant input.Valid() && |buffer| <= |all|
      invariant buffer == all[..|buffer|] && input.Rest() == all[|buffer|..]
      invariant ChunkLength(all, delim) == |buffer| + ChunkLength(input.Rest(), delim)
      decreases |input.Rest()|
    {
      var next, some := input.PeekByte();
      if !some || next == delim || next == '\n' {
        break;
      }
      OneMore(all, |buffer|);
      var c, _ := input.ReadByte();
      buffer := buffer + [c];
    }
  }

  /** The second loop of `ReadDataChunk`: further spaces after a space. */
  method SkipBlanks(input: DataBuffer)
    requires input.Valid()
    modifies input
    ensures input.Valid() && input.Rest() == SkipSpaces(old(input.Rest()))
  {
    ghost var all := input.Rest();
    var c, some := input.PeekByte();
    while c == ' '
      invariant input.Valid() && SkipSpaces(input.Rest()) == SkipSpaces(all)
      invariant c == if input.Rest() != "" then input.Rest()[0] else '\0'
      decreases |input.Rest()|
    {
      var _, _ := input.ReadByte();
      c, some := input.PeekByte();
    }
  }

  lemma HeaderLoopNext(done: seq<string>, line: string, rest: string)
    requires !IsBlank(line)
    ensures var next, left := Chunk(rest, '\n'), AfterChunk(rest, '\n');
            && done + HeaderLoop(line, rest).0 == (done + [next]) + HeaderLoop(next, left).0
            && HeaderLoop(line, rest).1 == HeaderLoop(next, left).1
  {
    var next, left := Chunk(rest, '\n'), AfterChunk(rest, '\n');
    assert HeaderLoop(line, rest).0 == [next] + HeaderLoop(next, left).0;
    assert done + ([next] + HeaderLoop(next, left).0) == (done + [next]) + HeaderLoop(next, left).0;
  }

  /** The lines after the request line, up to a blank one.  Every buffer is read to an end. */
  method ReadHeaderLines(buff: DataBuffer) returns (other: seq<string>)
    requires buff.Valid()
    modifies buff
    ensures buff.Valid()
    ensures (other, buff.Rest())
         == HeaderLoop(Chunk(old(buff.Rest()), '\n'), AfterChunk(old(buff.Rest()), '\n'))
  {
    var line := ReadDataChunk(buff, '\n');
    ghost var all := HeaderLoop(line, buff.Rest());
    other := [];
    assert other + all.0 == all.0;
    while line != "" && line != "\r"
      invariant buff.Valid()
      invariant all.0 == other + HeaderLoop(line, buff.Rest()).0
      invariant all.1 == HeaderLoop(line, buff.Rest()).1
      decreases |buff.Rest()|, if IsBlank(line) then 0 else 1
    {
      HeaderLoopNext(other, line, buff.Rest());
      line := ReadDataChunk(buff, '\n');
      other := other + [line];
    }
    assert HeaderLoop(line, buff.Rest()) == ([], buff.Rest());
    assert other + [] == other;
  }

  method ReadRequest(buff: DataBuffer) returns (request: Request)
    requires buff.Valid()
    modifies buff
    ensures buff.Valid()
    ensures (request, buff.Rest()) == ReadRequestFrom(old(buff.Rest()))
  {
    var requestType := ReadDataChunk(buff, ' ');
    var path := ReadDataChunk(buff, ' ');
    var protocol := ReadDataChunk(buff, '\n');
    var other := ReadHeaderLines(buff);
    request := Request(requestType, path, protocol, other);
  }

  // ----- what pieces are -----

  /** A piece ends before the first delimiter or line feed, or at the end of the data; what ended it is
      dropped, and after a space all further spaces. */
  lemma {:induction false} ChunkExact(s: string, delim: char)
    ensures var k := |Chunk(s, delim)|;
            && k <= |s| && Chunk(s, delim) == s[..k]
            && (forall i :: 0 <= i < k ==> s[i] != delim && s[i] != '\n')
            && (k < |s| ==> s[k] == delim || s[k] == '\n')
            && var next := if k < |s| then s[k + 1..] else "";
               if delim != ' ' then AfterChunk(s, delim) == next
               else exists n: nat :: n <= |next| && AfterChunk(s, delim) == next[n..]
                      && (forall i :: 0 <= i < n ==> next[i] == ' ') && (n < |next| ==> next[n] != ' ')
  {
    ChunkLengthExact(s, delim);
    var k := ChunkLength(s, delim);
    var n := Blanks(if k < |s| then s[k + 1..] else "");
  }

  lemma {:induction false} ChunkLengthExact(s: string, delim: char)
    ensures var k := ChunkLength(s, delim);
            && (forall i :: 0 <= i < k ==> s[i] != delim && s[i] != '\n')
            && (k < |s| ==> s[k] == delim || s[k] == '\n')
  {
    if s != "" && s[0] != delim && s[0] != '\n' {
      ChunkLengthExact(s[1..], delim);
      forall i | 0 <= i < ChunkLength(s, delim) ensures s[i] != delim && s[i] != '\n' {
        assert i > 0 ==> s[i] == s[1..][i - 1];
      }
    }
  }

  /** How many spaces the text begins with. */
  lemma {:induction false} Blanks(s: string) returns (n: nat)
    ensures n <= |s| && SkipSpaces(s) == s[n..]
    ensures (forall i :: 0 <= i < n ==> s[i] == ' ') && (n < |s| ==> s[n] != ' ')
  {
    if s != "" && s[0] == ' ' {
      n := Blanks(s[1..]);
      n := n + 1;
      forall i | 0 <= i < n ensures s[i] == ' ' {
        assert i > 0 ==> s[i] == s[1..][i - 1];
      }
    } else {
      n := 0;
    }
  }

  /** A piece is the longest beginning without delimiter and line feed. */
  lemma {:induction false} ChunkIs(a: string, s: string, delim: char)
    requires forall i :: 0 <= i < |a| ==> a[i] != delim && a[i] != '\n'
    requires s != "" ==> s[0] == delim || s[0] == '\n'
    ensures Chunk(a + s, delim) == a
    ensures AfterChunk(a + s, delim)
         == var next := if s == "" then "" else s[1..]; if delim == ' ' then SkipSpaces(next) else next
  {
    ChunkLengthIs(a, s, delim);
    assert (a + s)[..|a|] == a && (a + s)[|a|..] == s;
  }

  lemma {:induction false} ChunkLengthIs(a: string, s: string, delim: char)
    requires forall i :: 0 <= i < |a| ==> a[i] != delim && a[i] != '\n'
    requires s != "" ==> s[0] == delim || s[0] == '\n'
    ensures ChunkLength(a + s, delim) == |a|
  {
    if a == "" {
      assert a + s == s;
    } else {
      assert (a + s)[1..] == a[1..] + s;
      ChunkLengthIs(a[1..], s, delim);
    }
  }

  function Spaces(n: nat): (s: string)
    ensures |s| == n
    ensures forall i :: 0 <= i < n ==> s[i] == ' '
  {
    if n == 0 then "" else [' '] + Spaces(n - 1)
  }

  lemma {:induction false} SkipSpacesIs(n: nat, s: string)
    requires s != "" ==> s[0] != ' '
    ensures SkipSpaces(Spaces(n) + s) == s
  {
    if n == 0 {
      assert Spaces(0) + s == s;
    } else {
      assert (Spaces(n) + s)[1..] == Spaces(n - 1) + s;
      SkipSpacesIs(n - 1, s);
    }
  }

  lemma SpacesFirst(n: nat, s: string)
    requires n >= 1
    ensures (Spaces(n) + s)[0] == ' ' && (Spaces(n) + s)[1..] == Spaces(n - 1) + s
  {
  }

  /** A word, spaces, and what follows them: the word is read and the cursor is past the spaces. */
  lemma WordIs(word: string, n: nat, s: string)
    requires forall i :: 0 <= i < |word| ==> word[i] != ' ' && word[i] != '\n'
    requires n >= 1 && (s != "" ==> s[0] != ' ')
    ensures Chunk(word + (Spaces(n) + s), ' ') == word
    ensures AfterChunk(word + (Spaces(n) + s), ' ') == s
  {
    SpacesFirst(n, s);
    ChunkIs(word, Spaces(n) + s, ' ');
    SkipSpacesIs(n - 1, s);
  }

  // ----- lines -----

  predicate NoLf(s: string) {
    forall i :: 0 <= i < |s| ==> s[i] != '\n'
  }

  /** The lines of the data; the end of the data counts as an empty line. */
  function LinesOf(s: string): (ls: seq<string>)
    ensures ls != [] && ls[|ls| - 1] == ""
    decreases |s|
  {
    if s == "" then [""] else [Chunk(s, '\n')] + LinesOf(AfterChunk(s, '\n'))
  }

  /** The lines with line feeds between them. */
  function JoinLines(ls: seq<string>): string
    requires ls != []
  {
    if |ls| == 1 then ls[0] else ls[0] + "\n" + JoinLines(ls[1..])
  }

  lemma {:induction false} LinesHaveNoLf(s: string, i: nat)
    requires i < |LinesOf(s)|
    ensures NoLf(LinesOf(s)[i])
    decreases |s|
  {
    if s != "" {
      ChunkOfLf(s);
      if i > 0 {
        LinesHaveNoLf(AfterChunk(s, '\n'), i - 1);
      }
    }
  }

  /** The text, completed by a line feed if its last line lacks one. */
  function Completed(s: string): string {
    if s == "" || s[|s| - 1] == '\n' then s else s + "\n"
  }

  lemma CompletedAfterLine(s: string, k: nat)
    requires k < |s| && s[k] == '\n'
    ensures s[..k] + "\n" + Completed(s[k + 1..]) == Completed(s)
  {
    var line, rest := s[..k] + "\n", s[k + 1..];
    assert s == line + rest;
    assert line + (rest + "\n") == s + "\n";
    if rest != "" {
      assert rest[|rest| - 1] == s[|s| - 1];
    } else {
      assert |s| == k + 1;
    }
  }

  lemma {:induction false} LinesJoin(s: string)
    ensures JoinLines(LinesOf(s)) == Completed(s)
    decreases |s|
  {
    if s != "" {
      NextLines(s);
      FirstCompletes(s);
      LinesJoin(AfterChunk(s, '\n'));
      JoinedFirst(LinesOf(s)[0], LinesOf(s)[1..], LinesOf(s));
    }
  }

  /** The lines hold no line feeds, and joined they are the completed data. */
  lemma LinesAre(s: string)
    ensures forall i :: 0 <= i < |LinesOf(s)| ==> NoLf(LinesOf(s)[i])
    ensures JoinLines(LinesOf(s)) == Completed(s)
  {
    forall i | 0 <= i < |LinesOf(s)| ensures NoLf(LinesOf(s)[i]) {
      LinesHaveNoLf(s, i);
    }
    LinesJoin(s);
  }

  /** The first blank one of the lines. */
  function FirstBlank(ls: seq<string>): (k: nat)
    ensures k <= |ls|
    ensures k < |ls| ==> ls[k] == "" || ls[k] == "\r"
    ensures forall i :: 0 <= i < k ==> ls[i] != "" && ls[i] != "\r"
  {
    if ls == [] || IsBlank(ls[0]) then 0 else 1 + FirstBlank(ls[1..])
  }

  /** What is left after the first `n` lines. */
  function AfterLines(s: string, n: nat): string
    decreases n
  {
    if n == 0 then s else AfterLines(AfterChunk(s, '\n'), n - 1)
  }

  lemma {:induction false} ChunkOfLf(s: string)
    ensures ChunkLength(s, '\n') <= |s|
    ensures ChunkLength(s, '\n') < |s| ==> s[ChunkLength(s, '\n')] == '\n'
    ensures NoLf(s[..ChunkLength(s, '\n')])
  {
    if s != "" && s[0] != '\n' {
      ChunkOfLf(s[1..]);
      var k := ChunkLength(s[1..], '\n');
      assert s[..k + 1] == [s[0]] + s[1..][..k];
    }
  }

  /** The loop over the header lines stores, of the lines `ls` from the one in hand on, those after the
      first up to the first blank one, inclusive. */
  lemma {:induction false} HeaderLoopIs(s: string)
    ensures var ls := LinesOf(s);
            var k := FirstBlank(ls);
            && k < |ls|
            && HeaderLoop(Chunk(s, '\n'), AfterChunk(s, '\n')) == (ls[1..k + 1], AfterLines(s, k + 1))
    decreases |s|
  {
    var ls, rest := LinesOf(s), AfterChunk(s, '\n');
    assert ls[0] == Chunk(s, '\n');
    if IsBlank(ls[0]) {
      assert ls[1..1] == [];
      AfterOne(s);
    } else {
      NextLines(s);
      HeaderLoopIs(rest);
      var next := LinesOf(rest);
      var k := FirstBlank(next);
      assert next[0] == Chunk(rest, '\n');
      OneLineMore(ls[0], next, k);
      assert ls == [ls[0]] + next;
      HeaderLoopNext([], ls[0], rest);
      assert AfterLines(s, k + 2) == AfterLines(rest, k + 1);
    }
  }

  ghost predicate IsEnd(left: string, s: string) {
    |left| <= |s| && left == s[|s| - |left|..]
  }

  lemma EndOfEnd(a: string, b: string, c: string)
    requires IsEnd(a, b) && IsEnd(b, c)
    ensures IsEnd(a, c)
  {
  }

  lemma RestIsEnd(s: string)
    ensures IsEnd(AfterChunk(s, '\n'), s)
  {
    ChunkOfLf(s);
  }

  /** What is left is the end of the data. */
  lemma {:induction false} AfterLinesEnd(s: string, n: nat)
    ensures IsEnd(AfterLines(s, n), s)
    decreases n
  {
    if n > 0 {
      RestIsEnd(s);
      AfterLinesEnd(AfterChunk(s, '\n'), n - 1);
      EndOfEnd(AfterLines(AfterChunk(s, '\n'), n - 1), AfterChunk(s, '\n'), s);
    }
  }

  lemma NextLines(s: string)
    requires s != ""
    ensures LinesOf(s)[0] == Chunk(s, '\n') && LinesOf(s)[1..] == LinesOf(AfterChunk(s, '\n'))
  {
  }

  lemma {:induction false} AllLinesRead(s: string)
    ensures AfterLines(s, |LinesOf(s)|) == ""
    decreases |s|
  {
    var rest := AfterChunk(s, '\n');
    if s == "" {
      assert AfterLines(s, 1) == AfterLines(rest, 0) == "";
    } else {
      NextLines(s);
      AllLinesRead(rest);
      assert AfterLines(s, |LinesOf(s)|) == AfterLines(rest, |LinesOf(rest)|);
    }
  }

  /** The lines before the cursor and the data behind it make up the data, completed. */
  lemma {:induction false} AfterLinesIs(s: string, n: nat)
    requires 0 < n < |LinesOf(s)|
    ensures JoinLines(LinesOf(s)[..n]) + "\n" + Completed(AfterLines(s, n)) == Completed(s)
    decreases n
  {
    var rest := AfterChunk(s, '\n');
    NextLines(s);
    FirstCompletes(s);
    if n > 1 {
      AfterLinesIs(rest, n - 1);
      JoinedMore(LinesOf(s), n, Completed(AfterLines(rest, n - 1)));
    } else {
      JoinedOne(LinesOf(s));
      AfterOne(s);
    }
  }

  lemma AfterOne(s: string)
    ensures AfterLines(s, 1) == AfterChunk(s, '\n')
  {
    assert AfterLines(AfterChunk(s, '\n'), 0) == AfterChunk(s, '\n');
  }

  lemma JoinedOne(ls: seq<string>)
    requires ls != []
    ensures JoinLines(ls[..1]) == ls[0]
  {
  }

  lemma JoinedMore(ls: seq<string>, n: nat, left: string)
    requires 1 < n < |ls|
    ensures JoinLines(ls[..n]) + "\n" + left == ls[0] + "\n" + (JoinLines(ls[1..][..n - 1]) + "\n" + left)
  {
    var more := ls[1..][..n - 1];
    assert ls[..n][1..] == more;
    JoinedFirst(ls[0], more, ls[..n]);
    Longer(ls[0], JoinLines(more), left);
  }

  lemma JoinedFirst(line: string, more: seq<string>, all: seq<string>)
    requires more != [] && all != [] && all[0] == line && all[1..] == more
    ensures JoinLines(all) == line + "\n" + JoinLines(more)
  {
  }

  lemma Longer(line: string, more: string, left: string)
    ensures line + "\n" + more + "\n" + left == line + "\n" + (more + "\n" + left)
  {
  }

  lemma FirstCompletes(s: string)
    requires s != ""
    ensures Chunk(s, '\n') + "\n" + Completed(AfterChunk(s, '\n')) == Completed(s)
  {
    var k := ChunkLength(s, '\n');
    ChunkOfLf(s);
    if k < |s| {
      CompletedAfterLine(s, k);
    } else {
      assert s[..k] == s && NoLf(s);
    }
  }

  lemma OneLineMore(line: string, next: seq<string>, k: nat)
    requires k < |next|
    ensures [next[0]] + next[1..k + 1] == ([line] + next)[1..k + 2]
    ensures ([line] + next)[1..] == next
  {
  }
}
