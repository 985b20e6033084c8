/** Requests and responses as values: what the reader produces, and what the writer sends. */
module HttpMessages {
  import opened Common
  import opened Decimal
  import opened DateTime
  import opened Html

  // ----- reading -----

  datatype Request = Request(requestType: string, path: string, protocol: string, other: seq<string>)

  /** The length of the piece before the next delimiter, line feed or end of data. */
  function ChunkLength(s: string, delim: char): (k: nat)
    ensures k <= |s|
  {
    if s == "" || s[0] == delim || s[0] == '\n' then 0 else 1 + ChunkLength(s[1..], delim)
  }

  function SkipSpaces(s: string): (r: string)
    ensures |r| <= |s|
  {
    if s != "" && s[0] == ' ' then SkipSpaces(s[1..]) else s
  }

  function Chunk(s: string, delim: char): string {
    s[..ChunkLength(s, delim)]
  }

  /** What is left after a piece and its delimiter; after a space, all further spaces go too. */
  function AfterChunk(s: string, delim: char): (r: string)
    ensures s != "" ==> |r| < |s|
    ensures s == "" ==> r == ""
  {
    var rest := s[ChunkLength(s, delim)..];
    var next := if rest == "" then "" else rest[1..];
    if delim == ' ' then SkipSpaces(next) else next
  }

  predicate IsBlank(line: string) {
    line == "" || line == "\r"
  }

  /** The lines stored in `other` when the line in hand is `line` and `rest` is still unread, with what
      is unread in the end. */
  function HeaderLoop(line: string, rest: string): (r: (seq<string>, string))
    decreases |rest|, if IsBlank(line) then 0 else 1
  {
    if IsBlank(line) then ([], rest)
    else
      var next := Chunk(rest, '\n');
      var (others, left) := HeaderLoop(next, AfterChunk(rest, '\n'));
      ([next] + others, left)
  }

  /** A request read from `s`, with what is unread after it. */
  function ReadRequestFrom(s: string): (Request, string) {
    var s1 := AfterChunk(s, ' ');
    var s2 := AfterChunk(s1, ' ');
    var s3 := AfterChunk(s2, '\n');
    var (others, left) := HeaderLoop(Chunk(s3, '\n'), AfterChunk(s3, '\n'));
    (Request(Chunk(s, ' '), Chunk(s1, ' '), Chunk(s2, '\n'), others), left)
  }

  function ParseRequest(s: string): Request {
    ReadRequestFrom(s).0
  }

  // ----- writing -----

  datatype Header = Date | ContentType | ContentLength

  function HeaderName(h: Header): string {
    match h
    case Date => "Date"
    case ContentType => "Content-Type"
    case ContentLength => "Content-Length"
  }

  /** The header names in the order in which the source's ordered map yields them. */
  const HEADER_ORDER: seq<string> := ["Content-Length", "Content-Type", "Date"]

  datatype Response = Response(
    protocol: string,
    status: nat,
    statusText: string,
    headers: map<string, string>,
    content: string,
    closeAfterSending: bool)

  const CONTINUE := 100
  const OK := 200
  const NOT_MODIFIED := 304
  const BAD_REQUEST := 400
  const NOT_FOUND := 404
  const PRECONDITION_FAILED := 412
  const SERVER_ERROR := 500
  const NOT_IMPLEMENTED := 501

  function StatusText(code: nat): string {
    if code == CONTINUE then "Continue"
    else if code == OK then "OK"
    else if code == NOT_MODIFIED then "Not Modified"
    else if code == BAD_REQUEST then "Bad Request"
    else if code == NOT_FOUND then "Not Found"
    else if code == PRECONDITION_FAILED then "Precondition Failed"
    else if code == SERVER_ERROR then "Server Error"
    else if code == NOT_IMPLEMENTED then "Not Implemented"
    else "Error"
  }

  function PushHeader(r: Response, h: Header, text: string): Response {
    r.(headers := r.headers[HeaderName(h) := text])
  }

  /** Content, with its type and its length in the headers. */
  function WithHtml(r: Response, content: string): Response {
    PushHeader(PushHeader(r, ContentType, "text/html"), ContentLength, NatToString(|content|))
      .(content := content)
  }

  function ChangeStatus(r: Response, code: nat): Response {
    WithHtml(r.(status := code, statusText := StatusText(code)),
             Page(NatToString(code) + " : " + StatusText(code)))
  }

  /** The fields before the constructor's body, and after it. */
  const BLANK_RESPONSE := Response("HTTP/1.1", OK, "OK", map[], "", true)
  const NEW_RESPONSE := ChangeStatus(BLANK_RESPONSE, OK)

  function HeaderBlock(headers: map<string, string>, names: seq<string>): string {
    if names == [] then ""
    else
      var line := if names[0] in headers then names[0] + ": " + headers[names[0]] + "\n" else "";
      line + HeaderBlock(headers, names[1..])
  }

  /** The bytes of a response: one NUL ends the text and one more ends the buffer. */
  function Generate(r: Response): string {
    r.protocol + " " + NatToString(r.status) + " " + r.statusText + "\n"
    + HeaderBlock(r.headers, HEADER_ORDER)
    + (if r.content != "" then "\n" + r.content else "")
    + "\0" + "\0"
  }

  // ----- processing -----

  /** What the file system answers about the requested path, and the time of day. */
  datatype Env = Env(exists_: bool, isFolder: bool, isFile: bool, files: seq<string>, now: Tm)
  {
    /** `gmtime` yields a day of the week and a month in range. */
    predicate Valid() {
      TimeTToString(now).Some?
    }
  }

  /** Nothing at the path, at the time zero. */
  const SOME_ENV := Env(false, false, false, [], ZERO_TM)

  function ListItems(files: seq<string>): string {
    if files == [] then ""
    else ListItems(files[..|files| - 1]) + "<li>" + files[|files| - 1] + "</li>"
  }

  function FolderPage(path: string, files: seq<string>): string {
    Page("<p><h1>" + "Folder : " + path + "</h1></p><ul>" + ListItems(files) + "</ul>")
  }

  /** The response to a request; `None` where the source stops in `assert(false)`, for a plain file. */
  function ProcessRequest(req: Request, env: Env): Option<Response>
    requires env.Valid()
  {
    var resp :=
      if req.requestType != "GET" then Some(ChangeStatus(NEW_RESPONSE, NOT_IMPLEMENTED))
      else if !env.exists_ then Some(ChangeStatus(NEW_RESPONSE, NOT_FOUND))
      else
        var ok := ChangeStatus(NEW_RESPONSE, OK);
        if env.isFolder then Some(WithHtml(ok, FolderPage(req.path, env.files)))
        else if env.isFile then None
        else Some(ChangeStatus(ok, SERVER_ERROR));
    match resp
    case None => None
    case Some(r) => Some(PushHeader(r, Date, TimeTToString(env.now).value))
  }
}
