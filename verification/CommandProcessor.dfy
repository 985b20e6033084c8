/** The HTML builder, the response and the command processor, changed in place, and what the processor's
    responses are like. */
module CommandProcessor {
  import opened Common
  import opened Decimal
  import opened DateTime
  import opened Html
  import opened HttpMessages
  import opened RequestReader
  import opened MessageRoundTrip

  class HtmlWrapper {
    var inner: string
    var paragraphLevel: nat
    var listLevel: nat

    constructor ()
      ensures inner == "" && paragraphLevel == 0 && listLevel == 0
    {
      inner, paragraphLevel, listLevel := "", 0, 0;
    }

    method BeginParagraph()
      modifies this
      ensures inner == old(inner) + "<p>" && paragraphLevel == (old(paragraphLevel) + 1) % 0x1_0000_0000
      ensures listLevel == old(listLevel)
    {
      paragraphLevel := (paragraphLevel + 1) % UNSIGNED_RANGE;
      inner := inner + "<p>";
    }

    method EndParagraph()
      modifies this
      ensures inner == old(inner) + "</p>" && paragraphLevel == (old(paragraphLevel) + 0xffff_ffff) % 0x1_0000_0000
      ensures listLevel == old(listLevel)
    {
      paragraphLevel := (paragraphLevel + UNSIGNED_RANGE - 1) % UNSIGNED_RANGE;
      inner := inner + "</p>";
    }

    method BeginList()
      modifies this
      ensures inner == old(inner) + "<ul>" && listLevel == (old(listLevel) + 1) % 0x1_0000_0000
      ensures paragraphLevel == old(paragraphLevel)
    {
      listLevel := (listLevel + 1) % UNSIGNED_RANGE;
      inner := inner + "<ul>";
    }

    method EndList()
      requires listLevel > 0
      modifies this
      ensures inner == old(inner) + "</ul>" && listLevel == (old(listLevel) + 0xffff_ffff) % 0x1_0000_0000
      ensures paragraphLevel == old(paragraphLevel)
    {
      listLevel := (listLevel + UNSIGNED_RANGE - 1) % UNSIGNED_RANGE;
      inner := inner + "</ul>";
    }

    method PushListItem(text: string)
      requires listLevel > 0
      modifies this`inner
      ensures inner == old(inner) + ("<li>" + text + "</li>")
    {
      inner := inner + ("<li>" + text + "</li>");
    }

    method PushHeader(text: string, level: nat)
      requires 1 <= level <= 6
      modifies this`inner
      ensures inner == old(inner) + ("<h" + NatToString(level) + ">" + text + "</h" + NatToString(level) + ">")
    {
      inner := inner + ("<h" + NatToString(level) + ">" + text + "</h" + NatToString(level) + ">");
    }

    method PushText(text: string)
      modifies this`inner
      ensures inner == old(inner) + text
    {
      inner := inner + text;
    }

    method GenerateHtml() returns (html: string)
      requires paragraphLevel == 0 && listLevel == 0
      ensures html == Page(inner)
    {
      html := "<html><body>" + inner + "</body></html>";
    }
  }

  class HttpResponse {
    var protocol: string
    var status: nat
    var statusText: string
    var headers: map<string, string>
    var content: string
    var closeAfterSending: bool

    ghost function Contents(): Response
      reads this
    {
      Response(protocol, status, statusText, headers, content, closeAfterSending)
    }

    constructor ()
      ensures Contents() == NEW_RESPONSE
    {
      protocol, status, statusText, headers, content := "HTTP/1.1", OK, "OK", map[], "";
      closeAfterSending := true;
      new;
      SetStatus(OK);
    }

    method SetStatus(code: nat)
      modifies this
      ensures Contents() == ChangeStatus(old(Contents()), code)
    {
      status := code;
      statusText := StatusText(code);
      var html := new HtmlWrapper();
      html.PushText(NatToString(status) + " : " + statusText);
      var text := html.GenerateHtml();
      assert "" + (NatToString(status) + " : " + statusText) == NatToString(status) + " : " + statusText;
      AddHeader(ContentType, "text/html");
      AddHeader(ContentLength, NatToString(|text|));
      SetContent(text);
    }

    method AddHeader(h: Header, text: string)
      modifies this`headers
      ensures Contents() == PushHeader(old(Contents()), h, text)
    {
      headers := headers[HeaderName(h) := text];
    }

    method SetContent(text: string)
      modifies this`content
      ensures Contents() == old(Contents()).(content := text)
    {
      content := text;
    }

    /** The bytes to send, built up piece by piece. */
    method GenerateBytes() returns (data: string)
      ensures data == Generate(Contents())
    {
      data := protocol + " " + NatToString(status) + " " + statusText + "\n";
      var line := data;
      for i := 0 to |HEADER_ORDER|
        invariant data + HeaderBlock(headers, HEADER_ORDER[i..]) == line + HeaderBlock(headers, HEADER_ORDER)
      {
        var name := HEADER_ORDER[i];
        assert HEADER_ORDER[i..][1..] == HEADER_ORDER[i + 1..];
        if name in headers {
          data := data + (name + ": " + headers[name] + "\n");
        }
      }
      assert HEADER_ORDER[|HEADER_ORDER|..] == [];
      assert data == line + HeaderBlock(headers, HEADER_ORDER);
      if content != "" {
        data := data + ("\n" + content);
      }
      data := data + "\0";
      data := data + "\0";
    }
  }

  class HttpCommandProcessor {
    constructor () {}

    /** `None` where the source does not return. */
    method Process(req: Request, env: Env) returns (resp: HttpResponse, returned: bool)
      requires env.Valid()
      ensures fresh(resp)
      ensures returned <==> ProcessRequest(req, env).Some?
      ensures returned ==> resp.Contents() == ProcessRequest(req, env).value
    {
      resp := new HttpResponse();
      if req.requestType != "GET" {
        resp.SetStatus(NOT_IMPLEMENTED);
      } else if env.exists_ {
        resp.SetStatus(OK);
        if env.isFolder {
          FolderContent(req, resp, env.files);
        } else if env.isFile {
          return resp, false;
        } else {
          resp.SetStatus(SERVER_ERROR);
        }
      } else {
        resp.SetStatus(NOT_FOUND);
      }
      resp.AddHeader(Date, TimeTToString(env.now).value);
      returned := true;
    }

    method FolderContent(req: Request, resp: HttpResponse, files: seq<string>)
      modifies resp
      ensures resp.Contents() == WithHtml(old(resp.Contents()), FolderPage(req.path, files))
    {
      var html := new HtmlWrapper();
      html.BeginParagraph();
      html.PushHeader("Folder : " + req.path, 1);
      html.EndParagraph();
      html.BeginList();
      ghost var start := html.inner;
      for i := 0 to |files|
        invariant fresh(html) && html.inner == start + ListItems(files[..i])
        invariant html.paragraphLevel == 0 && html.listLevel == 1
        invariant resp.Contents() == old(resp.Contents())
      {
        assert files[..i + 1][..i] == files[..i];
        html.PushListItem(files[i]);
      }
      assert files[..|files|] == files;
      html.EndList();
      assert html.inner == start + ListItems(files) + "</ul>";
      FolderInner(req.path, start, files);
      var content := html.GenerateHtml();
      resp.AddHeader(ContentType, "text/html");
      resp.AddHeader(ContentLength, NatToString(|content|));
      resp.SetContent(content);
    }
  }

  lemma FolderInner(path: string, start: string, files: seq<string>)
    requires start == "" + "<p>" + ("<h" + NatToString(1) + ">" + ("Folder : " + path) + "</h" + NatToString(1) + ">")
                      + "</p>" + "<ul>"
    ensures Page(start + ListItems(files) + "</ul>") == FolderPage(path, files)
  {
    assert NatToString(1) == "1";
    assert start == "<p><h1>" + "Folder : " + path + "</h1></p><ul>";
  }

  // ----- what the responses are like -----

  /** The content is not empty and its length is announced. */
  ghost predicate LengthAgrees(r: Response) {
    && r.content != ""
    && "Content-Length" in r.headers
    && r.headers["Content-Length"] == NatToString(|r.content|)
  }

  lemma HtmlAgrees(r: Response, inner: string)
    ensures LengthAgrees(WithHtml(r, Page(inner)))
  {
    assert |Page(inner)| > 0;
  }

  lemma DateKeepsAgreement(r: Response, text: string)
    requires LengthAgrees(r)
    ensures LengthAgrees(PushHeader(r, Date, text))
  {
  }

  lemma NameNoLf()
    ensures forall i :: 0 <= i < |SHORT_DAYS| ==> NoLf(SHORT_DAYS[i])
    ensures forall i :: 0 <= i < |MONTHS| ==> NoLf(MONTHS[i])
  {
  }

  lemma IntNoLf(n: int)
    ensures NoLf(IntToString(n))
  {
  }

  /** A printed date holds no line feed. */
  lemma DateNoLf(t: Tm)
    requires TimeTToString(t).Some?
    ensures NoLf(TimeTToString(t).value)
  {
    NameNoLf();
    IntNoLf(t.mday);
    IntNoLf(t.hour);
    IntNoLf(t.min);
    IntNoLf(t.sec);
    var day := SHORT_DAYS[t.wday] + ", " + IntToString(t.mday) + " " + MONTHS[t.mon] + " ";
    var hour := day + NatToString(PrintedYear(t)) + " " + IntToString(t.hour) + ":";
    assert NoLf(day);
    assert NoLf(hour);
    assert TimeTToString(t).value == hour + IntToString(t.min) + ":" + IntToString(t.sec) + " GMT";
  }

  ghost predicate GoodResponse(r: Response) {
    WellFormed(r) && ValuesNoLf(r.headers) && LengthAgrees(r)
  }

  lemma HtmlIsGood(r: Response, inner: string)
    requires WellFormed(r) && ValuesNoLf(r.headers)
    ensures GoodResponse(WithHtml(r, Page(inner)))
  {
    HtmlAgrees(r, inner);
    DigitsAreWord(NatToString(|Page(inner)|));
  }

  lemma StatusIsGood(r: Response, code: nat)
    requires WellFormed(r) && ValuesNoLf(r.headers)
    ensures GoodResponse(ChangeStatus(r, code)) && ChangeStatus(r, code).status == code
  {
    HtmlIsGood(r.(status := code, statusText := StatusText(code)),
               NatToString(code) + " : " + StatusText(code));
  }

  lemma DateIsGood(r: Response, t: Tm)
    requires GoodResponse(r) && TimeTToString(t).Some?
    ensures GoodResponse(PushHeader(r, Date, TimeTToString(t).value))
  {
    DateNoLf(t);
    DateKeepsAgreement(r, TimeTToString(t).value);
  }

  lemma NewIsGood()
    ensures GoodResponse(NEW_RESPONSE)
  {
    StatusIsGood(BLANK_RESPONSE, OK);
  }

  /** The status the processor decides on; `None` where it does not return. */
  function StatusFor(req: Request, env: Env): Option<nat> {
    if req.requestType != "GET" then Some(NOT_IMPLEMENTED)
    else if !env.exists_ then Some(NOT_FOUND)
    else if env.isFolder then Some(OK)
    else if env.isFile then None
    else Some(SERVER_ERROR)
  }

  /** For every request and every answer of the file system, `ProcessRequest` returns unless the path is
      that of a plain file; the response then has the status that goes with the answers, its content is
      not empty, and `Content-Length` is the decimal form of the length of the content. */
  lemma ProcessedIsGood(req: Request, env: Env)
    requires env.Valid()
    ensures var r := ProcessRequest(req, env);
            && (r.Some? <==> StatusFor(req, env).Some?)
            && (r.Some? ==> GoodResponse(r.value) && r.value.status == StatusFor(req, env).value)
  {
    NewIsGood();
    StatusIsGood(NEW_RESPONSE, NOT_IMPLEMENTED);
    StatusIsGood(NEW_RESPONSE, NOT_FOUND);
    StatusIsGood(NEW_RESPONSE, OK);
    var ok := ChangeStatus(NEW_RESPONSE, OK);
    StatusIsGood(ok, SERVER_ERROR);
    HtmlIsGood(ok, "<p><h1>" + "Folder : " + req.path + "</h1></p><ul>" + ListItems(env.files) + "</ul>");
    var base :=
      if req.requestType != "GET" then ChangeStatus(NEW_RESPONSE, NOT_IMPLEMENTED)
      else if !env.exists_ then ChangeStatus(NEW_RESPONSE, NOT_FOUND)
      else if env.isFolder then WithHtml(ok, FolderPage(req.path, env.files))
      else ChangeStatus(ok, SERVER_ERROR);
    DateIsGood(base, env.now);
  }

  /** A response of the processor, read back from its bytes: protocol, status and status text are those
      sent, and behind the blank line lie as many characters as `Content-Length` says, and two NULs. */
  lemma ProcessedReadBack(req: Request, env: Env)
    requires env.Valid() && ProcessRequest(req, env).Some?
    ensures var r := ProcessRequest(req, env).value;
            var (read, left) := ReadRequestFrom(Generate(r));
            && read.requestType == "HTTP/1.1" && read.path == NatToString(r.status)
            && read.protocol == StatusText(r.status)
            && left == r.content + "\0" + "\0"
            && LengthAgrees(r)
            && Value(NatToString(|r.content|)) == |left| - 2
  {
    ProcessedIsGood(req, env);
    var r := ProcessRequest(req, env).value;
    ResponseReadBack(r);
    ValueOfPrinted(|r.content|);
  }
}
