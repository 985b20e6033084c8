/** What is sent in answer to a request, to the letter. */
module ResponseExact {
  import opened Common
  import opened Decimal
  import opened DateTime
  import opened DateRoundTrip
  import opened Html
  import opened HttpMessages
  import opened RequestReader
  import opened CommandProcessor

  // ----- the parts of a response -----

  lemma StatusTexts(code: nat)
    ensures StatusText(100) == "Continue" && StatusText(200) == "OK" && StatusText(304) == "Not Modified"
    ensures StatusText(400) == "Bad Request" && StatusText(404) == "Not Found"
    ensures StatusText(412) == "Precondition Failed" && StatusText(500) == "Server Error"
    ensures StatusText(501) == "Not Implemented"
    ensures code !in [100, 200, 304, 400, 404, 412, 500, 501] ==> StatusText(code) == "Error"
  {
  }

  lemma StatusNumbers()
    ensures NatToString(200) == "200" && NatToString(404) == "404" && NatToString(500) == "500"
    ensures NatToString(501) == "501"
  {
    assert NatToString(20) == "20" && NatToString(40) == "40" && NatToString(50) == "50";
  }

  function NameOf(h: Header): string {
    match h
    case Date => "Date"
    case ContentType => "Content-Type"
    case ContentLength => "Content-Length"
  }

  /** Setting a header sets that one and nothing else. */
  lemma PushExactly(r: Response, h: Header, text: string)
    ensures PushHeader(r, h, text) == r.(headers := r.headers[NameOf(h) := text])
  {
  }

  function HeaderLine(headers: map<string, string>, name: string): string {
    if name in headers then name + ": " + headers[name] + "\n" else ""
  }

  /** The bytes of any response. */
  lemma GenerateExactly(r: Response)
    ensures Generate(r)
         == r.protocol + " " + NatToString(r.status) + " " + r.statusText + "\n"
            + (HeaderLine(r.headers, "Content-Length") + (HeaderLine(r.headers, "Content-Type")
               + HeaderLine(r.headers, "Date")))
            + (if r.content != "" then "\n" + r.content else "")
            + "\0" + "\0"
  {
    assert HEADER_ORDER[1..] == ["Content-Type", "Date"] && HEADER_ORDER[1..][1..] == ["Date"];
    var headers := r.headers;
    assert HeaderBlock(headers, ["Date"]) == HeaderLine(headers, "Date") + HeaderBlock(headers, []);
    assert HeaderBlock(headers, ["Date"]) == HeaderLine(headers, "Date");
    assert HeaderBlock(headers, HEADER_ORDER[1..])
        == HeaderLine(headers, "Content-Type") + HeaderBlock(headers, ["Date"]);
  }

  // ----- pages -----

  function Concat(ss: seq<string>): string {
    if ss == [] then "" else ss[0] + Concat(ss[1..])
  }

  lemma {:induction false} ConcatLast(ss: seq<string>, last: string)
    ensures Concat(ss + [last]) == Concat(ss) + last
  {
    if ss == [] {
      assert [last][1..] == [] && "" + last == last + "";
    } else {
      assert (ss + [last])[1..] == ss[1..] + [last];
      ConcatLast(ss[1..], last);
      assert ss[0] + (Concat(ss[1..]) + last) == ss[0] + Concat(ss[1..]) + last;
    }
  }

  /** The items of a list of files, in order. */
  function Items(files: seq<string>): seq<string> {
    seq(|files|, i requires 0 <= i < |files| => "<li>" + files[i] + "</li>")
  }

  lemma {:induction false} ListIs(files: seq<string>)
    ensures ListItems(files) == Concat(Items(files))
  {
    if files != [] {
      var before, last := files[..|files| - 1], files[|files| - 1];
      ListIs(before);
      assert Items(files) == Items(before) + ["<li>" + last + "</li>"];
      ConcatLast(Items(before), "<li>" + last + "</li>");
      assert ListItems(before) + "<li>" + last + "</li>" == ListItems(before) + ("<li>" + last + "</li>");
    }
  }

  /** The page of a folder: a heading with the path, and the files in order. */
  lemma FolderPageIs(path: string, files: seq<string>)
    ensures FolderPage(path, files)
         == "<html><body><p><h1>Folder : " + path + "</h1></p><ul>" + Concat(Items(files)) + "</ul></body></html>"
  {
    ListIs(files);
    var items := Concat(Items(files));
    var inner := "<p><h1>" + "Folder : " + path + "</h1></p><ul>" + items + "</ul>";
    assert "<html><body>" + inner == "<html><body><p><h1>Folder : " + path + "</h1></p><ul>" + items + "</ul>";
    assert "</ul>" + "</body></html>" == "</ul></body></html>";
  }

  lemma NotFoundPage()
    ensures Page(NatToString(404) + " : " + StatusText(404)) == "<html><body>404 : Not Found</body></html>"
  {
    StatusNumbers();
    assert "404" + " : " + "Not Found" == "404 : Not Found";
  }

  lemma ServerErrorPage()
    ensures Page(NatToString(500) + " : " + StatusText(500)) == "<html><body>500 : Server Error</body></html>"
  {
    StatusNumbers();
    assert "500" + " : " + "Server Error" == "500 : Server Error";
  }

  lemma NotImplementedPage()
    ensures Page(NatToString(501) + " : " + StatusText(501)) == "<html><body>501 : Not Implemented</body></html>"
  {
    StatusNumbers();
    assert "501" + " : " + "Not Implemented" == "501 : Not Implemented";
  }

  // ----- the response to a request -----

  /** The response has this status, text and page, and the three headers that go with them. */
  ghost predicate IsResponse(r: Response, code: nat, text: string, page: string, date: string) {
    && r.protocol == "HTTP/1.1" && r.status == code && r.statusText == text && r.content == page
    && r.headers == map["Content-Length" := NatToString(|page|), "Content-Type" := "text/html", "Date" := date]
    && r.closeAfterSending
  }

  lemma ThreeHeaders(headers: map<string, string>, length: string, date: string)
    requires forall name :: name in headers ==> name == "Content-Length" || name == "Content-Type"
    ensures headers["Content-Type" := "text/html"]["Content-Length" := length]["Date" := date]
         == map["Content-Length" := length, "Content-Type" := "text/html", "Date" := date]
  {
  }

  /** A response with a page on it, and the date. */
  lemma PagedIs(r: Response, page: string, date: string)
    requires forall name :: name in r.headers ==> name == "Content-Length" || name == "Content-Type"
    ensures PushHeader(WithHtml(r, page), Date, date)
         == r.(content := page,
               headers := map["Content-Length" := NatToString(|page|), "Content-Type" := "text/html", "Date" := date])
  {
    var length := NatToString(|page|);
    PushExactly(r, ContentType, "text/html");
    var r1 := PushHeader(r, ContentType, "text/html");
    PushExactly(r1, ContentLength, length);
    PushExactly(WithHtml(r, page), Date, date);
    ThreeHeaders(r.headers, length, date);
  }

  lemma NewHeaders()
    ensures forall name :: name in NEW_RESPONSE.headers ==> name == "Content-Length" || name == "Content-Type"
    ensures NEW_RESPONSE.protocol == "HTTP/1.1" && NEW_RESPONSE.closeAfterSending
  {
  }

  lemma ChangedIs(r: Response, code: nat, date: string)
    requires forall name :: name in r.headers ==> name == "Content-Length" || name == "Content-Type"
    requires r.protocol == "HTTP/1.1" && r.closeAfterSending
    ensures var c := ChangeStatus(r, code);
            && (forall name :: name in c.headers ==> name == "Content-Length" || name == "Content-Type")
            && c.protocol == "HTTP/1.1" && c.closeAfterSending && c.status == code
            && c.statusText == StatusText(code)
            && IsResponse(PushHeader(c, Date, date), code, StatusText(code),
                          Page(NatToString(code) + " : " + StatusText(code)), date)
  {
    PagedIs(r.(status := code, statusText := StatusText(code)), Page(NatToString(code) + " : " + StatusText(code)), date);
  }

  /** The status, its text and the page that are due. */
  ghost predicate IsDue(req: Request, env: Env, code: nat, text: string, page: string) {
    if req.requestType != "GET" then
      code == 501 && text == "Not Implemented" && page == "<html><body>501 : Not Implemented</body></html>"
    else if !env.exists_ then
      code == 404 && text == "Not Found" && page == "<html><body>404 : Not Found</body></html>"
    else if env.isFolder then
      && code == 200 && text == "OK"
      && page == "<html><body><p><h1>Folder : " + req.path + "</h1></p><ul>" + Concat(Items(env.files))
                 + "</ul></body></html>"
    else
      && !env.isFile
      && code == 500 && text == "Server Error" && page == "<html><body>500 : Server Error</body></html>"
  }

  /** For every request and every answer of the file system: there is no response exactly for a plain file,
      and otherwise it is the one that is due, with the date in it. */
  lemma ProcessedExactly(req: Request, env: Env) returns (code: nat, text: string, page: string)
    requires env.Valid()
    ensures ProcessRequest(req, env).None?
       <==> req.requestType == "GET" && env.exists_ && !env.isFolder && env.isFile
    ensures ProcessRequest(req, env).Some? ==>
              && IsDue(req, env, code, text, page)
              && IsResponse(ProcessRequest(req, env).value, code, text, page, TimeTToString(env.now).value)
  {
    var date := TimeTToString(env.now).value;
    NewHeaders();
    StatusTexts(0);
    NotFoundPage();
    ServerErrorPage();
    NotImplementedPage();
    if req.requestType != "GET" {
      ChangedIs(NEW_RESPONSE, 501, date);
      code, text, page := 501, "Not Implemented", "<html><body>501 : Not Implemented</body></html>";
    } else if !env.exists_ {
      ChangedIs(NEW_RESPONSE, 404, date);
      code, text, page := 404, "Not Found", "<html><body>404 : Not Found</body></html>";
    } else {
      ChangedIs(NEW_RESPONSE, 200, date);
      if env.isFolder {
        FolderPageIs(req.path, env.files);
        code, text, page := 200, "OK", FolderPage(req.path, env.files);
        PagedIs(ChangeStatus(NEW_RESPONSE, 200), page, date);
      } else {
        ChangedIs(ChangeStatus(NEW_RESPONSE, 200), 500, date);
        code, text, page := 500, "Server Error", "<html><body>500 : Server Error</body></html>";
      }
    }
  }

  // ----- the bytes -----

  /** The lines of the message: status, the three headers, a blank one; then the page and two NULs. */
  ghost predicate IsMessage(data: string, code: string, text: string, page: string, date: string) {
    && data == ("HTTP/1.1 " + code + " " + text + "\n")
               + ("Content-Length: " + NatToString(|page|) + "\n")
               + ("Content-Type: text/html" + "\n")
               + ("Date: " + date + "\n")
               + "\n"
               + page + "\0" + "\0"
    && NoLf(code) && NoLf(text) && NoLf(date)
  }

  lemma Regroup(start: string, a: string, b: string, c: string, page: string)
    ensures start + (a + (b + c)) + ("\n" + page) + "\0" + "\0"
         == start + a + b + c + "\n" + page + "\0" + "\0"
  {
    assert start + (a + (b + c)) == start + a + b + c;
    assert start + a + b + c + ("\n" + page) == start + a + b + c + "\n" + page;
  }

  lemma LinesAreLiteral(length: string, date: string)
    ensures "Content-Length" + ": " + length + "\n" == "Content-Length: " + length + "\n"
    ensures "Content-Type" + ": " + "text/html" + "\n" == "Content-Type: text/html" + "\n"
    ensures "Date" + ": " + date + "\n" == "Date: " + date + "\n"
  {
    assert "Content-Length" + ": " == "Content-Length: " && "Date" + ": " == "Date: ";
    assert "Content-Type" + ": " + "text/html" == "Content-Type: text/html";
  }

  lemma HeaderLinesAre(r: Response, code: nat, text: string, page: string, date: string)
    requires IsResponse(r, code, text, page, date)
    ensures HeaderLine(r.headers, "Content-Length") == "Content-Length: " + NatToString(|page|) + "\n"
    ensures HeaderLine(r.headers, "Content-Type") == "Content-Type: text/html" + "\n"
    ensures HeaderLine(r.headers, "Date") == "Date: " + date + "\n"
  {
    LinesAreLiteral(NatToString(|page|), date);
  }

  lemma MessageIs(r: Response, code: nat, text: string, page: string, date: string)
    requires IsResponse(r, code, text, page, date) && page != "" && NoLf(text) && NoLf(date)
    ensures IsMessage(Generate(r), NatToString(code), text, page, date)
  {
    GenerateExactly(r);
    HeaderLinesAre(r, code, text, page, date);
    assert "HTTP/1.1" + " " == "HTTP/1.1 ";
    Regroup("HTTP/1.1 " + NatToString(code) + " " + text + "\n", "Content-Length: " + NatToString(|page|) + "\n",
            "Content-Type: text/html" + "\n", "Date: " + date + "\n", page);
  }

  /** `data` is the message due to a request. */
  ghost predicate IsDueMessage(data: string, req: Request, env: Env)
    requires env.Valid()
  {
    exists code, text, page ::
      && IsDue(req, env, code, text, page)
      && IsMessage(data, NatToString(code), text, page, TimeTToString(env.now).value)
  }

  lemma DueIsPrintable(req: Request, env: Env, code: nat, text: string, page: string)
    requires IsDue(req, env, code, text, page)
    ensures page != "" && NoLf(text)
  {
    if req.requestType == "GET" && env.exists_ && env.isFolder {
      assert |page| > 0;
    }
  }

  /** What is sent for a request is, to the letter, the message due to it. */
  lemma SentExactly(req: Request, env: Env)
    requires env.Valid() && ProcessRequest(req, env).Some?
    ensures IsDueMessage(Generate(ProcessRequest(req, env).value), req, env)
  {
    var code, text, page := ProcessedExactly(req, env);
    DateNoLf(env.now);
    DueIsPrintable(req, env, code, text, page);
    MessageIs(ProcessRequest(req, env).value, code, text, page, TimeTToString(env.now).value);
  }

  /** The `Date` header of a response is parsed back to the time it was made, and to nothing else. */
  lemma DateHeaderParses(req: Request, env: Env, result: Result<Tm, TimeError>)
    requires env.Valid() && ProcessRequest(req, env).Some? && AreInts(env.now)
    requires 0 <= env.now.mday && 100 <= env.now.year + 1900 <= 2147483647
    requires 0 <= env.now.hour <= 23 && 0 <= env.now.min <= 59 && 0 <= env.now.sec <= 59
    ensures var headers := ProcessRequest(req, env).value.headers;
            "Date" in headers && (ParsesTo(headers["Date"], result) <==> result == Ok(env.now))
  {
    var code, text, page := ProcessedExactly(req, env);
    var date := ProcessRequest(req, env).value.headers["Date"];
    DateRoundTripIff(env.now);
    if ParsesTo(date, result) {
      ParseIsUnique(date, result, Ok(env.now));
    }
  }
}
