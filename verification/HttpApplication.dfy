/** The theorems about the server, for the HTTP application it runs: what a client receives is the printed
    answer to the request in the bytes it sent. */
module HttpApplication {
  import opened Common
  import opened Decimal
  import opened HttpMessages
  import opened HandlerAllocator
  import opened CommandProcessor
  import opened ResponseExact
  import opened ServerSteps
  import opened ServerInvariant
  import opened ServerTheorems
  import opened ServerRefinement
  import opened ServerRuns
  import opened ServerDisturbed

  function ProcessIn(req: Request, env: Env): Option<Response> {
    if env.Valid() then ProcessRequest(req, env) else None
  }

  /** The reader, the processor and the writer. */
  const HTTP_APP := App(ParseRequest, ProcessIn, Generate)

  lemma HttpAlwaysCloses()
    ensures AlwaysCloses(HTTP_APP)
  {
    forall req: Request, env: Env | env.Valid() && HTTP_APP.process(req, env).Some?
      ensures HTTP_APP.process(req, env).value.closeAfterSending
    {
      ProcessedIsGood(req, env);
    }
  }

  /** `sent` is one printed response, to the request in `bytes` as processed in `env`. */
  ghost predicate Answers(sent: seq<string>, bytes: string, env: Env) {
    && env.Valid() && ProcessRequest(ParseRequest(bytes), env).Some?
    && sent == [Generate(ProcessRequest(ParseRequest(bytes), env).value)]
  }

  /** The bytes are a message that announces its protocol and the status that is due, and behind the
      blank line as much content as its `Content-Length` says, and two NULs. */
  ghost predicate ReadsAsResponse(data: string, status: nat) {
    var (read, left) := ReadRequestFrom(data);
    && read.requestType == "HTTP/1.1"
    && read.path == NatToString(status) && read.protocol == StatusText(status)
    && exists r: Response :: r.status == status && LengthAgrees(r) && data == Generate(r)
                          && left == r.content + "\0" + "\0"
  }

  /** In every state of every undisturbed run, however the workers interleave and however the run ends, a
      connection was sent nothing, or exactly one response to the request parsed from its single read buffer; a
      connection that was closed was answered. */
  lemma EveryConnectionAnswered(space: Space, guarded: bool, workers: nat, actions: seq<Action>,
                                states: seq<State>, n: nat, i: nat)
    requires GoodRun(Config(space, HTTP_APP, guarded), workers, actions, states)
    requires n < |states| && i < |states[n].core.history|
    ensures var g := states[n].core.history[i];
            && |g.received| <= 1 && (forall b :: b in g.received ==> |b| <= 2048)
            && (g.sent == [] || (|g.received| == 1 && |g.envs| == 1 && Answers(g.sent, g.received[0], g.envs[0])))
            && (g.closed ==> g.sent != [])
  {
    GrantsOK(Config(space, HTTP_APP, guarded), workers, actions, states, n, i);
  }

  /** An answer, read by a reader like the server's own. */
  lemma AnswerReads(bytes: string, env: Env, sent: seq<string>)
    requires Answers(sent, bytes, env)
    ensures StatusFor(ParseRequest(bytes), env).Some?
    ensures ReadsAsResponse(sent[0], StatusFor(ParseRequest(bytes), env).value)
  {
    var req := ParseRequest(bytes);
    ProcessedIsGood(req, env);
    ProcessedReadBack(req, env);
    var r := ProcessRequest(req, env).value;
    assert sent[0] == Generate(r);
  }

  /** Whatever was sent on a connection reads as a response with the status due to the request received. */
  lemma EveryAnswerReads(space: Space, guarded: bool, workers: nat, actions: seq<Action>,
                         states: seq<State>, n: nat, i: nat)
    requires GoodRun(Config(space, HTTP_APP, guarded), workers, actions, states)
    requires n < |states| && i < |states[n].core.history| && states[n].core.history[i].sent != []
    ensures var g := states[n].core.history[i];
            && |g.sent| == |g.received| == |g.envs| == 1
            && StatusFor(ParseRequest(g.received[0]), g.envs[0]).Some?
            && ReadsAsResponse(g.sent[0], StatusFor(ParseRequest(g.received[0]), g.envs[0]).value)
  {
    EveryConnectionAnswered(space, guarded, workers, actions, states, n, i);
    var g := states[n].core.history[i];
    AnswerReads(g.received[0], g.envs[0], g.sent);
  }

  /** Whatever was sent on a connection is, to the letter, the message due to the request received: its
      status line, the three headers with the length of the page and the date, and the page. */
  lemma EveryAnswerExact(space: Space, guarded: bool, workers: nat, actions: seq<Action>,
                         states: seq<State>, n: nat, i: nat)
    requires GoodRun(Config(space, HTTP_APP, guarded), workers, actions, states)
    requires n < |states| && i < |states[n].core.history| && states[n].core.history[i].sent != []
    ensures var g := states[n].core.history[i];
            && |g.sent| == |g.received| == |g.envs| == 1 && g.envs[0].Valid()
            && IsDueMessage(g.sent[0], ParseRequest(g.received[0]), g.envs[0])
  {
    EveryConnectionAnswered(space, guarded, workers, actions, states, n, i);
    var g := states[n].core.history[i];
    SentExactly(ParseRequest(g.received[0]), g.envs[0]);
  }

  /** A step ends the process for want of a response only on a request for a plain file. */
  lemma OnlyPlainFilesStop(space: Space, guarded: bool, s: State, a: Action)
    requires Enabled(s, a) && Step(Config(space, HTTP_APP, guarded), s, a).crash.Some?
    requires Step(Config(space, HTTP_APP, guarded), s, a).crash.value.NoResponse?
    ensures var NoResponse(_, request, env) := Step(Config(space, HTTP_APP, guarded), s, a).crash.value;
            request.requestType == "GET" && env.exists_ && !env.isFolder && env.isFile
  {
    var cfg := Config(space, HTTP_APP, guarded);
    CrashCaused(cfg, s, a);
    var NoResponse(_, request, env) := Step(cfg, s, a).crash.value;
    ProcessedIsGood(request, env);
  }

  /** An empty read is answered: it is not a request the processor implements. */
  lemma EmptyReadAnswered()
    ensures SOME_ENV.Valid() && HTTP_APP.process(HTTP_APP.parse(""), SOME_ENV).Some?
  {
    assert ParseRequest("").requestType == "";
  }

  /** So the HTTP server as written, with `int` handlers and any number of workers, has a run that ends in the
      exception of `OnFinished`, one that breaks mutual exclusion, and one that reads a connection twice and
      sends two responses on it. */
  lemma HttpServerCanFail(workers: nat)
    requires workers >= 1
    ensures exists s :: Reachable(Config(INT_SPACE, HTTP_APP, false), workers, s)
                     && s.crash == Some(BadDescriptor(WriteJob(SecondHandler(INT_SPACE))))
    ensures exists s :: Reachable(Config(INT_SPACE, HTTP_APP, false), workers, s)
                     && s.crash.None? && !Exclusive(s)
    ensures exists s, i :: Reachable(Config(INT_SPACE, HTTP_APP, false), workers, s)
                        && ReadTwice(s, i) && AnsweredTwice(s, i)
  {
    HttpAlwaysCloses();
    EmptyReadAnswered();
    var cfg := Config(INT_SPACE, HTTP_APP, false);
    OneIsEnoughToThrow(cfg, workers, "", SOME_ENV);
    ExclusionBreaksIff(cfg, workers, "", SOME_ENV);
    ServesTwiceIff(cfg, workers, "", SOME_ENV);
  }
}
