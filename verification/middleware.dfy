/** One request through the middleware, as a sequence of state transitions:
    derive the trace, register a handler, let the application log through it
    (`GCPHandler.emit`), build the parent entry (`make_parent_log`), unregister
    the handler. The state is the module-level list of tracked level names, the
    root logger's handlers of this kind, and the two streams' outboxes (what
    `send` was called with, in order). */
module Middleware {
  import opened Wrappers
  import opened Levels
  import opened LexOrder
  import opened Severity
  import opened Settings
  import opened TraceContext

  datatype Request = Request(httpMethod: string, fullPath: string, meta: map<string, string>)

  /** The response's status and its `Content-Length` header, if any. */
  datatype Response = Response(status: int, contentLength: Option<string>)

  /** The structured request record of a parent entry. A size that the source
      replaces by the number 0 is absent here. Latency is not modelled. */
  datatype HttpRequest = HttpRequest(
    httpMethod: string,
    url: string,
    requestSize: Option<string>,
    remoteIp: string,
    status: int,
    responseSize: Option<string>,
    userAgent: Option<string>,
    referer: Option<string>)

  /** What a stream's `send` receives; timestamp, resource and labels are left out. */
  datatype Entry = Entry(
    message: Option<string>,
    severity: string,
    trace: string,
    span: Option<string>,
    httpRequest: Option<HttpRequest>)

  /** A log record as it reaches a handler: its level name and formatted text. */
  datatype Record = Record(levelName: string, message: string)

  /** A `GCPHandler`; `id` stands for the object's identity. */
  datatype Handler = Handler(id: nat, trace: string, span: Option<string>)

  datatype State = State(
    tracked: seq<string>,
    handlers: seq<Handler>,
    nextId: nat,
    childOutbox: seq<Entry>,
    parentOutbox: seq<Entry>)

  /** Every registered handler is an object created before now. */
  predicate Wf(s: State)
  {
    forall i :: 0 <= i < |s.handlers| ==> s.handlers[i].id < s.nextId
  }

  /** Why a call did not return: a record whose level name is not a level of the
      `logging` module (the `getattr` raises), or the application itself. */
  datatype Failure = UnknownLevel(name: string) | ApplicationRaised

  datatype Outcome = Done(state: State) | Raised(failure: Failure, state: State)

  const UserAgentKey := "HTTP_USER_AGENT"
  const RefererKey := "HTTP_REFERER"
  const ContentLengthKey := "CONTENT_LENGTH"

  /** Python's `value or 0` on an optional string: absent when absent or empty. */
  function OrAbsent(v: Option<string>): (r: Option<string>)
    ensures r.Some? <==> Truthy(v)
    ensures r.Some? ==> r == v
  {
    if Truthy(v) then v else None
  }

  function BuildHttpRequest(cfg: Config, req: Request, resp: Response): (r: HttpRequest)
    ensures r.remoteIp == (if cfg.remoteIpKey in req.meta then req.meta[cfg.remoteIpKey] else "unknown")
    ensures r.status == resp.status && r.httpMethod == req.httpMethod && r.url == req.fullPath
    ensures r.userAgent.Some? <==> UserAgentKey in req.meta && req.meta[UserAgentKey] != ""
    ensures r.userAgent.Some? ==> r.userAgent.value == req.meta[UserAgentKey]
    ensures r.referer.Some? <==> RefererKey in req.meta && req.meta[RefererKey] != ""
    ensures r.referer.Some? ==> r.referer.value == req.meta[RefererKey]
    ensures r.requestSize.Some? <==> ContentLengthKey in req.meta && req.meta[ContentLengthKey] != ""
    ensures r.responseSize.Some? <==> resp.contentLength.Some? && resp.contentLength.value != ""
  {
    HttpRequest(
      req.httpMethod,
      req.fullPath,
      OrAbsent(Get(req.meta, ContentLengthKey)),
      Get(req.meta, cfg.remoteIpKey).Otherwise("unknown"),
      resp.status,
      OrAbsent(resp.contentLength),
      OrAbsent(Get(req.meta, UserAgentKey)),
      OrAbsent(Get(req.meta, RefererKey)))
  }

  /** Whether `emit` keeps a record with this level name: its level is at least
      the root logger's. */
  predicate Passes(name: string)
  {
    LevelNumber(name).Some? && LevelNumber(name).value >= Threshold
  }

  function ChildEntry(h: Handler, rec: Record): Entry
  {
    Entry(Some(rec.message), rec.levelName, h.trace, h.span, None)
  }

  /** `GCPHandler.emit`: drop a record below the threshold, otherwise track its
      level name and send it to the child stream with the handler's trace and span. */
  function Emit(s: State, h: Handler, rec: Record): (r: Outcome)
    ensures r.Raised? <==> LevelNumber(rec.levelName).None?
    ensures r.Raised? ==> r.state == s && r.failure == UnknownLevel(rec.levelName)
    ensures r.state.handlers == s.handlers && r.state.nextId == s.nextId
    ensures r.state.parentOutbox == s.parentOutbox
    ensures r.Done? && !Passes(rec.levelName) ==> r.state == s
    ensures r.Done? && Passes(rec.levelName) ==>
      && |r.state.tracked| == |s.tracked| + 1
      && r.state.tracked[..|s.tracked|] == s.tracked
      && r.state.tracked[|s.tracked|] == rec.levelName
      && |r.state.childOutbox| == |s.childOutbox| + 1
      && r.state.childOutbox[..|s.childOutbox|] == s.childOutbox
      && r.state.childOutbox[|s.childOutbox|].message == Some(rec.message)
      && r.state.childOutbox[|s.childOutbox|].severity == rec.levelName
      && r.state.childOutbox[|s.childOutbox|].trace == h.trace
      && r.state.childOutbox[|s.childOutbox|].span == h.span
      && r.state.childOutbox[|s.childOutbox|].httpRequest.None?
  {
    match LevelNumber(rec.levelName)
    case None => Raised(UnknownLevel(rec.levelName), s)
    case Some(n) =>
      if n < Threshold then Done(s)
      else
        Done(s.(tracked := s.tracked + [rec.levelName],
                childOutbox := s.childOutbox + [ChildEntry(h, rec)]))
  }

  /** `n` copies of `name`. */
  function Repeat(name: string, n: nat): seq<string>
  {
    seq(n, _ => name)
  }

  /** One child entry for `rec` per handler, in registry order. */
  function EntriesFor(hs: seq<Handler>, rec: Record): seq<Entry>
  {
    seq(|hs|, i requires 0 <= i < |hs| => ChildEntry(hs[i], rec))
  }

  /** The logger hands a record to each registered handler in turn; an exception
      from one of them stops the rest. */
  function Dispatch(s: State, hs: seq<Handler>, rec: Record): (r: Outcome)
    ensures r.state.handlers == s.handlers && r.state.nextId == s.nextId
    ensures r.state.parentOutbox == s.parentOutbox
    ensures r.Raised? <==> |hs| > 0 && LevelNumber(rec.levelName).None?
    ensures r.Raised? ==> r.state == s && r.failure == UnknownLevel(rec.levelName)
    ensures r.Done? && !Passes(rec.levelName) ==> r.state == s
    ensures r.Done? && Passes(rec.levelName) ==>
      r.state == s.(tracked := s.tracked + Repeat(rec.levelName, |hs|),
                    childOutbox := s.childOutbox + EntriesFor(hs, rec))
    decreases |hs|
  {
    if |hs| == 0 then
      assert Repeat(rec.levelName, 0) == [] && EntriesFor(hs, rec) == [];
      Done(s)
    else
      match Emit(s, hs[0], rec)
      case Raised(f, s1) => Raised(f, s1)
      case Done(s1) =>
        assert Repeat(rec.levelName, |hs|) == [rec.levelName] + Repeat(rec.levelName, |hs| - 1);
        assert EntriesFor(hs, rec) == [ChildEntry(hs[0], rec)] + EntriesFor(hs[1..], rec);
        Dispatch(s1, hs[1..], rec)
  }

  /** The records `emit` keeps. */
  function Kept(records: seq<Record>): (r: seq<Record>)
    ensures forall i :: 0 <= i < |r| ==> Passes(r[i].levelName)
    ensures |r| <= |records|
  {
    if |records| == 0 then []
    else (if Passes(records[0].levelName) then [records[0]] else []) + Kept(records[1..])
  }

  /** The names tracked for `records` with `n` handlers registered: each record's
      level name, once per handler. */
  function TrackedNames(records: seq<Record>, n: nat): seq<string>
  {
    if |records| == 0 then [] else Repeat(records[0].levelName, n) + TrackedNames(records[1..], n)
  }

  /** The child entries sent for `records`: for each record, one per handler. */
  function Fanout(hs: seq<Handler>, records: seq<Record>): seq<Entry>
  {
    if |records| == 0 then [] else EntriesFor(hs, records[0]) + Fanout(hs, records[1..])
  }

  predicate AllKnown(records: seq<Record>)
  {
    forall i :: 0 <= i < |records| ==> LevelNumber(records[i].levelName).Some?
  }

  lemma AllKnownCons(records: seq<Record>)
    requires |records| > 0
    ensures AllKnown(records) <==> LevelNumber(records[0].levelName).Some? && AllKnown(records[1..])
  {
    var rest := records[1..];
    forall i | 0 <= i < |rest| ensures rest[i] == records[i + 1] { }
    forall i | 0 < i < |records| ensures records[i] == rest[i - 1] { }
  }

  /** Where the first record with an unknown level name is: every record before
      it has a known one. */
  function FirstUnknown(records: seq<Record>): (k: nat)
    requires !AllKnown(records)
    ensures k < |records| && LevelNumber(records[k].levelName).None?
    ensures AllKnown(records[..k])
  {
    AllKnownCons(records);
    if LevelNumber(records[0].levelName).None? then 0
    else
      var k := FirstUnknown(records[1..]);
      var before := records[..k + 1];
      assert before[0] == records[0] && before[1..] == records[1..][..k];
      AllKnownCons(before);
      k + 1
  }

  /** A record in front contributes its names and entries in front. */
  lemma FanoutCons(hs: seq<Handler>, rec: Record, rest: seq<Record>)
    ensures TrackedNames([rec] + rest, |hs|) == Repeat(rec.levelName, |hs|) + TrackedNames(rest, |hs|)
    ensures Fanout(hs, [rec] + rest) == EntriesFor(hs, rec) + Fanout(hs, rest)
  {
    assert ([rec] + rest)[1..] == rest;
  }

  lemma Regroup<T>(a: seq<T>, b: seq<T>, c: seq<T>, bc: seq<T>)
    requires bc == b + c
    ensures a + b + c == a + bc
  {
  }

  /** The application logs `records` in order while producing its response. Every
      record reaches every registered handler: the run raises exactly when a
      handler is registered and some level name is unknown; otherwise each kept
      record's name is tracked once per handler and sent once per handler. */
  function RunApp(s: State, records: seq<Record>): (r: Outcome)
    ensures r.state.handlers == s.handlers && r.state.nextId == s.nextId
    ensures r.state.parentOutbox == s.parentOutbox
    ensures s.tracked <= r.state.tracked && s.childOutbox <= r.state.childOutbox
    ensures r.Raised? <==> |s.handlers| > 0 && !AllKnown(records)
    ensures r.Raised? ==> r.failure.UnknownLevel?
    ensures r.Done? ==>
      r.state == s.(tracked := s.tracked + TrackedNames(Kept(records), |s.handlers|),
                    childOutbox := s.childOutbox + Fanout(s.handlers, Kept(records)))
    ensures r.Raised? ==>
      var k := FirstUnknown(records);
      && r.failure == UnknownLevel(records[k].levelName)
      && r.state == s.(tracked := s.tracked + TrackedNames(Kept(records[..k]), |s.handlers|),
                       childOutbox := s.childOutbox + Fanout(s.handlers, Kept(records[..k])))
    decreases |records|
  {
    if |records| == 0 then Done(s)
    else
      AllKnownCons(records);
      match Dispatch(s, s.handlers, records[0])
      case Raised(f, s1) =>
        assert records[..0] == [];
        Raised(f, s1)
      case Done(s1) =>
        DispatchStep(s, s1, records);
        if |s.handlers| > 0 && !AllKnown(records[1..]) then
          RaisedStep(s, s1, records);
          RunApp(s1, records[1..])
        else
          RunApp(s1, records[1..])
  }

  /** When a later record raises, what was logged before it is what the first
      record contributes followed by what the rest contributed before the raise. */
  lemma RaisedStep(s: State, s1: State, records: seq<Record>)
    requires |records| > 0 && LevelNumber(records[0].levelName).Some? && !AllKnown(records[1..])
    requires !Passes(records[0].levelName) ==> s1 == s
    requires Passes(records[0].levelName) ==>
      s1 == s.(tracked := s.tracked + Repeat(records[0].levelName, |s.handlers|),
               childOutbox := s.childOutbox + EntriesFor(s.handlers, records[0]))
    ensures !AllKnown(records) && FirstUnknown(records) == FirstUnknown(records[1..]) + 1
    ensures var k := FirstUnknown(records[1..]);
      && s1.tracked + TrackedNames(Kept(records[1..][..k]), |s.handlers|)
           == s.tracked + TrackedNames(Kept(records[..k + 1]), |s.handlers|)
      && s1.childOutbox + Fanout(s.handlers, Kept(records[1..][..k]))
           == s.childOutbox + Fanout(s.handlers, Kept(records[..k + 1]))
  {
    FirstUnknownCons(records);
    PrefixStep(s, s1, records, FirstUnknown(records[1..]));
  }

  /** A first record with a known name moves the first unknown one a place on. */
  lemma FirstUnknownCons(records: seq<Record>)
    requires |records| > 0 && LevelNumber(records[0].levelName).Some? && !AllKnown(records[1..])
    ensures !AllKnown(records) && FirstUnknown(records) == FirstUnknown(records[1..]) + 1
  {
    AllKnownCons(records);
  }

  /** The first record's contribution, followed by the next `k` records'. */
  lemma PrefixStep(s: State, s1: State, records: seq<Record>, k: nat)
    requires k < |records| - 1
    requires !Passes(records[0].levelName) ==> s1 == s
    requires Passes(records[0].levelName) ==>
      s1 == s.(tracked := s.tracked + Repeat(records[0].levelName, |s.handlers|),
               childOutbox := s.childOutbox + EntriesFor(s.handlers, records[0]))
    ensures s1.tracked + TrackedNames(Kept(records[1..][..k]), |s.handlers|)
         == s.tracked + TrackedNames(Kept(records[..k + 1]), |s.handlers|)
    ensures s1.childOutbox + Fanout(s.handlers, Kept(records[1..][..k]))
         == s.childOutbox + Fanout(s.handlers, Kept(records[..k + 1]))
  {
    var before := records[..k + 1];
    assert before[0] == records[0] && before[1..] == records[1..][..k];
    DispatchStep(s, s1, before);
  }

  /** A record logged before one whose level name is unknown has already been
      tracked and sent when the run raises. */
  lemma RaiseAfterLineExample(h: Handler)
    ensures var first := Record(Info.Name(), "a");
      var r := RunApp(State([], [h], 1, [], []), [first, Record("Level 25", "b")]);
      && r == Raised(UnknownLevel("Level 25"), State([Info.Name()], [h], 1, [ChildEntry(h, first)], []))
  {
    var first := Record(Info.Name(), "a");
    var records := [first, Record("Level 25", "b")];
    assert records[1..] == [Record("Level 25", "b")];
    assert LevelNumber(records[1].levelName).None?;
    assert !AllKnown(records);
    assert FirstUnknown(records) == 1;
    assert records[..1] == [first];
    KeptSingle([h], first);
  }

  /** After the first record is handed to every handler, what remains to be
      tracked and sent is what the rest of the records contribute. */
  lemma DispatchStep(s: State, s1: State, records: seq<Record>)
    requires |records| > 0
    requires !Passes(records[0].levelName) ==> s1 == s
    requires Passes(records[0].levelName) ==>
      s1 == s.(tracked := s.tracked + Repeat(records[0].levelName, |s.handlers|),
               childOutbox := s.childOutbox + EntriesFor(s.handlers, records[0]))
    ensures s1.handlers == s.handlers && s1.nextId == s.nextId && s1.parentOutbox == s.parentOutbox
    ensures s.tracked <= s1.tracked && s.childOutbox <= s1.childOutbox
    ensures s1.tracked + TrackedNames(Kept(records[1..]), |s.handlers|)
         == s.tracked + TrackedNames(Kept(records), |s.handlers|)
    ensures s1.childOutbox + Fanout(s.handlers, Kept(records[1..]))
         == s.childOutbox + Fanout(s.handlers, Kept(records))
  {
    var rec, rest, hs := records[0], records[1..], s.handlers;
    var kept, n := Kept(rest), |hs|;
    if Passes(rec.levelName) {
      assert Kept(records) == [rec] + kept;
      FanoutCons(hs, rec, kept);
      Regroup(s.tracked, Repeat(rec.levelName, n), TrackedNames(kept, n), TrackedNames(Kept(records), n));
      Regroup(s.childOutbox, EntriesFor(hs, rec), Fanout(hs, kept), Fanout(hs, Kept(records)));
    } else {
      assert Kept(records) == kept;
    }
  }

  /** `logger.addHandler`: appends unless that very handler is already there. */
  function AddHandler(hs: seq<Handler>, h: Handler): (r: seq<Handler>)
    ensures hs <= r && h in r
    ensures |r| == |hs| + (if h in hs then 0 else 1)
    ensures forall x :: x in r <==> x in hs || x == h
  {
    if h in hs then hs else hs + [h]
  }

  /** Where `h` first occurs in `hs`. */
  function Position(hs: seq<Handler>, h: Handler): (i: nat)
    requires h in hs
    ensures i < |hs| && hs[i] == h && h !in hs[..i]
  {
    if hs[0] == h then 0
    else
      var i := Position(hs[1..], h);
      assert hs[..i + 1] == [hs[0]] + hs[1..][..i];
      i + 1
  }

  /** `logger.removeHandler`: removes the first occurrence, if any, keeping the
      order of the others. */
  function RemoveHandler(hs: seq<Handler>, h: Handler): (r: seq<Handler>)
    ensures h !in hs ==> r == hs
    ensures h in hs ==> r == hs[..Position(hs, h)] + hs[Position(hs, h) + 1..]
  {
    if |hs| == 0 then hs
    else if hs[0] == h then
      assert hs == [hs[0]] + hs[1..];
      hs[1..]
    else
      var tail := RemoveHandler(hs[1..], h);
      RemoveStep(hs[0], hs[1..], h, tail);
      assert hs == [hs[0]] + hs[1..];
      [hs[0]] + tail
  }

  /** Removal past a first handler that is kept. */
  lemma RemoveStep(x: Handler, rest: seq<Handler>, h: Handler, tail: seq<Handler>)
    requires x != h
    requires h !in rest ==> tail == rest
    requires h in rest ==> tail == rest[..Position(rest, h)] + rest[Position(rest, h) + 1..]
    ensures var hs := [x] + rest;
      && (h !in hs ==> [x] + tail == hs)
      && (h in hs ==> [x] + tail == hs[..Position(hs, h)] + hs[Position(hs, h) + 1..])
  {
    var hs := [x] + rest;
    assert hs[1..] == rest;
    if h in rest {
      var i := Position(rest, h);
      assert Position(hs, h) == i + 1;
      assert hs[..i + 1] == [x] + rest[..i];
      assert hs[i + 2..] == rest[i + 1..];
    }
  }

  /** Removal takes out exactly one registration of the handler. */
  lemma RemoveHandlerCount(hs: seq<Handler>, h: Handler)
    ensures multiset(RemoveHandler(hs, h)) == multiset(hs) - multiset{h}
  {
    if h in hs {
      var i := Position(hs, h);
      assert hs == hs[..i] + [h] + hs[i + 1..];
    }
  }

  /** Registering a new handler and then removing it restores the registry. */
  lemma AddRemoveRestores(hs: seq<Handler>, h: Handler)
    requires h !in hs
    ensures RemoveHandler(AddHandler(hs, h), h) == hs
  {
    var added := hs + [h];
    var i := Position(added, h);
    assert i == |hs| by {
      assert forall j :: 0 <= j < |hs| ==> added[j] == hs[j];
    }
    assert added[..i] == hs;
  }

  /** `make_parent_log`: compute the severity, clear the tracked names, and send
      the parent entry unless `GCP_LOG_USE_X_HTTP_CLOUD_CONTEXT` is on. */
  function MakeParentLog(cfg: Config, s: State, ctx: Context, req: Request, resp: Response): (r: State)
    ensures r.tracked == []
    ensures r.handlers == s.handlers && r.nextId == s.nextId && r.childOutbox == s.childOutbox
    ensures cfg.useCloudContext ==> r.parentOutbox == s.parentOutbox
    ensures !cfg.useCloudContext ==>
      && |r.parentOutbox| == |s.parentOutbox| + 1
      && r.parentOutbox[..|s.parentOutbox|] == s.parentOutbox
      && r.parentOutbox[|s.parentOutbox|].message.None?
      && r.parentOutbox[|s.parentOutbox|].severity == ParentSeverity(s.tracked, resp.status)
      && r.parentOutbox[|s.parentOutbox|].trace == ctx.trace
      && r.parentOutbox[|s.parentOutbox|].span == ctx.span
      && r.parentOutbox[|s.parentOutbox|].httpRequest == Some(BuildHttpRequest(cfg, req, resp))
  {
    var severity := ParentSeverity(s.tracked, resp.status);
    var cleared := s.(tracked := []);
    if cfg.useCloudContext then cleared
    else
      var entry := Entry(None, severity, ctx.trace, ctx.span, Some(BuildHttpRequest(cfg, req, resp)));
      cleared.(parentOutbox := s.parentOutbox + [entry])
  }

  /** What the application does during `get_response`: the records it logs, then
      its response, or none when it raises. */
  datatype AppRun = AppRun(records: seq<Record>, response: Option<Response>)

  /** The handler created for a request in state `s`. */
  function RequestHandler(s: State, ctx: Context): Handler
  {
    Handler(s.nextId, ctx.trace, ctx.span)
  }

  /** `GCPLoggingMiddleware.__call__`. Nothing guards the removal of the handler,
      so when logging or the application raises, the handler stays registered and
      the tracked names are not cleared. */
  function HandleRequest(cfg: Config, s: State, req: Request, draws: seq<nat>, app: AppRun): (r: Outcome)
    requires ValidDraws(draws)
    ensures r.state.nextId == s.nextId + 1
  {
    var ctx := DeriveContext(cfg, req.meta, draws);
    var h := RequestHandler(s, ctx);
    var s1 := s.(handlers := AddHandler(s.handlers, h), nextId := s.nextId + 1);
    match RunApp(s1, app.records)
    case Raised(f, s2) => Raised(f, s2)
    case Done(s2) =>
      match app.response
      case None => Raised(ApplicationRaised, s2)
      case Some(resp) => Done(Finish(cfg, s2, ctx, h, req, resp))
  }

  /** The end of `__call__` once the application has responded: the parent log,
      then the removal of the request's handler. */
  function Finish(cfg: Config, s: State, ctx: Context, h: Handler, req: Request, resp: Response): (r: State)
    ensures r.tracked == [] && r.nextId == s.nextId && r.childOutbox == s.childOutbox
    ensures r.handlers == RemoveHandler(s.handlers, h)
    ensures cfg.useCloudContext ==> r.parentOutbox == s.parentOutbox
    ensures !cfg.useCloudContext ==>
      r.parentOutbox == s.parentOutbox +
        [Entry(None, ParentSeverity(s.tracked, resp.status), ctx.trace, ctx.span, Some(BuildHttpRequest(cfg, req, resp)))]
  {
    var s3 := MakeParentLog(cfg, s, ctx, req, resp);
    s3.(handlers := RemoveHandler(s3.handlers, h))
  }

  /** A request that returns leaves the registry as it found it, has cleared the
      tracked names, and has sent exactly one parent entry unless
      `GCP_LOG_USE_X_HTTP_CLOUD_CONTEXT` is on. */
  lemma RequestCompletes(cfg: Config, s: State, req: Request, draws: seq<nat>, app: AppRun)
    requires Wf(s) && ValidDraws(draws)
    ensures var r := HandleRequest(cfg, s, req, draws, app);
      r.Done? ==>
        && r.state.handlers == s.handlers
        && r.state.tracked == []
        && Wf(r.state)
        && |r.state.parentOutbox| == |s.parentOutbox| + (if cfg.useCloudContext then 0 else 1)
        && r.state.parentOutbox[..|s.parentOutbox|] == s.parentOutbox
  {
    var ctx := DeriveContext(cfg, req.meta, draws);
    var h := RequestHandler(s, ctx);
    assert forall i :: 0 <= i < |s.handlers| ==> s.handlers[i] != h;
    AddRemoveRestores(s.handlers, h);
  }

  /** A request that raises leaves its handler registered and the tracked names
      in place (only ever added to), and sends no parent entry. It raises for an
      unknown level name exactly when one was logged; otherwise the application
      raised. */
  lemma RequestRaisedLeaks(cfg: Config, s: State, req: Request, draws: seq<nat>, app: AppRun)
    requires ValidDraws(draws)
    ensures var r := HandleRequest(cfg, s, req, draws, app);
      r.Raised? ==>
        && RequestHandler(s, DeriveContext(cfg, req.meta, draws)) in r.state.handlers
        && s.handlers <= r.state.handlers
        && s.tracked <= r.state.tracked
        && r.state.parentOutbox == s.parentOutbox
        && (Wf(s) ==> Wf(r.state))
        && (r.failure.UnknownLevel? <==> !AllKnown(app.records))
        && (app.response.Some? ==> r.failure.UnknownLevel?)
  {
    var h := RequestHandler(s, DeriveContext(cfg, req.meta, draws));
    assert h in AddHandler(s.handlers, h);
  }

  /** End to end, for any state: the request's handler joins those already
      registered (left over by requests that raised), and every record reaches all
      of them. The request returns exactly when every logged level name is known
      and the application responds. The child stream then receives each kept
      record once per registered handler, and the parent severity is computed from
      the names tracked before the request followed by those tracked now. When a
      level name is unknown, the request raises at the first such record, after
      the records before it were tracked and sent. When the application raises,
      its handler stays registered and the names stay tracked. */
  lemma RequestLogs(cfg: Config, s: State, req: Request, draws: seq<nat>, app: AppRun)
    requires Wf(s) && ValidDraws(draws)
    ensures var ctx := DeriveContext(cfg, req.meta, draws);
      var hs := s.handlers + [RequestHandler(s, ctx)];
      var r := HandleRequest(cfg, s, req, draws, app);
      && (r.Done? <==> AllKnown(app.records) && app.response.Some?)
      && (r.Done? ==>
            && r.state.childOutbox == s.childOutbox + Fanout(hs, Kept(app.records))
            && (cfg.useCloudContext ==> r.state.parentOutbox == s.parentOutbox)
            && (!cfg.useCloudContext ==>
                  r.state.parentOutbox == s.parentOutbox +
                    [Entry(None,
                           ParentSeverity(s.tracked + TrackedNames(Kept(app.records), |hs|), app.response.value.status),
                           ctx.trace, ctx.span,
                           Some(BuildHttpRequest(cfg, req, app.response.value)))]))
      && (!AllKnown(app.records) ==>
            var k := FirstUnknown(app.records);
            && r.Raised? && r.failure == UnknownLevel(app.records[k].levelName)
            && r.state.handlers == hs
            && r.state.tracked == s.tracked + TrackedNames(Kept(app.records[..k]), |hs|)
            && r.state.childOutbox == s.childOutbox + Fanout(hs, Kept(app.records[..k])))
      && (r.Raised? && r.failure == ApplicationRaised ==>
            && r.state.handlers == hs
            && r.state.tracked == s.tracked + TrackedNames(Kept(app.records), |hs|)
            && r.state.childOutbox == s.childOutbox + Fanout(hs, Kept(app.records)))
  {
    var h := RequestHandler(s, DeriveContext(cfg, req.meta, draws));
    assert forall i :: 0 <= i < |s.handlers| ==> s.handlers[i] != h;
    assert AddHandler(s.handlers, h) == s.handlers + [h];
  }

  /** A single record at or above the threshold is kept, tracked and sent once
      per handler. */
  lemma KeptSingle(hs: seq<Handler>, rec: Record)
    requires Passes(rec.levelName)
    ensures Kept([rec]) == [rec]
    ensures TrackedNames([rec], |hs|) == Repeat(rec.levelName, |hs|)
    ensures Fanout(hs, [rec]) == EntriesFor(hs, rec)
  {
    FanoutCons(hs, rec, []);
  }

  /** The hazard of the shared state, worked out from a fresh start: a request
      logs an ERROR line and then raises. The next request logs one INFO line and
      responds 200, which alone would give an INFO parent entry; its parent entry
      is ERROR, and its INFO line is sent twice, first under the earlier
      request's trace. */
  lemma StaleSeverityExample(cfg: Config, req1: Request, req2: Request, d1: seq<nat>, d2: seq<nat>, m1: string, m2: string)
    requires ValidDraws(d1) && ValidDraws(d2) && !cfg.useCloudContext
    ensures var first := HandleRequest(cfg, State([], [], 0, [], []), req1, d1, AppRun([Record(Error.Name(), m1)], None));
      var line := Record(Info.Name(), m2);
      var second := HandleRequest(cfg, first.state, req2, d2, AppRun([line], Some(Response(200, None))));
      var h2 := RequestHandler(first.state, DeriveContext(cfg, req2.meta, d2));
      && first.Raised? && first.state.tracked == [Error.Name()] && |first.state.handlers| == 1
      && StatusSeverity(200) == Info.Name()
      && second.Done?
      && second.state.handlers == first.state.handlers
      && |second.state.parentOutbox| == 1
      && second.state.parentOutbox[0].severity == Error.Name()
      && second.state.childOutbox[1..] == [ChildEntry(first.state.handlers[0], line), ChildEntry(h2, line)]
  {
    FirstRequestRaises(cfg, req1, d1, m1);
    var first := HandleRequest(cfg, State([], [], 0, [], []), req1, d1, AppRun([Record(Error.Name(), m1)], None));
    NextRequestInherits(cfg, first.state, req2, d2, m2);
  }

  /** The first half: from a fresh start, an ERROR line and then an exception
      leave the line tracked and the handler registered. */
  lemma FirstRequestRaises(cfg: Config, req: Request, draws: seq<nat>, message: string)
    requires ValidDraws(draws)
    ensures var start := State([], [], 0, [], []);
      var r := HandleRequest(cfg, start, req, draws, AppRun([Record(Error.Name(), message)], None));
      && r.Raised? && r.failure == ApplicationRaised
      && r.state.tracked == [Error.Name()]
      && r.state.handlers == [RequestHandler(start, DeriveContext(cfg, req.meta, draws))]
      && r.state.childOutbox == [ChildEntry(r.state.handlers[0], Record(Error.Name(), message))]
      && r.state.parentOutbox == []
      && Wf(r.state)
  {
    var start := State([], [], 0, [], []);
    var app := AppRun([Record(Error.Name(), message)], None);
    RequestLogs(cfg, start, req, draws, app);
    RequestRaisedLeaks(cfg, start, req, draws, app);
    var hs := [RequestHandler(start, DeriveContext(cfg, req.meta, draws))];
    assert start.handlers + hs == hs;
    KeptSingle(hs, app.records[0]);
    assert EntriesFor(hs, app.records[0]) == [ChildEntry(hs[0], app.records[0])];
  }

  /** The second half: with one stale handler and a stale ERROR, a quiet
      successful request is reported as ERROR and its line is sent twice. */
  lemma NextRequestInherits(cfg: Config, s: State, req: Request, draws: seq<nat>, message: string)
    requires Wf(s) && ValidDraws(draws) && !cfg.useCloudContext
    requires s.tracked == [Error.Name()] && |s.handlers| == 1
    ensures var line := Record(Info.Name(), message);
      var r := HandleRequest(cfg, s, req, draws, AppRun([line], Some(Response(200, None))));
      && r.Done?
      && r.state.handlers == s.handlers
      && |r.state.parentOutbox| == |s.parentOutbox| + 1
      && r.state.parentOutbox[|s.parentOutbox|].severity == Error.Name()
      && r.state.childOutbox == s.childOutbox +
           [ChildEntry(s.handlers[0], line), ChildEntry(RequestHandler(s, DeriveContext(cfg, req.meta, draws)), line)]
  {
    var line := Record(Info.Name(), message);
    var app := AppRun([line], Some(Response(200, None)));
    RequestLogs(cfg, s, req, draws, app);
    RequestCompletes(cfg, s, req, draws, app);
    var hs := s.handlers + [RequestHandler(s, DeriveContext(cfg, req.meta, draws))];
    KeptSingle(hs, line);
    assert Repeat(Info.Name(), 2) == [Info.Name(), Info.Name()];
    assert EntriesFor(hs, line) == [ChildEntry(hs[0], line), ChildEntry(hs[1], line)];
    var severity := ParentSeverity([Error.Name(), Info.Name(), Info.Name()], 200);
    TrackableOrder();
    assert severity == Error.Name();
  }
}
