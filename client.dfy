/**
 * The agent: its startup configuration, the control session that dials,
 * reads and dispatches forever, and the one-shot upload it performs on
 * "DOWNLOAD". The environment's answers at each suspension point (dial,
 * read) are the session's input events; what the agent does is its trace of
 * actions.
 */
module Client {
  import opened Wrappers
  import opened Config
  import opened Http

  // ---------------------------------------------------------------- startup

  datatype ClientConfig = ClientConfig(wsUrl: string, uploadUrl: string, clientId: string, token: string, filePath: string)

  /** The variables `main` requires, in the order it reads them. */
  const ClientKeys: seq<string> := ["SERVER_WS", "SERVER_UPLOAD", "CLIENT_ID", "API_TOKEN", "FILE_PATH"]

  /** `main`'s five `mustEnv` calls: all present gives the configuration, else the first missing key is fatal. */
  function ClientStartup(env: Env): (r: Result<ClientConfig, Fatal>)
    ensures r.Ok? <==> forall i :: 0 <= i < |ClientKeys| ==> Getenv(env, ClientKeys[i]) != ""
    ensures r.Ok? ==> r.value == ClientConfig(Getenv(env, "SERVER_WS"), Getenv(env, "SERVER_UPLOAD"),
                                              Getenv(env, "CLIENT_ID"), Getenv(env, "API_TOKEN"),
                                              Getenv(env, "FILE_PATH"))
    ensures r.Ok? ==> r.value.clientId != "" && r.value.token != ""
    ensures r.Err? ==> exists i :: && 0 <= i < |ClientKeys|
                                   && r.error == MissingEnv(ClientKeys[i])
                                   && Getenv(env, ClientKeys[i]) == ""
                                   && forall j :: 0 <= j < i ==> Getenv(env, ClientKeys[j]) != ""
  {
    match MustEnvAll(env, ClientKeys)
    case Err(e) => Err(e)
    case Ok(vs) =>
      assert forall i :: 0 <= i < 5 ==> vs[i] == Getenv(env, ClientKeys[i]);
      Ok(ClientConfig(vs[0], vs[1], vs[2], vs[3], vs[4]))
  }

  /** The headers `main` builds once and presents on every dial. */
  function DialHeaders(cfg: ClientConfig): Headers
  {
    map[AuthorizationHeader := Bearer(cfg.token), ClientIdHeader := cfg.clientId]
  }

  // ----------------------------------------------------------------- upload

  /** The request `uploadFile` sends: a POST of the file's bytes with the credential and identity. */
  function UploadRequest(url: string, token: string, clientId: string, body: seq<byte>): Request
  {
    Request("POST", url,
            map[AuthorizationHeader := Bearer(token), ClientIdHeader := clientId, ContentTypeHeader := OctetStream],
            body)
  }

  /** The upload request carries the same credential and identity headers as every dial. */
  lemma SameCredentialsOnBothChannels(cfg: ClientConfig, body: seq<byte>)
    ensures var up := UploadRequest(cfg.uploadUrl, cfg.token, cfg.clientId, body).headers;
            && (forall k :: k in DialHeaders(cfg) ==> k in up && up[k] == DialHeaders(cfg)[k])
            && up.Keys == DialHeaders(cfg).Keys + {ContentTypeHeader}
  {
  }

  /** How `uploadFile` ends; only logged, never reported to the session. */
  datatype UploadOutcome = FileError | RequestError | TransportError | Uploaded

  /**
   * `uploadFile`. `fs` is the agent's file system (`os.Open` fails for a path
   * it does not hold), `requestOk` whether `http.NewRequest` accepts the URL,
   * `transportOk` whether `DefaultClient.Do` returns a response. The response's
   * status is not inspected: any response counts as uploaded.
   */
  method UploadFile(url: string, token: string, clientId: string, path: string,
                    fs: map<string, seq<byte>>, requestOk: bool, transportOk: bool)
    returns (sent: Option<Request>, outcome: UploadOutcome)
    ensures sent.Some? <==> path in fs && requestOk
    ensures sent.Some? ==> sent.value == UploadRequest(url, token, clientId, fs[path])
    ensures sent.Some? ==> && sent.value.verb == "POST" && sent.value.url == url
                           && sent.value.body == fs[path]
                           && HeaderGet(sent.value.headers, AuthorizationHeader) == Bearer(token)
                           && HeaderGet(sent.value.headers, ClientIdHeader) == clientId
                           && HeaderGet(sent.value.headers, ContentTypeHeader) == OctetStream
    ensures outcome == FileError <==> path !in fs
    ensures outcome == RequestError <==> path in fs && !requestOk
    ensures outcome == TransportError <==> sent.Some? && !transportOk
    ensures outcome == Uploaded <==> sent.Some? && transportOk
  {
    if path !in fs {
      return None, FileError;
    }
    var file := fs[path];
    if !requestOk {
      return None, RequestError;
    }
    var req := Request("POST", url, map[], file);
    req := req.(headers := req.headers[AuthorizationHeader := Bearer(token)]);
    req := req.(headers := req.headers[ClientIdHeader := clientId]);
    req := req.(headers := req.headers[ContentTypeHeader := OctetStream]);
    sent := Some(req);
    if !transportOk {
      return sent, TransportError;
    }
    outcome := Uploaded;
  }

  // ------------------------------------------------------ control session

  datatype SessionState = Dialing | Connected(ws: Conn)

  /** What the environment answers at the session's suspension points. */
  datatype Event = DialSucceeded(ws: Conn) | DialFailed | Received(msg: string) | ReadFailed

  /** What the agent does, in order. */
  datatype Action =
    | Dial(url: string, headers: Headers)
    | Sleep(seconds: nat)
    | Close(ws: Conn)
    | Upload(url: string, token: string, clientId: string, path: string)
    | Ignore(msg: string)

  /** The fixed back-off after a failed dial. */
  const RetryDelaySeconds: nat := 5

  /** The `uploadFile` call made on "DOWNLOAD". */
  function UploadCall(cfg: ClientConfig): Action
  {
    Upload(cfg.uploadUrl, cfg.token, cfg.clientId, cfg.filePath)
  }

  /** A dial answers only a dial, a read only a read. */
  predicate Accepts(s: SessionState, e: Event)
  {
    if s.Dialing? then e.DialSucceeded? || e.DialFailed? else e.Received? || e.ReadFailed?
  }

  function Next(s: SessionState, e: Event): SessionState
    requires Accepts(s, e)
  {
    match e
    case DialSucceeded(ws) => Connected(ws)
    case DialFailed => Dialing
    case ReadFailed => Dialing
    case Received(_) => s
  }

  function Emit(cfg: ClientConfig, s: SessionState, e: Event): seq<Action>
    requires Accepts(s, e)
  {
    match e
    case DialFailed => [Dial(cfg.wsUrl, DialHeaders(cfg)), Sleep(RetryDelaySeconds)]
    case DialSucceeded(_) => [Dial(cfg.wsUrl, DialHeaders(cfg))]
    case ReadFailed => [Close(s.ws)]
    case Received(m) => if m == DownloadCommand then [UploadCall(cfg)] else [Ignore(m)]
  }

  /** Events the environment can deliver, one per suspension point, from state `s`. */
  predicate Admissible(s: SessionState, events: seq<Event>)
    decreases |events|
  {
    events == [] || (Accepts(s, events[0]) && Admissible(Next(s, events[0]), events[1..]))
  }

  function Final(s: SessionState, events: seq<Event>): SessionState
    requires Admissible(s, events)
    decreases |events|
  {
    if events == [] then s else Final(Next(s, events[0]), events[1..])
  }

  function Trace(cfg: ClientConfig, s: SessionState, events: seq<Event>): seq<Action>
    requires Admissible(s, events)
    decreases |events|
  {
    if events == [] then [] else Emit(cfg, s, events[0]) + Trace(cfg, Next(s, events[0]), events[1..])
  }

  /**
   * Consuming the event at position `i`: the accumulated actions followed by the
   * rest of the trace still give the whole trace, and the final state is kept.
   */
  lemma StepAt(cfg: ClientConfig, s: SessionState, events: seq<Event>, i: nat,
               actions: seq<Action>, total: seq<Action>, final: SessionState)
    requires i < |events| && Admissible(s, events[i..])
    requires actions + Trace(cfg, s, events[i..]) == total && Final(s, events[i..]) == final
    ensures Accepts(s, events[i]) && Admissible(Next(s, events[i]), events[i + 1..])
    ensures actions + Emit(cfg, s, events[i]) + Trace(cfg, Next(s, events[i]), events[i + 1..]) == total
    ensures Final(Next(s, events[i]), events[i + 1..]) == final
  {
  }

  /**
   * `main`'s nested loops over a finite stretch of the environment's answers:
   * the outer loop dials (sleeping and retrying on failure), the inner loop
   * reads and dispatches until a read fails.
   */
  method ControlSession(cfg: ClientConfig, events: seq<Event>) returns (actions: seq<Action>, state: SessionState)
    requires Admissible(Dialing, events)
    ensures actions == Trace(cfg, Dialing, events)
    ensures state == Final(Dialing, events)
  {
    ghost var total := Trace(cfg, Dialing, events);
    ghost var final := Final(Dialing, events);
    actions, state := [], Dialing;
    var i := 0;
    assert events[i..] == events;
    while i < |events|
      invariant 0 <= i <= |events|
      invariant i < |events| ==> state.Dialing?
      invariant Admissible(state, events[i..])
      invariant actions + Trace(cfg, state, events[i..]) == total
      invariant Final(state, events[i..]) == final
    {
      var dialed := events[i];
      StepAt(cfg, state, events, i, actions, total, final);
      var dial := Dial(cfg.wsUrl, DialHeaders(cfg));
      i := i + 1;
      if dialed.DialFailed? {
        actions := actions + [dial, Sleep(RetryDelaySeconds)];
        continue;
      }
      var ws := dialed.ws;
      actions := actions + [dial];
      state := Connected(ws);
      while i < |events|
        invariant 0 <= i <= |events|
        invariant state == Connected(ws)
        invariant Admissible(state, events[i..])
        invariant actions + Trace(cfg, state, events[i..]) == total
        invariant Final(state, events[i..]) == final
      {
        var read := events[i];
        StepAt(cfg, state, events, i, actions, total, final);
        i := i + 1;
        if read.ReadFailed? {
          actions := actions + [Close(ws)];
          state := Dialing;
          break;
        }
        if read.msg == DownloadCommand {
          actions := actions + [UploadCall(cfg)];
        } else {
          actions := actions + [Ignore(read.msg)];
        }
      }
    }
    assert events[i..] == [];
  }
}

/** Properties of the control session, stated over its trace. */
module ClientSession {
  import opened Http
  import opened Client

  /** How many elements of `s` satisfy `p`. */
  function Count<T>(s: seq<T>, p: T -> bool): nat
    decreases |s|
  {
    if s == [] then 0 else (if p(s[0]) then 1 else 0) + Count(s[1..], p)
  }

  lemma {:induction false} CountAppend<T>(a: seq<T>, b: seq<T>, p: T -> bool)
    ensures Count(a + b, p) == Count(a, p) + Count(b, p)
    decreases |a|
  {
    if a == [] {
      assert a + b == b;
    } else {
      assert (a + b)[1..] == a[1..] + b;
      CountAppend(a[1..], b, p);
    }
  }

  /** Admissibility and the final state of a history split at any point. */
  lemma {:induction false} FinalAppend(s: SessionState, a: seq<Event>, b: seq<Event>)
    ensures Admissible(s, a + b) <==> Admissible(s, a) && Admissible(Final(s, a), b)
    ensures Admissible(s, a + b) ==> Final(s, a + b) == Final(Final(s, a), b)
    decreases |a|
  {
    if a == [] {
      assert a + b == b;
    } else {
      assert (a + b)[0] == a[0] && (a + b)[1..] == a[1..] + b;
      if Accepts(s, a[0]) {
        FinalAppend(Next(s, a[0]), a[1..], b);
      }
    }
  }

  /**
   * The trace of a history is the trace of its first part followed by the
   * trace of the rest from where the first part left off: each event's actions,
   * the upload included, finish before the next event is consumed.
   */
  lemma {:induction false} TraceAppend(cfg: ClientConfig, s: SessionState, a: seq<Event>, b: seq<Event>)
    requires Admissible(s, a + b)
    ensures Admissible(s, a) && Admissible(Final(s, a), b)
    ensures Trace(cfg, s, a + b) == Trace(cfg, s, a) + Trace(cfg, Final(s, a), b)
    decreases |a|
  {
    FinalAppend(s, a, b);
    if a == [] {
      assert a + b == b;
    } else {
      assert (a + b)[0] == a[0] && (a + b)[1..] == a[1..] + b;
      TraceAppend(cfg, Next(s, a[0]), a[1..], b);
    }
  }

  /** One more event after any history: the state moves by `Next`, the trace grows by `Emit`. */
  lemma Dispatch(cfg: ClientConfig, s: SessionState, h: seq<Event>, e: Event)
    requires Admissible(s, h) && Accepts(Final(s, h), e)
    ensures Admissible(s, h + [e])
    ensures Final(s, h + [e]) == Next(Final(s, h), e)
    ensures Trace(cfg, s, h + [e]) == Trace(cfg, s, h) + Emit(cfg, Final(s, h), e)
  {
    assert [e][1..] == [];
    FinalAppend(s, h, [e]);
    TraceAppend(cfg, s, h, [e]);
  }

  /** A failed dial is followed by the 5-second sleep, and the session dials again. */
  lemma DialFailureRetries(cfg: ClientConfig, s: SessionState, h: seq<Event>)
    requires Admissible(s, h) && Final(s, h).Dialing?
    ensures Admissible(s, h + [DialFailed]) && Final(s, h + [DialFailed]) == Dialing
    ensures Trace(cfg, s, h + [DialFailed]) == Trace(cfg, s, h) + [Dial(cfg.wsUrl, DialHeaders(cfg)), Sleep(5)]
  {
    Dispatch(cfg, s, h, DialFailed);
  }

  /** A successful dial makes the new connection the current one. */
  lemma DialSuccessConnects(cfg: ClientConfig, s: SessionState, h: seq<Event>, ws: Conn)
    requires Admissible(s, h) && Final(s, h).Dialing?
    ensures Admissible(s, h + [DialSucceeded(ws)]) && Final(s, h + [DialSucceeded(ws)]) == Connected(ws)
    ensures Trace(cfg, s, h + [DialSucceeded(ws)]) == Trace(cfg, s, h) + [Dial(cfg.wsUrl, DialHeaders(cfg))]
  {
    Dispatch(cfg, s, h, DialSucceeded(ws));
  }

  /** A read error closes the current connection and returns to dialing. */
  lemma ReadFailureReconnects(cfg: ClientConfig, s: SessionState, h: seq<Event>)
    requires Admissible(s, h) && Final(s, h).Connected?
    ensures Admissible(s, h + [ReadFailed]) && Final(s, h + [ReadFailed]) == Dialing
    ensures Trace(cfg, s, h + [ReadFailed]) == Trace(cfg, s, h) + [Close(Final(s, h).ws)]
  {
    Dispatch(cfg, s, h, ReadFailed);
  }

  /** "DOWNLOAD" causes exactly one upload call, anything else is ignored; either way the session stays connected. */
  lemma MessageDispatch(cfg: ClientConfig, s: SessionState, h: seq<Event>, m: string)
    requires Admissible(s, h) && Final(s, h).Connected?
    ensures Admissible(s, h + [Received(m)]) && Final(s, h + [Received(m)]) == Final(s, h)
    ensures Trace(cfg, s, h + [Received(m)]) ==
              Trace(cfg, s, h) + (if m == DownloadCommand then [UploadCall(cfg)] else [Ignore(m)])
  {
    Dispatch(cfg, s, h, Received(m));
  }

  /** The session is never stuck: whatever it is blocked on, both a success and a failure continue it. */
  lemma SessionNeverTerminates(s: SessionState, h: seq<Event>, ws: Conn, m: string)
    requires Admissible(s, h)
    ensures Final(s, h).Dialing? ==> Admissible(s, h + [DialFailed]) && Admissible(s, h + [DialSucceeded(ws)])
    ensures Final(s, h).Connected? ==> Admissible(s, h + [ReadFailed]) && Admissible(s, h + [Received(m)])
  {
    assert [DialFailed][1..] == [] && [DialSucceeded(ws)][1..] == [];
    assert [ReadFailed][1..] == [] && [Received(m)][1..] == [];
    FinalAppend(s, h, [DialFailed]);
    FinalAppend(s, h, [DialSucceeded(ws)]);
    FinalAppend(s, h, [ReadFailed]);
    FinalAppend(s, h, [Received(m)]);
  }

  /** `n` failed dials in a row. */
  function Failures(n: nat): seq<Event>
  {
    if n == 0 then [] else [DialFailed] + Failures(n - 1)
  }

  function Repeat<T>(block: seq<T>, n: nat): seq<T>
  {
    if n == 0 then [] else block + Repeat(block, n - 1)
  }

  /**
   * Any number of failed dials is met by a sleep and another dial each time,
   * at a constant interval, and a dial that then succeeds connects.
   */
  lemma {:induction false} RetriesIndefinitely(cfg: ClientConfig, n: nat, ws: Conn)
    ensures Admissible(Dialing, Failures(n)) && Final(Dialing, Failures(n)) == Dialing
    ensures Trace(cfg, Dialing, Failures(n)) == Repeat([Dial(cfg.wsUrl, DialHeaders(cfg)), Sleep(RetryDelaySeconds)], n)
    ensures Admissible(Dialing, Failures(n) + [DialSucceeded(ws)])
    ensures Final(Dialing, Failures(n) + [DialSucceeded(ws)]) == Connected(ws)
  {
    if n > 0 {
      assert Failures(n)[0] == DialFailed && Failures(n)[1..] == Failures(n - 1);
      RetriesIndefinitely(cfg, n - 1, ws);
    }
    Dispatch(cfg, Dialing, Failures(n), DialSucceeded(ws));
  }

  predicate IsUpload(a: Action) { a.Upload? }
  predicate IsSleep(a: Action) { a.Sleep? }
  predicate IsClose(a: Action) { a.Close? }
  predicate IsDial(a: Action) { a.Dial? }
  predicate IsDownload(e: Event) { e == Received(DownloadCommand) }
  predicate IsDialFailure(e: Event) { e.DialFailed? }
  predicate IsReadFailure(e: Event) { e.ReadFailed? }
  predicate IsDialOutcome(e: Event) { e.DialSucceeded? || e.DialFailed? }

  /**
   * Over any history: one upload per "DOWNLOAD" received, one sleep per failed
   * dial, one close per read error, one dial per dial outcome.
   */
  lemma {:induction false} Accounting(cfg: ClientConfig, s: SessionState, events: seq<Event>)
    requires Admissible(s, events)
    ensures Count(Trace(cfg, s, events), IsUpload) == Count(events, IsDownload)
    ensures Count(Trace(cfg, s, events), IsSleep) == Count(events, IsDialFailure)
    ensures Count(Trace(cfg, s, events), IsClose) == Count(events, IsReadFailure)
    ensures Count(Trace(cfg, s, events), IsDial) == Count(events, IsDialOutcome)
    decreases |events|
  {
    if events != [] {
      var e := events[0];
      var emitted := Emit(cfg, s, e);
      var rest := Trace(cfg, Next(s, e), events[1..]);
      Accounting(cfg, Next(s, e), events[1..]);
      CountAppend(emitted, rest, IsUpload);
      CountAppend(emitted, rest, IsSleep);
      CountAppend(emitted, rest, IsClose);
      CountAppend(emitted, rest, IsDial);
      if e.DialFailed? {
        assert emitted[1..][1..] == [];
      } else {
        assert emitted[1..] == [];
      }
    }
  }

  /** Every dial in any trace goes to the configured URL with the credential and identity headers. */
  lemma {:induction false} EveryDialPresentsCredentials(cfg: ClientConfig, s: SessionState, events: seq<Event>)
    requires Admissible(s, events)
    ensures forall a :: a in Trace(cfg, s, events) && a.Dial? ==>
              a.url == cfg.wsUrl && a.headers == DialHeaders(cfg)
              && a.headers[AuthorizationHeader] == Bearer(cfg.token) && a.headers[ClientIdHeader] == cfg.clientId
    decreases |events|
  {
    if events != [] {
      EveryDialPresentsCredentials(cfg, Next(s, events[0]), events[1..]);
    }
  }

  /**
   * Reading happens on the connection from the most recent successful dial:
   * when the session is connected, the last dial outcome delivered that
   * connection and only messages have been read since.
   */
  lemma {:induction false} ConnectionFromLastDial(h: seq<Event>, ws: Conn)
    requires Admissible(Dialing, h) && Final(Dialing, h) == Connected(ws)
    ensures exists k :: 0 <= k < |h| && h[k] == DialSucceeded(ws) && forall j :: k < j < |h| ==> h[j].Received?
    decreases |h|
  {
    var n := |h| - 1;
    var pre := h[..n];
    assert h == pre + [h[n]];
    assert [h[n]][1..] == [];
    FinalAppend(Dialing, pre, [h[n]]);
    if h[n].DialSucceeded? {
      assert h[n] == DialSucceeded(ws);
    } else {
      assert h[n].Received?;
      ConnectionFromLastDial(pre, ws);
      var k :| 0 <= k < |pre| && pre[k] == DialSucceeded(ws) && forall j :: k < j < |pre| ==> pre[j].Received?;
      assert h[k] == pre[k];
      assert forall j :: k < j < |h| ==> h[j].Received? by {
        forall j | k < j < |h| ensures h[j].Received? {
          if j < n { assert h[j] == pre[j]; }
        }
      }
    }
  }
}
