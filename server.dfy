/**
 * The coordinator: the credential gate, the control-channel registration
 * handler, the broadcast trigger and the upload receiver. Each handler runs
 * as one atomic step (the registry mutex makes it so for the map).
 */
module Server {
  import opened Wrappers
  import opened Config
  import opened Http

  // ---------------------------------------------------------------- startup

  datatype ServerConfig = ServerConfig(apiKey: string, port: string)

  /** `main` reads API_TOKEN, then SERVER_PORT; either one missing is fatal. */
  function ServerStartup(env: Env): (r: Result<ServerConfig, Fatal>)
    ensures r.Ok? <==> Getenv(env, "API_TOKEN") != "" && Getenv(env, "SERVER_PORT") != ""
    ensures r.Ok? ==> r.value.apiKey == env["API_TOKEN"] && r.value.port == env["SERVER_PORT"]
    ensures r.Err? ==> r.error == MissingEnv(if Getenv(env, "API_TOKEN") == "" then "API_TOKEN" else "SERVER_PORT")
  {
    var keys := ["API_TOKEN", "SERVER_PORT"];
    match MustEnvAll(env, keys)
    case Err(e) => Err(e)
    case Ok(vs) => Ok(ServerConfig(vs[0], vs[1]))
  }

  // -------------------------------------------------------------- responses

  datatype Status = OK | BadRequest | Unauthorized | InternalError {
    /** The HTTP status code written for this outcome. */
    function Code(): int {
      match this
      case OK => 200
      case BadRequest => 400
      case Unauthorized => 401
      case InternalError => 500
    }
  }

  datatype Response = Response(status: Status, body: string)

  /** `http.Error` writes the message followed by a newline. */
  function ErrorReply(status: Status, msg: string): Response
  {
    Response(status, msg + "\n")
  }

  // --------------------------------------------------------- credential gate

  /** `authorized`: the Authorization header is exactly "Bearer " + apiKey. */
  predicate Authorized(r: Request, apiKey: string)
    ensures Authorized(r, apiKey) <==>
              var h := HeaderGet(r.headers, AuthorizationHeader);
              |h| >= |BearerPrefix| && h[..|BearerPrefix|] == BearerPrefix && h[|BearerPrefix|..] == apiKey
    ensures AuthorizationHeader !in r.headers ==> !Authorized(r, apiKey)
  {
    BearerSplit(HeaderGet(r.headers, AuthorizationHeader), apiKey);
    HeaderGet(r.headers, AuthorizationHeader) == Bearer(apiKey)
  }

  /** The `X-Client-ID` header, "" when absent. */
  function ClientId(r: Request): string
  {
    HeaderGet(r.headers, ClientIdHeader)
  }

  datatype Admission = Rejected(reply: Response) | Admitted(id: string)

  /** The checks both `wsHandler` and `uploadHandler` make first: credential, then identity. */
  function Admit(r: Request, apiKey: string): (a: Admission)
    ensures a.Admitted? <==> Authorized(r, apiKey) && ClientId(r) != ""
    ensures a.Admitted? ==> a.id == ClientId(r) && a.id != ""
    ensures a.Rejected? && a.reply.status == Unauthorized <==> !Authorized(r, apiKey)
    ensures a.Rejected? && a.reply.status == BadRequest <==> Authorized(r, apiKey) && ClientId(r) == ""
  {
    if !Authorized(r, apiKey) then Rejected(ErrorReply(Unauthorized, "unauthorized"))
    else if ClientId(r) == "" then Rejected(ErrorReply(BadRequest, "missing client id"))
    else Admitted(ClientId(r))
  }

  /** A bad credential is rejected with 401 whatever X-Client-ID says, present or not. */
  lemma CredentialCheckedFirst(r: Request, apiKey: string, id: Option<string>)
    requires !Authorized(r, apiKey)
    ensures var r' := if id.Some? then r.(headers := r.headers[ClientIdHeader := id.value])
                      else r.(headers := r.headers - {ClientIdHeader});
            Admit(r', apiKey) == Rejected(ErrorReply(Unauthorized, "unauthorized"))
  {
  }

  // ------------------------------------------------- control-channel upgrade

  datatype WsOutcome = WsRejected(reply: Response) | UpgradeFailed | Registered(id: string, conn: Conn)

  /**
   * `wsHandler`'s decision. `upgraded` is what `upgrader.Upgrade` yields if it is
   * reached: the new connection, or None when the handshake fails (the upgrader
   * then writes its own error reply).
   */
  function WsDecision(r: Request, apiKey: string, upgraded: Option<Conn>): (o: WsOutcome)
    ensures o.WsRejected? <==> Admit(r, apiKey).Rejected?
    ensures o.WsRejected? ==> o.reply == Admit(r, apiKey).reply
    ensures o.UpgradeFailed? <==> Admit(r, apiKey).Admitted? && upgraded.None?
    ensures o.Registered? <==> Admit(r, apiKey).Admitted? && upgraded.Some?
    ensures o.Registered? ==> o.id == ClientId(r) && o.conn == upgraded.value
  {
    match Admit(r, apiKey)
    case Rejected(reply) => WsRejected(reply)
    case Admitted(id) => if upgraded.None? then UpgradeFailed else Registered(id, upgraded.value)
  }

  /** The registry after one control-channel request: only a registration changes it. */
  function RegistryAfter(clients: map<string, Conn>, o: WsOutcome): map<string, Conn>
  {
    if o.Registered? then clients[o.id := o.conn] else clients
  }

  /**
   * A registration is an upsert: the id now maps to the new connection, every
   * other entry is as it was, and the key set grows by one only for a new id.
   */
  lemma RegistrationUpsert(clients: map<string, Conn>, o: WsOutcome)
    requires o.Registered?
    ensures var m := RegistryAfter(clients, o);
            && m.Keys == clients.Keys + {o.id}
            && m[o.id] == o.conn
            && (forall k :: k in clients && k != o.id ==> m[k] == clients[k])
            && |m| == if o.id in clients then |clients| else |clients| + 1
  {
  }

  // ---------------------------------------------------------------- trigger

  /** One `WriteMessage` call: the entry it addressed and what it sent. */
  datatype Delivery = Delivery(id: string, conn: Conn, msg: string)

  /**
   * `batch` sends `msg` once to each id of `done`, to the connection the
   * registry holds for it, and to nothing else.
   */
  ghost predicate BroadcastSoFar(batch: seq<Delivery>, clients: map<string, Conn>, done: set<string>, msg: string)
  {
    && done <= clients.Keys
    && (forall i :: 0 <= i < |batch| ==>
          batch[i].id in done && batch[i].conn == clients[batch[i].id] && batch[i].msg == msg)
    && (forall i, j :: 0 <= i < j < |batch| ==> batch[i].id != batch[j].id)
    && (forall id :: id in done ==> exists i :: 0 <= i < |batch| && batch[i].id == id)
  }

  /** Exactly one send of `msg` to every registered connection. */
  ghost predicate IsBroadcast(batch: seq<Delivery>, clients: map<string, Conn>, msg: string)
  {
    BroadcastSoFar(batch, clients, clients.Keys, msg)
  }

  lemma BroadcastStep(batch: seq<Delivery>, clients: map<string, Conn>, done: set<string>, msg: string, id: string)
    requires BroadcastSoFar(batch, clients, done, msg)
    requires id in clients && id !in done
    ensures BroadcastSoFar(batch + [Delivery(id, clients[id], msg)], clients, done + {id}, msg)
  {
    var b := batch + [Delivery(id, clients[id], msg)];
    forall x | x in done + {id} ensures exists i :: 0 <= i < |b| && b[i].id == x {
      if x == id {
        assert b[|batch|].id == x;
      } else {
        var i :| 0 <= i < |batch| && batch[i].id == x;
        assert b[i].id == x;
      }
    }
  }

  /** The number of sends is the number of ids addressed: one per registered client. */
  lemma {:induction false} BroadcastSize(batch: seq<Delivery>, clients: map<string, Conn>, done: set<string>, msg: string)
    requires BroadcastSoFar(batch, clients, done, msg)
    ensures |batch| == |done|
  {
    if |batch| == 0 {
      assert forall id :: id !in done;
      assert done == {};
    } else {
      var n := |batch| - 1;
      var last := batch[n];
      var prefix := batch[..n];
      var rest := done - {last.id};
      forall id | id in rest ensures exists i :: 0 <= i < |prefix| && prefix[i].id == id {
        var i :| 0 <= i < |batch| && batch[i].id == id;
        assert prefix[i].id == id;
      }
      BroadcastSize(prefix, clients, rest, msg);
    }
  }

  /** With no client registered the trigger sends nothing. */
  lemma EmptyRegistryNoSends(batch: seq<Delivery>, clients: map<string, Conn>, msg: string)
    requires IsBroadcast(batch, clients, msg)
    requires clients == map[]
    ensures batch == []
  {
    BroadcastSize(batch, clients, clients.Keys, msg);
  }

  // ----------------------------------------------------------------- upload

  const DestinationPrefix: string := "received_"
  const DestinationSuffix: string := ".txt"

  /** The file an upload from `id` is written to. */
  function DestinationName(id: string): string
  {
    DestinationPrefix + id + DestinationSuffix
  }

  /** Distinct ids are written to distinct names. */
  lemma DestinationNameInjective(a: string, b: string)
    requires DestinationName(a) == DestinationName(b)
    ensures a == b
  {
    var n := DestinationName(a);
    assert |a| == |b|;
    assert a == n[|DestinationPrefix|..|DestinationPrefix| + |a|];
    assert b == DestinationName(b)[|DestinationPrefix|..|DestinationPrefix| + |b|];
  }

  /** `uploadHandler`'s reply; `createOk` says whether `os.Create` succeeds if reached. */
  function UploadReply(r: Request, apiKey: string, createOk: bool): (resp: Response)
    ensures resp.status == Unauthorized <==> !Authorized(r, apiKey)
    ensures resp.status == BadRequest <==> Authorized(r, apiKey) && ClientId(r) == ""
    ensures resp.status == InternalError <==> Authorized(r, apiKey) && ClientId(r) != "" && !createOk
    ensures resp.status == OK <==> Authorized(r, apiKey) && ClientId(r) != "" && createOk
    ensures resp.status == OK ==> resp.body == ""
    ensures resp.status.Code() == if !Authorized(r, apiKey) then 401
                                  else if ClientId(r) == "" then 400
                                  else if !createOk then 500
                                  else 200
  {
    match Admit(r, apiKey)
    case Rejected(reply) => reply
    case Admitted(_) => if createOk then Response(OK, "") else ErrorReply(InternalError, "file error")
  }

  /**
   * The received files after one upload. `copied` is how many body bytes
   * `io.Copy` moved before it stopped; its error is discarded, so a short copy
   * is still answered 200 and leaves the truncated file behind.
   */
  function StoreUpload(files: map<string, seq<byte>>, r: Request, apiKey: string, createOk: bool, copied: nat)
    : map<string, seq<byte>>
    requires copied <= |r.body|
  {
    if UploadReply(r, apiKey, createOk).status == OK
    then files[DestinationName(ClientId(r)) := r.body[..copied]]
    else files
  }

  /** A rejected or failed upload leaves every file as it was. */
  lemma RejectedUploadWritesNothing(files: map<string, seq<byte>>, r: Request, apiKey: string, createOk: bool, copied: nat)
    requires copied <= |r.body|
    requires UploadReply(r, apiKey, createOk).status != OK
    ensures StoreUpload(files, r, apiKey, createOk, copied) == files
  {
  }

  /** A complete upload replaces whatever the destination held with exactly the body. */
  lemma UploadStoresBody(files: map<string, seq<byte>>, r: Request, apiKey: string)
    requires Authorized(r, apiKey) && ClientId(r) != ""
    ensures var after := StoreUpload(files, r, apiKey, true, |r.body|);
            DestinationName(ClientId(r)) in after && after[DestinationName(ClientId(r))] == r.body
  {
  }

  /** An upload from one id never touches the file of another id. */
  lemma UploadIsolation(files: map<string, seq<byte>>, r: Request, apiKey: string, createOk: bool, copied: nat, other: string)
    requires copied <= |r.body|
    requires other != ClientId(r)
    ensures var after := StoreUpload(files, r, apiKey, createOk, copied);
            var name := DestinationName(other);
            (name in after <==> name in files) && (name in files ==> after[name] == files[name])
  {
    if DestinationName(other) == DestinationName(ClientId(r)) {
      DestinationNameInjective(other, ClientId(r));
    }
  }

  // ------------------------------------------------------------- the state

  /** The received files in the coordinator's working directory. */
  class Disk {
    var files: map<string, seq<byte>>
  }

  /** The coordinator process: its key, the `clients` registry and the sends it has made. */
  class Coordinator {
    const apiKey: string
    var clients: map<string, Conn>
    ghost var sent: seq<Delivery>

    constructor (config: ServerConfig)
      ensures apiKey == config.apiKey && clients == map[] && sent == []
    {
      apiKey := config.apiKey;
      clients := map[];
      sent := [];
    }

    /** `wsHandler`: validate, upgrade, then register (replacing any previous entry for the id). */
    method WsHandler(r: Request, upgraded: Option<Conn>) returns (outcome: WsOutcome)
      modifies this`clients
      ensures outcome == WsDecision(r, apiKey, upgraded)
      ensures clients == RegistryAfter(old(clients), outcome)
    {
      if !Authorized(r, apiKey) {
        return WsRejected(ErrorReply(Unauthorized, "unauthorized"));
      }
      var clientId := HeaderGet(r.headers, ClientIdHeader);
      if clientId == "" {
        return WsRejected(ErrorReply(BadRequest, "missing client id"));
      }
      if upgraded.None? {
        return UpgradeFailed;
      }
      var conn := upgraded.value;
      clients := clients[clientId := conn];
      outcome := Registered(clientId, conn);
    }

    /**
     * `triggerHandler`: write "DOWNLOAD" to every registered connection, in the
     * map's (unspecified) order, ignoring write errors, then reply.
     */
    method TriggerHandler() returns (resp: Response)
      modifies this`sent
      ensures resp == Response(OK, "Trigger sent")
      ensures |sent| >= |old(sent)| && sent[..|old(sent)|] == old(sent)
      ensures IsBroadcast(sent[|old(sent)|..], clients, DownloadCommand)
    {
      ghost var start := |sent|;
      var pending := clients.Keys;
      while pending != {}
        invariant pending <= clients.Keys
        invariant start <= |sent| && sent[..start] == old(sent)
        invariant BroadcastSoFar(sent[start..], clients, clients.Keys - pending, DownloadCommand)
        decreases pending
      {
        var id :| id in pending;
        ghost var batch := sent[start..];
        BroadcastStep(batch, clients, clients.Keys - pending, DownloadCommand, id);
        sent := sent + [Delivery(id, clients[id], DownloadCommand)];
        assert sent[start..] == batch + [Delivery(id, clients[id], DownloadCommand)];
        assert clients.Keys - (pending - {id}) == (clients.Keys - pending) + {id};
        pending := pending - {id};
      }
      assert clients.Keys - pending == clients.Keys;
      resp := Response(OK, "Trigger sent");
    }

    /** `uploadHandler`: validate, create the destination, copy the body, reply. */
    method UploadHandler(r: Request, disk: Disk, createOk: bool, copied: nat) returns (resp: Response)
      requires copied <= |r.body|
      modifies disk
      ensures resp == UploadReply(r, apiKey, createOk)
      ensures disk.files == StoreUpload(old(disk.files), r, apiKey, createOk, copied)
    {
      if !Authorized(r, apiKey) {
        return ErrorReply(Unauthorized, "unauthorized");
      }
      var clientId := HeaderGet(r.headers, ClientIdHeader);
      if clientId == "" {
        return ErrorReply(BadRequest, "missing client id");
      }
      if !createOk {
        return ErrorReply(InternalError, "file error");
      }
      disk.files := disk.files[DestinationName(clientId) := r.body[..copied]];
      resp := Response(OK, "");
    }
  }
}
