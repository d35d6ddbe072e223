/**
 * The agent and the coordinator together: what the agent sends is what the
 * coordinator's checks expect, and the command the coordinator broadcasts is
 * the one the agent acts on.
 */
module EndToEnd {
  import opened Wrappers
  import opened Http
  import Server
  import Client
  import ClientSession

  /** A request carrying (at least) the agent's dial headers. */
  predicate CarriesDialHeaders(r: Request, cfg: Client.ClientConfig)
  {
    forall k :: k in Client.DialHeaders(cfg) ==> k in r.headers && r.headers[k] == Client.DialHeaders(cfg)[k]
  }

  /**
   * The agent's dial is registered under its id by a coordinator holding the
   * same token, and rejected with 401 by one holding any other.
   */
  lemma DialRegistersAgent(cfg: Client.ClientConfig, apiKey: string, r: Request, conn: Conn, clients: map<string, Conn>)
    requires CarriesDialHeaders(r, cfg)
    ensures cfg.token == apiKey && cfg.clientId != "" ==>
              && Server.WsDecision(r, apiKey, Some(conn)) == Server.Registered(cfg.clientId, conn)
              && var after := Server.RegistryAfter(clients, Server.WsDecision(r, apiKey, Some(conn)));
                 cfg.clientId in after && after[cfg.clientId] == conn
    ensures cfg.token != apiKey ==>
              && Server.WsDecision(r, apiKey, Some(conn)).WsRejected?
              && Server.WsDecision(r, apiKey, Some(conn)).reply.status == Server.Unauthorized
              && Server.RegistryAfter(clients, Server.WsDecision(r, apiKey, Some(conn))) == clients
  {
  }

  /**
   * An upload of the agent's file, delivered whole to a coordinator holding
   * the same token, is answered 200 and leaves exactly the file's bytes in the
   * agent's destination, whatever was there before.
   */
  lemma UploadRoundTrip(cfg: Client.ClientConfig, apiKey: string, fs: map<string, seq<byte>>,
                        files: map<string, seq<byte>>)
    requires cfg.token == apiKey && cfg.clientId != "" && cfg.filePath in fs
    ensures var req := Client.UploadRequest(cfg.uploadUrl, cfg.token, cfg.clientId, fs[cfg.filePath]);
            && Server.UploadReply(req, apiKey, true) == Server.Response(Server.OK, "")
            && var after := Server.StoreUpload(files, req, apiKey, true, |req.body|);
               && Server.DestinationName(cfg.clientId) in after
               && after[Server.DestinationName(cfg.clientId)] == fs[cfg.filePath]
  {
  }

  /** An upload with the wrong token is refused with 401 and no file is created or changed. */
  lemma WrongTokenUploadRefused(cfg: Client.ClientConfig, apiKey: string, body: seq<byte>,
                                files: map<string, seq<byte>>, createOk: bool, copied: nat)
    requires cfg.token != apiKey && copied <= |body|
    ensures var req := Client.UploadRequest(cfg.uploadUrl, cfg.token, cfg.clientId, body);
            && Server.UploadReply(req, apiKey, createOk).status == Server.Unauthorized
            && Server.StoreUpload(files, req, apiKey, createOk, copied) == files
  {
  }

  /** Every message a trigger sends makes a connected agent call `uploadFile` once. */
  lemma BroadcastTriggersUpload(batch: seq<Server.Delivery>, clients: map<string, Conn>, i: nat,
                                cfg: Client.ClientConfig, s: Client.SessionState, h: seq<Client.Event>)
    requires Server.IsBroadcast(batch, clients, DownloadCommand) && i < |batch|
    requires Client.Admissible(s, h) && Client.Final(s, h).Connected?
    ensures Client.Admissible(s, h + [Client.Received(batch[i].msg)])
    ensures Client.Trace(cfg, s, h + [Client.Received(batch[i].msg)]) == Client.Trace(cfg, s, h) + [Client.UploadCall(cfg)]
  {
    ClientSession.MessageDispatch(cfg, s, h, batch[i].msg);
  }
}
