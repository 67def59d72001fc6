/**
 * The reverse proxy's server options, its root handler and server
 * construction (ja3rp.go, lines 12-78).
 */
module Ja3rp {
  import opened Wrappers
  import opened Access
  import opened Digest
  import opened Http

  const StatusOK: int := 200
  const StatusForbidden: int := 403

  /** A caller-supplied handler function, known only by its identity. */
  type FuncId = nat

  /** What a mux pattern is bound to: the proxy's root handler over some options, or a caller's function. */
  datatype Handler = Root(options: Options) | Func(id: FuncId)

  /** `ServerOptions`: the upstream, the mux, the two digest lists and the blocked-request callback. */
  datatype Options = Options(
    destination: Option<Url>,
    mux: Mux?,
    whitelist: seq<string>,
    blacklist: seq<string>,
    onBlocked: Option<FuncId>)

  /** A request multiplexer, seen only through its pattern registrations. */
  class Mux {
    var handlers: map<string, Handler>

    /** `NewMux`: no pattern is registered. */
    constructor ()
      ensures handlers == map[]
    {
      handlers := map[];
    }

    /** Binds `pattern` to `handler`, replacing an earlier binding of the same pattern. */
    method HandleFunc(pattern: string, handler: Handler)
      modifies this
      ensures handlers == old(handlers)[pattern := handler]
    {
      handlers := handlers[pattern := handler];
    }
  }

  /** The server returned to the caller: its listen address and the mux serving it. */
  datatype Server = Server(addr: string, handler: Mux)

  /**
   * What the root handler did with a request. `Blocked` carries the status and the
   * text the handler wrote itself, and whether it handed the response to the
   * `OnBlocked` callback; `Granted` is the diagnostic reply; `Forwarded` is the
   * rewritten request handed to the reverse proxy for `target`.
   */
  datatype Outcome =
    | Blocked(status: int, body: string, calledOnBlocked: bool)
    | Granted(status: int, body: string)
    | Forwarded(target: Url, outbound: RequestView)

  /**
   * `handleRoot`: refuses requests whose digest fails the access check, reports
   * the digest when there is no destination, and otherwise rewrites the
   * request in place for the destination and forwards it.
   */
  method HandleRoot(options: Options, md5: string -> Md5Sum, r: Request) returns (out: Outcome)
    modifies r
    ensures var digest := JA3Digest(md5, old(r.ja3));
      Decide(digest, options.whitelist, options.blacklist) == Forbidden ==>
        && out == (if options.onBlocked.Some? then Blocked(StatusForbidden, "", true)
                   else Blocked(StatusForbidden, "Access forbidden.", false))
        && r.View() == old(r.View())
    ensures var digest := JA3Digest(md5, old(r.ja3));
      Decide(digest, options.whitelist, options.blacklist) == Accepted && options.destination.None? ==>
        && out == Granted(StatusOK, "Access granted. JA3 hash: " + digest)
        && r.View() == old(r.View())
    ensures var digest := JA3Digest(md5, old(r.ja3));
      Decide(digest, options.whitelist, options.blacklist) == Accepted && options.destination.Some? ==>
        && r.View() == RewrittenAsWritten(old(r.View()), options.destination.value)
        && out == Forwarded(options.destination.value, r.View())
  {
    var digest := JA3Digest(md5, r.ja3);

    if Decide(digest, options.whitelist, options.blacklist) == Forbidden {
      // the status line is written first, whoever writes the body
      var status := StatusForbidden;
      if options.onBlocked.Some? {
        out := Blocked(status, "", true);
      } else {
        out := Blocked(status, "Access forbidden.", false);
      }
      return;
    }

    if options.destination.None? {
      // the first write of a body implies status 200
      out := Granted(StatusOK, "Access granted. JA3 hash: " + digest);
      return;
    }

    var dest := options.destination.value;
    r.urlHost := dest.host;
    r.urlScheme := dest.scheme;
    r.header := HeaderSet(r.header, "X-Forwarded-Host", HeaderGet(r.header, "Host"));
    r.host := dest.host;
    out := Forwarded(dest, r.View());
  }

  /**
   * `NewServer`: uses a fresh mux when the options name none, binds `/` to the
   * root handler over those options, and serves that mux on `addr`.
   */
  method NewServer(addr: string, options: Options) returns (srv: Server)
    modifies if options.mux == null then {} else {options.mux}
    ensures srv.addr == addr
    ensures options.mux != null ==> srv.handler == options.mux
    ensures options.mux == null ==> fresh(srv.handler)
    ensures var before := if options.mux == null then map[] else old(options.mux.handlers);
      srv.handler.handlers == before["/" := Root(options.(mux := srv.handler))]
  {
    var opts := options;
    if opts.mux == null {
      var m := new Mux();
      opts := opts.(mux := m);
    }
    opts.mux.HandleFunc("/", Root(opts));
    srv := Server(addr, opts.mux);
  }

  /**
   * The server test's set-up: a caller's own mux passed to NewServer and then
   * given its own `/` handler serves that handler, not the root handler.
   */
  method ServerWithOwnRootHandler(addr: string, id: FuncId) returns (srv: Server)
    ensures srv.addr == addr
    ensures srv.handler.handlers == map["/" := Func(id)]
  {
    var mux := new Mux();
    srv := NewServer(addr, Options(None, mux, [], [], None));
    mux.HandleFunc("/", Func(id));
  }
}
