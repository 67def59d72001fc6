/**
 * The parts of an HTTP request that the root handler reads or rewrites,
 * and the upstream URL it forwards to.
 */
module Http {

  /** The destination URL: the root handler reads only its scheme and host. */
  datatype Url = Url(scheme: string, host: string)

  /** Header fields, one value per (canonical) key. */
  type Header = map<string, string>

  /** `Header.Get`: the value stored under `key`, or the empty string. */
  function HeaderGet(h: Header, key: string): string
  {
    if key in h then h[key] else ""
  }

  /** `Header.Set`: `key` now holds exactly `value`. */
  function HeaderSet(h: Header, key: string, value: string): (h': Header)
    ensures h'.Keys == h.Keys + {key}
    ensures HeaderGet(h', key) == value
    ensures forall k :: k != key ==> HeaderGet(h', k) == HeaderGet(h, k)
  {
    h[key := value]
  }

  /** A snapshot of every request field the model tracks. */
  datatype RequestView = RequestView(
    httpMethod: string,
    urlScheme: string,
    urlHost: string,
    urlPath: string,
    urlRawQuery: string,
    host: string,
    header: Header,
    ja3: string)

  /** A request as the server hands it to a handler; the handler may update it in place. */
  class Request {
    var httpMethod: string
    var urlScheme: string
    var urlHost: string
    var urlPath: string
    var urlRawQuery: string
    var host: string
    var header: Header
    /** The JA3 string of the TLS connection the request arrived on. */
    var ja3: string

    constructor (v: RequestView)
      ensures View() == v
    {
      httpMethod, urlScheme, urlHost, urlPath, urlRawQuery := v.httpMethod, v.urlScheme, v.urlHost, v.urlPath, v.urlRawQuery;
      host, header, ja3 := v.host, v.header, v.ja3;
    }

    function View(): RequestView
      reads this
    {
      RequestView(httpMethod, urlScheme, urlHost, urlPath, urlRawQuery, host, header, ja3)
    }
  }

  /**
   * The forwarding rewrite of ja3rp.go, lines 58-61, as written: URL host,
   * URL scheme, `X-Forwarded-Host` copied from the `Host` header entry, then
   * the request host.
   */
  function RewrittenAsWritten(v: RequestView, dest: Url): (w: RequestView)
    ensures w.urlHost == dest.host && w.host == dest.host && w.urlScheme == dest.scheme
    ensures "X-Forwarded-Host" in w.header
    ensures w.header["X-Forwarded-Host"] == HeaderGet(v.header, "Host")
  {
    var v1 := v.(urlHost := dest.host);
    var v2 := v1.(urlScheme := dest.scheme);
    var v3 := v2.(header := HeaderSet(v2.header, "X-Forwarded-Host", HeaderGet(v2.header, "Host")));
    v3.(host := dest.host)
  }

  /**
   * The forwarding rewrite with `X-Forwarded-Host` taken from the request host
   * the client addressed, read before that host is replaced.
   */
  function Rewritten(v: RequestView, dest: Url): (w: RequestView)
    ensures w.urlHost == dest.host && w.host == dest.host && w.urlScheme == dest.scheme
    // the upstream can recover the client-facing host
    ensures "X-Forwarded-Host" in w.header && w.header["X-Forwarded-Host"] == v.host
  {
    var v1 := v.(urlHost := dest.host);
    var v2 := v1.(urlScheme := dest.scheme);
    var v3 := v2.(header := HeaderSet(v2.header, "X-Forwarded-Host", v2.host));
    v3.(host := dest.host)
  }

  /** The corrected rewrite changes nothing but the URL host and scheme, the request host and `X-Forwarded-Host`. */
  lemma RewriteFrame(v: RequestView, dest: Url)
    ensures var w := Rewritten(v, dest);
      && w.httpMethod == v.httpMethod && w.urlPath == v.urlPath && w.urlRawQuery == v.urlRawQuery
      && w.ja3 == v.ja3
      && w.header.Keys == v.header.Keys + {"X-Forwarded-Host"}
      && forall k :: k in v.header && k != "X-Forwarded-Host" ==> w.header[k] == v.header[k]
  {
  }

  /** The rewrite as written changes nothing but the URL host and scheme, the request host and `X-Forwarded-Host`. */
  lemma AsWrittenFrame(v: RequestView, dest: Url)
    ensures var w := RewrittenAsWritten(v, dest);
      && w.httpMethod == v.httpMethod && w.urlPath == v.urlPath && w.urlRawQuery == v.urlRawQuery
      && w.ja3 == v.ja3
      && w.header.Keys == v.header.Keys + {"X-Forwarded-Host"}
      && forall k :: k in v.header && k != "X-Forwarded-Host" ==> w.header[k] == v.header[k]
  {
  }

  /** Without a `Host` header entry, the rewrite as written forwards an empty host. */
  lemma AsWrittenForwardsEmptyHost(v: RequestView, dest: Url)
    requires "Host" !in v.header
    ensures RewrittenAsWritten(v, dest).header["X-Forwarded-Host"] == ""
  {
  }

  /** A request for `client.example` with no `Host` header entry: the two rewrites disagree. */
  lemma AsWrittenLosesClientHost(dest: Url)
    ensures var v := RequestView("GET", "", "", "/", "", "client.example", map[], "");
      && RewrittenAsWritten(v, dest).header["X-Forwarded-Host"] == ""
      && Rewritten(v, dest).header["X-Forwarded-Host"] == "client.example"
  {
  }

  /** When the `Host` header entry holds the request host, the two rewrites agree. */
  lemma AsWrittenAgreesWithHostEntry(v: RequestView, dest: Url)
    requires HeaderGet(v.header, "Host") == v.host
    ensures RewrittenAsWritten(v, dest) == Rewritten(v, dest)
  {
  }
}
