# ja3rp: a Dafny model of the JA3 request gate

ja3rp is a TLS-terminating reverse proxy. It fingerprints each client by the
JA3 string of its TLS ClientHello, turns that string into a JA3 digest (the MD5
sum in lowercase hex), and lets the digest decide what happens to each request:

- a digest on the blacklist, or one missing from a non-empty whitelist, is
  refused with status 403;
- otherwise, with no destination configured, the proxy replies with the digest
  (diagnostic mode);
- otherwise the request is rewritten for the destination and handed to a
  single-host reverse proxy.

This project models that gate, the digest rendering and server construction
from `ja3rp.go`:

- `Access` (`access.dfy`): the `inArray` membership test and the access
  decision of line 41. The decision's contract states blacklist precedence
  and the empty and non-empty whitelist rules. Lemmas show order and
  duplicate insensitivity and monotonicity.
- `Hex` (`hex.dfy`): `hex.EncodeToString` written out, with its inverse and
  both round trips.
- `Digest` (`digest.dfy`): `JA3Digest` over an abstract MD5 function.
- `Http` (`request.dfy`): the request as a class whose fields the handler
  updates in place, header `Get`/`Set`, and the forwarding rewrite in two
  versions, as written and corrected, each with its frame lemma.
- `Ja3rp` (`ja3rp.dfy`): `ServerOptions`, the mux as a class holding its
  pattern registrations, `handleRoot` and `NewServer` as methods.
- `Wrappers` (`wrappers.dfy`): an `Option` type.

The access lists are slices. Only membership counts:
`Access.DecideMatchesSets` and `Access.DecideDependsOnlyOnMembership` show
that the verdict depends on nothing else.

The forwarding rewrite has two versions. `Http.RewrittenAsWritten` follows
line 60 exactly. It copies `X-Forwarded-Host` from the request's `Host` header
entry (`r.Header.Get("Host")`), which is the empty string when that entry is
absent. `HandleRoot` performs this rewrite. `Http.Rewritten` is the
corrected form: it takes the value from the request's host field, read before
that field is replaced. See "## Findings".

Mux registration replaces an earlier binding of the same pattern. The mux's
own source is not part of this model. The replacement rule comes from the
server test (`ja3rp_test.go:96-104`), which binds `/` again after `NewServer`
and expects its own handler to answer.

## Model

| member | source | states |
|---|---|---|
| Access.InArray | ja3rp.go:41 | the lookup is true exactly when the digest is an entry of the list (exact, case-sensitive comparison) |
| Access.Decide | ja3rp.go:41 | a blacklisted digest is forbidden whatever the whitelist holds; with an empty whitelist every digest not on the blacklist is accepted; with a non-empty whitelist a digest not on the blacklist is accepted exactly when it is on the whitelist |
| Access.DecideMatchesSets | ja3rp.go:22-32 | deciding over the two slices gives the same verdict as the documented rule over the allow-set and the deny-set of their entries |
| Access.DecideDependsOnlyOnMembership | ja3rp.go:41 | two whitelists with the same entries and two blacklists with the same entries give the same verdict, so reordering or duplicating entries changes nothing |
| Access.BlacklistMonotone | ja3rp.go:41 | a digest that is forbidden stays forbidden when entries are appended to the blacklist |
| Access.WhitelistWidening | ja3rp.go:41 | appending entries to a non-empty whitelist never turns an accepted digest into a forbidden one |
| Access.WhitelistScenarios | ja3rp_test.go:125-162 | with whitelist `a, b, c` Go's client digest is forbidden; with a whitelist holding that digest it is accepted |
| Access.BlacklistScenarios | ja3rp_test.go:164-201 | with blacklist `a, b, c` Go's client digest is accepted; with a blacklist holding that digest it is forbidden |
| Hex.Encode | ja3rp.go:84 | the encoding has two lowercase hex characters per byte, the high nibble first and the low nibble second |
| Hex.DecodeEncode | ja3rp.go:84 | decoding the hex encoding of any bytes gives back those bytes |
| Hex.EncodeInjective | ja3rp.go:84 | two byte strings have the same hex encoding exactly when they are equal |
| Hex.EncodeDecode | ja3rp.go:84 | any lowercase hex string that decodes is the encoding of its decoded bytes, so the rendering is canonical |
| Digest.JA3Digest | ja3rp.go:80-85 | the digest has 32 characters, all lowercase hex, and it decodes to the MD5 sum of the JA3 string |
| Digest.DigestIdentifiesSum | ja3rp.go:80-85 | two JA3 strings have the same digest exactly when their MD5 sums are equal |
| Digest.DigestHasNoFormatVerb | ja3rp.go:54 | the digest contains no `%`, so the diagnostic reply, which passes the digest as part of a format string, writes it verbatim |
| Http.HeaderSet | ja3rp.go:60 | read with `HeaderGet` (`Header.Get`: the stored value, or the empty string for an absent key): after a set, the key holds exactly the new value; every other key keeps its value; the key set grows by at most that key |
| Http.RewrittenAsWritten | ja3rp.go:58-61 | the rewrite as written sets the URL host and the request host to the destination host and the URL scheme to the destination scheme; it sets `X-Forwarded-Host` to the `Host` header entry from before the rewrite, or to the empty string when that entry is absent |
| Http.Rewritten | ja3rp.go:58-61 | the corrected rewrite sets the same three fields; it sets `X-Forwarded-Host` to the request host the client addressed, read before that host is replaced |
| Http.AsWrittenFrame | ja3rp.go:58-61 | the rewrite as written keeps the method, path, query and JA3 string; it adds only `X-Forwarded-Host` to the header keys and keeps the value of every other header |
| Http.AsWrittenForwardsEmptyHost | ja3rp.go:60 | when the request has no `Host` header entry, the rewrite as written sets `X-Forwarded-Host` to the empty string |
| Http.AsWrittenLosesClientHost | ja3rp.go:60 | for a request to `client.example` with no `Host` header entry, the rewrite as written forwards an empty `X-Forwarded-Host`, and the corrected one forwards `client.example` |
| Http.AsWrittenAgreesWithHostEntry | ja3rp.go:58-61 | when the `Host` header entry equals the request host, the two rewrites give the same request |
| Http.RewriteFrame | ja3rp.go:58-61 | the corrected rewrite keeps the method, path, query and JA3 string; it adds only `X-Forwarded-Host` to the header keys and keeps the value of every other header |
| Ja3rp.Mux.constructor | ja3rp.go:69 | a new mux has no registrations |
| Ja3rp.Mux.HandleFunc | ja3rp.go:72 | registration binds the pattern to the handler and keeps every other registration |
| Ja3rp.HandleRoot | ja3rp.go:38-65 | a digest the access check forbids gets status 403 in both cases. The `OnBlocked` callback runs when there is one, and the body `Access forbidden.` is written when there is none. The handler itself does not rewrite the request on this path. An accepted digest with no destination gets status 200 and the body `Access granted. JA3 hash: ` followed by the digest, and the request is unchanged. An accepted digest with a destination has the request rewritten in place for that destination, as `Http.RewrittenAsWritten` states, and forwarded to it. So `X-Forwarded-Host` is the `Host` header entry from before the rewrite, or the empty string when that entry is absent (see "## Findings") |
| Ja3rp.NewServer | ja3rp.go:67-78 | the server listens on the given address; it serves the caller's mux, or a fresh one when none is given; `/` is bound to the root handler over the options with that mux filled in; every other registration of a supplied mux is kept |
| Ja3rp.ServerWithOwnRootHandler | ja3rp_test.go:92-104 | binding `/` on the caller's mux after `NewServer` leaves that caller handler as the only registration |

## Findings

| source | as written | input that shows it | evidently intended | confidence | as-written member | corrected member |
|---|---|---|---|---|---|---|
| ja3rp.go:60 | `X-Forwarded-Host` is set from `r.Header.Get("Host")`, the `Host` entry of the header map | a request with host `client.example` and no `Host` header entry: `X-Forwarded-Host` becomes the empty string. Go's HTTP server moves the `Host` header into `r.Host` and deletes it from `r.Header` when it reads a request, so every served request is such an input | `X-Forwarded-Host` set to `r.Host`, the client-facing host, read before line 61 replaces it | medium, not executed; it rests on the header handling of the forked `net/http`, which is not part of this model | Http.RewrittenAsWritten, which Ja3rp.HandleRoot performs (shown by Http.AsWrittenLosesClientHost and Http.AsWrittenForwardsEmptyHost) | Http.Rewritten (with Http.RewriteFrame) |

## Left out

- MD5 itself (`crypto/md5`) is a foreign library. It is a parameter of type `string -> Md5Sum` (sixteen bytes). The string-to-bytes conversion of the JA3 string is folded into it.
- ClientHello capture and JA3 string construction (GREASE exclusion, field order) live in the forked `crypto/tls` and `net/http` packages. Those packages are not part of this model. The JA3 string is an input field of the request.
- The reverse proxy (`httputil.NewSingleHostReverseProxy`, `ServeHTTP`, lines 63-64) is network I/O. The model stops at the rewritten request handed to it. Two things the proxy does are not modelled: it joins the destination URL's path and query onto the request's, and it relays the upstream's reply.
- The `OnBlocked` callback is opaque. The model records that it ran after status 403 was written. What it writes, and any change it makes to the request, are not modelled.
- The response writer is reduced to a status and the text the handler writes itself. Status 200 on the diagnostic reply is the implicit status of a first body write in `net/http`.
- `fmt.Fprintf` is not modelled in general. Neither body the handler writes contains a `%`, so each is written as given.
- Headers hold one value per key, and keys are taken as already canonical. Go's `http.Header` keeps a list of values per canonicalised key. `Get` reads the first value, and `Set` replaces the list.
- The mux's pattern matching and dispatch are not modelled. Only registration is, and the mux's own source is not part of this model.
- `http.Server` is reduced to its address and handler mux. Listening, TLS set-up and shutdown are I/O.
- `cmd/main.go` (flag parsing, list-file reading, certificate loading, logging) is command-line I/O.
- Concurrency is not modelled. One connection's digest is read by its requests, and the lists are read-only after start-up.
