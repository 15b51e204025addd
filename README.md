# Pairing QR endpoint of the gateway

This project models the gateway's `GET /api/pairing/qr` handler. The endpoint gives a device-pairing deep
link, which carries the gateway's connection secrets, together with a QR rendering of it. It gives them
only to a request that arrives directly on the local machine, or that the gateway's authoriser lets in.

The model has six modules:

- `PairingQrHttp` holds the handler.
  - `Handle` is a pure function from the request, the options and the collaborators' answers to a
    `Run`: the outcome, plus the trace of the collaborators consulted on the way, in order.
  - `HandlePairingQrHttpRequest` is the handler as the source runs it. It takes early returns, fills a
    `URLSearchParams` by successive `set()` calls, and writes one reply to a `ServerResponse` object.
    It is proved equal to `Handle`: same outcome, same reply, same trace.
  - `ResolveReachableHost` is the bind-host policy.
- `SearchParams` models the `URLSearchParams` class: `set()` and `toString()`.
- `FormUrlEncoded` models the `application/x-www-form-urlencoded` serializer of the WHATWG URL
  standard. It sits beside a parser, and `Parse(Serialize(ps)) == Some(ps)` is proved.
- `Utf8` models UTF-8 encoding, with its decoder and the round trip.
- `Decimal` models `String(n)` for integers and `String(b)` for booleans, with a parser and the round trip.
- `Wrappers` defines `Option`.

The handler's collaborators are fields of the `Collaborators` datatype: the result of
`isLocalDirectRequest`, the bearer token, the `ok` of `authorizeGatewayConnect`, the result of
`pickPrimaryLanIPv4`, and `renderQrPngBase64`. Their code is not part of this model.

JavaScript truthiness is modelled as written. `resolveReachableHost` never returns `undefined`, but it
can return `""`, and `if (!host)` rejects that. So the 500 reply is reachable in two cases:

- the bind host is `""`;
- the bind is a wildcard and LAN discovery answers `""`.

`ServerErrorExactlyOnEmptyHost` proves that these are exactly the cases that give a 500. Likewise, the
`??` in `resolveReachableHost` and in the TLS flag falls back only on a missing value, not on an empty one.

## Model

| member | source | states |
|---|---|---|
| PairingQrHttp.ResolveReachableHost | src/gateway/pairing-qr-http.ts:77-85 | always yields an address, which is the bind host itself, 127.0.0.1, or (for a wildcard bind only) LAN discovery's answer |
| PairingQrHttp.ResolveReachableHostPolicy | src/gateway/pairing-qr-http.ts:77-85 | the policy row by row: wildcard gives the LAN address, or 127.0.0.1 when there is none; a loopback alias gives 127.0.0.1; anything else is advertised unchanged |
| PairingQrHttp.ResolveReachableHostIdempotent | src/gateway/pairing-qr-http.ts:77-85 | resolving an advertised address again gives the same address, when LAN discovery does not itself answer with a loopback alias other than 127.0.0.1 |
| PairingQrHttp.CredentialFor | src/gateway/pairing-qr-http.ts:30-36 | a credential is offered exactly when the bearer token is non-empty, with the token in both the token and the password slot |
| PairingQrHttp.Handle | src/gateway/pairing-qr-http.ts:8-75 | another path is declined with no collaborator consulted; a 405 with Allow GET happens exactly for a non-GET on the pairing path, before trust or auth is looked at; 401 exactly when the request is neither local nor authorised; a 500 or a 200 only once admitted, and an admitted GET always ends in one of them; a 500 carries the fixed error text; a 200 carries the configured port, the TLS flag, the (non-empty) host that `ResolveReachableHost` gives for the bind host and LAN discovery's answer, the deep link built from them and the configured secrets, and the renderer's image of that link |
| PairingQrHttp.AdmittedRun | src/gateway/pairing-qr-http.ts:43-72 | after the gate the outcome is the 500 or a 200; a 200 carries the payload described for Handle, its host being the resolved one; LAN discovery is consulted for a wildcard bind only, and the renderer once, last, on the link returned |
| PairingQrHttp.TlsEnabled | src/gateway/pairing-qr-http.ts:50 | the flag is true exactly when a TLS config is present and enabled; an absent config gives false |
| PairingQrHttp.LinkParams | src/gateway/pairing-qr-http.ts:52-61 | the link's parameters are three to five, host first with the host, then port, then tls, and no name occurs twice |
| PairingQrHttp.FixedParams | src/gateway/pairing-qr-http.ts:53-55 | exactly host, port and tls, in that order, with the host and the flag's text "true" or "false" |
| PairingQrHttp.SecretParams | src/gateway/pairing-qr-http.ts:56-61 | at most a token and a password, in that order, each with a non-empty value; the configured token comes first when non-empty and the configured password last when non-empty |
| PairingQrHttp.DeepLink | src/gateway/pairing-qr-http.ts:63 | the link starts with the fixed scheme prefix and has a query after it |
| PairingQrHttp.Admitted | src/gateway/pairing-qr-http.ts:29-41 | a trusted-local request passes the gate without the authoriser; any other passes exactly when the authoriser answers ok |
| PairingQrHttp.AuthArgs | src/gateway/pairing-qr-http.ts:31-36 | the authoriser gets the configured auth and trusted proxies, and a credential exactly when the bearer token is non-empty, with the token as both token and password |
| PairingQrHttp.Status | src/gateway/pairing-qr-http.ts:24-72 | the four replies have the statuses 405, 401, 500 and 200, one each |
| PairingQrHttp.HandlePairingQrHttpRequest | src/gateway/pairing-qr-http.ts:8-75 | returns true exactly on the pairing path; its collaborator trace is that of Handle; the response receives exactly Handle's reply on the pairing path and nothing elsewhere |
| PairingQrHttp.RespondAdmitted | src/gateway/pairing-qr-http.ts:43-74 | the host lookup, link construction and rendering write AdmittedRun's reply once and consult the collaborators AdmittedRun records |
| PairingQrHttp.ServerResponse.Send | src/gateway/pairing-qr-http.ts:66-72 | a reply is appended to those already written and nothing else changes |
| PairingQrHttp.BuildLinkParams | src/gateway/pairing-qr-http.ts:52-61 | the successive set() calls leave exactly host, port, tls, then token and password when non-empty, in insertion order |
| PairingQrHttp.SetIfTruthy | src/gateway/pairing-qr-http.ts:56-61 | a guarded set() of a new name appends the entry when the value is non-empty and changes nothing otherwise |
| PairingQrHttp.BuildPairingPayload | src/gateway/pairing-qr-http.ts:52-64 | the link is the fixed scheme prefix followed by the serialized parameters, and the image is the renderer's output for that very link |
| PairingQrHttp.ServerErrorExactlyOnEmptyHost | src/gateway/pairing-qr-http.ts:43-47 | a 500 happens if and only if the gate was passed and the bind host is empty, or the bind is a wildcard and LAN discovery answered "" |
| PairingQrHttp.TrustedLocalSkipsAuthorisation | src/gateway/pairing-qr-http.ts:29-41 | a trusted-local GET ends in a 500 or a 200, the bearer token is not read, and the authoriser is not called |
| PairingQrHttp.RemoteRequestAuthorisedOnce | src/gateway/pairing-qr-http.ts:29-41 | a request that is not local goes through the trust check, the token read and one authoriser call with the token as both credentials, in that order, and no further authoriser call; when that is refused the reply is 401 (status 401) and nothing more is consulted |
| PairingQrHttp.RenderOnlyForPayload | src/gateway/pairing-qr-http.ts:63-72 | the QR renderer is consulted only in a 200, on the very link returned, as the last call |
| PairingQrHttp.AdmittedRunRenders | src/gateway/pairing-qr-http.ts:43-72 | after the gate, any rendering is of the returned link and only in a 200 |
| PairingQrHttp.DeepLinkRoundTrip | src/gateway/pairing-qr-http.ts:52-63 | reading the deep link's query back gives exactly the parameters set, in order |
| PairingQrHttp.LinkParamsLookup | src/gateway/pairing-qr-http.ts:52-61 | the first three parameters are host, port and tls; a reader finds under each name the host, the port's numeral and the flag, and finds the configured token and password exactly when they are non-empty |
| PairingQrHttp.FixedParamsLookup | src/gateway/pairing-qr-http.ts:53-55 | host, port and tls are found under their names, and no token or password among them |
| PairingQrHttp.SecretParamsLookup | src/gateway/pairing-qr-http.ts:56-61 | token and password are present exactly when configured and non-empty, with the configured values |
| PairingQrHttp.PayloadAgreesWithLink | src/gateway/pairing-qr-http.ts:49-72 | in a 200 the payload's host, port and TLS flag are what a reader finds in the link (the port parses back to the payload's port); the link's secrets are the configured ones; the TLS flag is true only for an enabled TLS config; the image is the rendering of the link |
| PairingQrHttp.GoldenDeepLink | src/gateway/pairing-qr-http.ts:52-63 | host 127.0.0.1, port 8443, TLS on and token abc give openclaw://gateway?host=127.0.0.1&port=8443&tls=true&token=abc |
| PairingQrHttp.GoldenParams | src/gateway/pairing-qr-http.ts:52-58 | that configuration sets exactly host, port 8443, tls true and token abc |
| PairingQrHttp.GoldenQuery | src/gateway/pairing-qr-http.ts:63 | those parameters serialize to host=127.0.0.1&port=8443&tls=true&token=abc |
| PairingQrHttp.LocalWildcardScenario | src/gateway/pairing-qr-http.ts:43-72 | a trusted-local GET, on a wildcard bind whose LAN address is 10.0.0.7, with port 7777, no TLS and no secrets, gets a 200 with that host, port and flag, and a link in which a reader finds no token and no password |
| PairingQrHttp.NoSecretsInLink | src/gateway/pairing-qr-http.ts:56-63 | without a configured token or password, the link parses and carries neither |
| SearchParams.URLSearchParams.constructor | src/gateway/pairing-qr-http.ts:52 | a new parameter list is empty |
| SearchParams.URLSearchParams.Set | src/gateway/pairing-qr-http.ts:53-60 | set() replaces the first entry of that name and drops the others, or appends when there is none |
| SearchParams.SetEntry | src/gateway/pairing-qr-http.ts:53-60 | set() leaves the tuple it set in the list and grows the list by at most one |
| SearchParams.SetEntryAppends | src/gateway/pairing-qr-http.ts:53-60 | set() of a name not yet present appends the entry at the end |
| SearchParams.SetEntryGet | src/gateway/pairing-qr-http.ts:53-60 | after set(), the name reads back as the value just set and every other name reads as before |
| SearchParams.RemoveAll | src/gateway/pairing-qr-http.ts:53-60 | removing a name leaves no entry of it and every other name reads as before |
| SearchParams.URLSearchParams.ToString | src/gateway/pairing-qr-http.ts:63 | the serialized query parses back to exactly the list |
| FormUrlEncoded.ParseSerialize | src/gateway/pairing-qr-http.ts:63 | any list of name/value pairs serializes to text that parses back to that list |
| FormUrlEncoded.Encode | src/gateway/pairing-qr-http.ts:63 | the form encoding of a string uses only ASCII alphanumerics, `*`, `-`, `.`, `_`, `+` and `%` |
| FormUrlEncoded.Serialize | src/gateway/pairing-qr-http.ts:63 | the serialized text is empty exactly for an empty list |
| FormUrlEncoded.DecodeEncode | src/gateway/pairing-qr-http.ts:63 | percent-decoding the form-encoded text of any string yields that string |
| FormUrlEncoded.SerializeUnreserved | src/gateway/pairing-qr-http.ts:63 | pairs whose names and values use only unreserved characters serialize as name=value joined by & with nothing escaped |
| FormUrlEncoded.EncodeUnreserved | src/gateway/pairing-qr-http.ts:63 | a string of unreserved characters is form-encoded unchanged |
| Utf8.Encode | src/gateway/pairing-qr-http.ts:63 | the UTF-8 encoding has at least one byte per scalar value |
| Utf8.DecodeEncode | src/gateway/pairing-qr-http.ts:63 | the UTF-8 bytes the serializer escapes decode back to the original string |
| Decimal.BoolToString | src/gateway/pairing-qr-http.ts:55 | String(tls) is "true" for true and "false" for false |
| Decimal.IntToString | src/gateway/pairing-qr-http.ts:54 | String(port) is a leading minus exactly for a negative port, followed by at least one decimal digit and nothing but digits |
| Decimal.ParseIntToString | src/gateway/pairing-qr-http.ts:54 | the port's numeral parses back to the port |

## Left out

- The Node `IncomingMessage` and `ServerResponse` objects are reduced. The request is its parsed pathname plus its method, where a missing method is `None`. The response is the list of replies written; the status is the one `Status` gives each reply, and the JSON bodies and headers written by `sendJson`, `sendMethodNotAllowed` and `sendUnauthorized` are not modelled.
- The URL parsing of `req.url` against the `Host` header is not modelled; the pathname is an input.
- The internals of `isLocalDirectRequest`, `getBearerToken` and `authorizeGatewayConnect` are not part of this model; their answers are inputs. So "a token equal to the configured token is authorised" is the authoriser's promise, not one proved here.
- `pickPrimaryLanIPv4` reads the operating system's interfaces; its answer is an input.
- The QR rendering and PNG/base64 encoding in `renderQrPngBase64` are not part of this model; the renderer is an uninterpreted function.
- `async`/`await` are modelled as sequential calls. Exceptions thrown by a collaborator are not modelled.
- The port is an integer. `String(port)` for a fractional, infinite or NaN number is not modelled.
- Decimal.IntToString: gives the full digit string for every integer. JavaScript's `String(n)` switches to exponent notation ("1e+21") when |n| is at least 10^21, and not every integer above 2^53 is a JavaScript number. So the model matches `String(port)` only for integer-valued JavaScript numbers whose magnitude is below 10^21.
- JavaScript strings are UTF-16 and may hold lone surrogates; `URLSearchParams.set` replaces them with U+FFFD, which then appears in the link as `%EF%BF%BD`. Dafny's `string` here holds only Unicode scalar values, so a host, token or password with a lone surrogate cannot be represented and this replacement is not modelled.
- Utf8.Decode is used only as the partner of the encoder. It rejects malformed input instead of substituting U+FFFD as a lenient decoder would.
- Repeating a request gives the same outcome because `Handle` is a function of its inputs; no separate lemma states this.
