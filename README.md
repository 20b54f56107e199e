# Event access control: checkpoint decisions and rotating credentials

This project models, in Dafny, the core of an event access-control prototype.
It covers six parts:

- the mock backoffice's checkpoint decision engine: the gate and zone scan handlers, session issuance and staff login over fixed in-memory tables;
- the attendee's rotating token codec: JWS compact serialization with an HS256 header and `sub/tid/evt/iat/exp` claims, with an unsigned decoder and an expiry predicate;
- the rotation controller that counts a token down and regenerates it;
- configuration defaults, environment overrides, merge and validation;
- the staff scanner's request selection, response normalisation and reason classifier;
- the zone chip's reentry and time-window rules.

## Modules

| file | module | models |
|---|---|---|
| common.dfy | `Common` | JavaScript's thrown errors (`Result`), `undefined` (`Option`), truthiness, and the string built-ins the source uses: `split` on one character, global one-character `replace`, `String(n)` |
| jwt.dfy | `Jwt` | `src/services/JWTService.ts` |
| backoffice.dfy | `Backoffice` | `mock-server.js`; class `Server` owns the ticket table the gate handler mutates |
| rotation.dfy | `RotatingQr` | `src/hooks/useRotatingQR.ts`; class `Controller` holds the state record and the session |
| config.dfy | `AppConfig` | `src/config/appConfig.ts` |
| scanner.dfy | `StaffScanner` | `src/pages/StaffScannerView.tsx`; class `ScannerScreen` holds `isScanning` and the displayed result |
| zonechip.dfy | `ZoneChip` | `src/components/ZoneChip.tsx` |

Several things the program relies on are not modelled; `Jwt.Platform` stands in for them:
- `btoa`, `atob`, `JSON.stringify`, `JSON.parse`;
- WebCrypto HMAC-SHA-256;
- JavaScript's string-to-number conversion.

The predicate `Jwt.Sound` lists the facts the proofs assume about them:
- `btoa` accepts exactly Latin-1 text and writes the base64 alphabet;
- `atob` inverts it even without padding;
- `JSON.parse` inverts `JSON.stringify`;
- `JSON.stringify` writes Latin-1 text exactly when every key and string in the value is Latin-1.

Lemmas that need these facts take `Sound(p)` as a precondition.

Other inputs are passed in as parameters:
- the wall clock, as `now` in epoch seconds;
- network replies;
- the process environment.

Timers become explicit calls: `Controller.Tick` stands for one second of the rotation interval and `Controller.SyncTick` for one firing of the sync interval.

### What the code does not check

The model follows the code, which checks less than an access-control engine might be expected to:
- The backoffice never verifies the token's signature.
- It never consults `gateAllowlist`.
- The zone path neither requires a prior gate entry nor checks time windows or reentries. It admits the literal ticket `"TK-001"` and nothing else.
- A reason code the scanner does not list, such as the server's bare `EXPIRED`, is not treated as `INVALID`. It falls through to DENY-REVOKED, with the raw code as the message.
- The client considers a token expired at `exp <= now` (`Jwt.IsExpired`). The server rejects only `exp < now` (`Backoffice.ExpiryBoundaryMismatch`).

## Model

| member | source | states |
|---|---|---|
| Common.Count | mock-server.js:144-145 | the number of separators is zero exactly when none occurs, and at most the length |
| Common.Split | mock-server.js:144 | `split` always yields at least one piece |
| Common.SplitLength | src/services/JWTService.ts:98 | `split('.')` yields one more piece than there are separators |
| Common.SplitNoSeparator | src/services/JWTService.ts:98 | a string without the separator splits into itself alone |
| Common.SplitAfterPiece | mock-server.js:144 | splitting `a.b` with a separator-free `a` yields `a` followed by the pieces of `b` |
| Common.SplitPiecesFree | mock-server.js:144 | no piece of a split contains the separator |
| Common.SplitJoin3 | src/services/JWTService.ts:63-66 | three separator-free segments joined by '.' split back into exactly those three |
| Common.ReplaceAll | src/services/JWTService.ts:23-24 | a global one-character replace keeps the length and rewrites exactly the matching positions |
| Common.RemoveAll | src/services/JWTService.ts:25 | deleting every '=' shortens the text by exactly the number of '=' and keeps exactly the other characters |
| Common.RemoveAllKeeps | src/services/JWTService.ts:25 | every other character is kept as often as it occurs, and text without '=' is unchanged |
| Common.RemoveAllAppend | src/services/JWTService.ts:25 | deletion distributes over concatenation, so the kept characters stay in order |
| Common.ReplaceAllBack | src/services/JWTService.ts:100 | replacing `a` by `b` and back restores a string that had no `b` |
| Common.IntToString | mock-server.js:162 | the decimal rendering used as a property key is non-empty and starts with a digit or '-' |
| Jwt.Get | mock-server.js:153 | reading a property throws exactly on a `null` payload, and is `undefined` exactly for a missing key |
| Jwt.UrlSafe | src/services/JWTService.ts:22-25 | the rewrite has no '+', '/' or '=', adds nothing but '-' and '_', and turns base64 text into base64url text |
| Jwt.Base64UrlEncode | src/services/JWTService.ts:20-26 | the encoding of an object never contains '+', '/' or '=', and is base64url text |
| Jwt.HmacSha256 | src/services/JWTService.ts:31-49 | the signature has no '+', '/' or '=', is base64url text, and is computed exactly when the MAC is |
| Jwt.FromCharCodes | src/services/JWTService.ts:45 | the MAC bytes become a Latin-1 string of the same length whose character i has the code of byte i |
| Jwt.SigningInput | src/services/JWTService.ts:60-63 | the signing input `encHeader.encPayload` holds only base64url characters and '.' |
| Jwt.DottedText | src/services/JWTService.ts:63-66 | joining base64url text to text of base64url characters and '.' with a '.' keeps to that alphabet |
| Jwt.GenerateJwt | src/services/JWTService.ts:54-67 | a generated token contains no '+', '/' or '=' and holds only base64url characters and '.' |
| Jwt.CreateRotatingQr | src/services/JWTService.ts:72-90 | a rotating token, when signing succeeds, decodes to the fixed header and the claims `sub = tid = ticketId`, `evt`, `iat = now - skew`, `exp = now + ttl` |
| Jwt.DecodeJwt | src/services/JWTService.ts:96-107 | null exactly when there is no second segment or either of the first two segments fails to decode or parse; otherwise the two parsed segments, the rest unread |
| Jwt.RotatingClaims | src/services/JWTService.ts:79-87 | `sub = tid = ticketId`, `evt = eventId`, `iat = now - skew`, `exp = now + ttl`, `exp - iat = ttl + skew`, and `iat <= now <= exp` exactly when TTL and skew are non-negative |
| Jwt.IsExpired | src/services/JWTService.ts:112-118 | an undecodable token is expired; the check throws exactly on a decoded `null` payload; for an object payload it is true exactly when `exp` is present and converts to a number `<= now` |
| Jwt.DecodedTokenExpiry | src/services/JWTService.ts:112-118 | for any token decoding to an object: no `exp` is not expired, an integer `exp` is expired exactly when `exp <= now`, and a non-numeric string `exp` is not expired |
| Jwt.ClaimsJsonLatin1 | src/services/JWTService.ts:81-87 | the claims object is Latin-1 exactly when its three string claims are |
| Jwt.HeaderJsonLatin1 | src/services/JWTService.ts:55-58 | the fixed header `{alg: HS256, typ: JWT}` is Latin-1 |
| Jwt.RemoveReplaceCommute | src/services/JWTService.ts:23-25 | dropping '=' commutes with the '+'/'/' rewrites |
| Jwt.UrlSafeRoundTrip | src/services/JWTService.ts:100-101 | the decoders' rewrite undoes the encoder's, leaving the base64 text without its padding |
| Jwt.EncodeThenDecodeSegment | src/services/JWTService.ts:100-101 | a Latin-1 JSON value decodes back from its encoded segment |
| Jwt.NoDotInEncoding | src/services/JWTService.ts:22-25 | no encoded segment contains '.' |
| Jwt.EncodeSucceeds | src/services/JWTService.ts:20-26 | encoding succeeds exactly on Latin-1 JSON |
| Jwt.GenerateSucceeds | src/services/JWTService.ts:54-67 | signing succeeds exactly when the string claims are Latin-1 and the MAC is computed |
| Jwt.GeneratedTokenSegments | src/services/JWTService.ts:63-66 | a token splits into exactly three segments (header and payload encodings), and the third is the MAC of the first two joined by '.', so the signature depends only on those and the secret |
| Jwt.GenerateThenDecode | src/services/JWTService.ts:96-103 | decoding a generated token yields the fixed header and exactly the signed claims |
| Jwt.SplitFirstTwo | src/services/JWTService.ts:98 | the first two pieces of `h.p.rest` are `h` and `p` |
| Jwt.DecodeIgnoresSignature | src/services/JWTService.ts:96-107 | the decoder's answer does not depend on anything after the second '.' |
| Jwt.DecodeNeedsPayloadSegment | src/services/JWTService.ts:96-106 | a string without '.' decodes to null rather than throwing |
| Jwt.GenerateRejectsWideCharacters | src/services/JWTService.ts:20-26 | a claim with a character above U+00FF makes signing throw |
| Jwt.GeneratedTokenExpiry | src/services/JWTService.ts:112-118 | on a generated token, `isExpired` is exactly `exp <= now` |
| Jwt.RotatingTokenExpiry | src/services/JWTService.ts:79-118 | a rotating token is expired exactly from `now + ttl` on, so one just created with `ttl > 0` is not expired |
| Backoffice.ReasonCode | mock-server.js:134-259 | the wire reason codes are INVALID, EXPIRED, NOT_FOUND, USED and NO_ENTITLEMENT |
| Backoffice.SubjectOf | mock-server.js:161 | the subject is `sub` when truthy, otherwise `tid` |
| Backoffice.CheckToken | mock-server.js:134-169 | INVALID exactly for a missing field or a token without a decodable object payload in three segments; an admitted subject is a key of the table |
| Backoffice.GateScan | mock-server.js:129-197 | a DENY leaves the table unchanged; an ALLOW names an ACTIVE ticket, returns its entitlements (or `[]`), and changes only that ticket to USED with `usedAt` |
| Backoffice.ZoneScan | mock-server.js:200-260 | a zone ALLOW carries no ticket id or entitlements |
| Backoffice.IssueSession | mock-server.js:93-126 | a session carries the global key and expires 86400 seconds after `now` |
| Backoffice.IfTruthy | mock-server.js:84-85 | an optional staff field is sent exactly when the record's value is non-empty |
| Backoffice.StaffLogin | mock-server.js:53-90 | a successful login is for the requested staff id, which is in the table |
| Backoffice.Server.constructor | mock-server.js:41-50 | the server starts with the fixed ticket table |
| Backoffice.Server.ScanGate | mock-server.js:129-197 | the in-place handler answers and leaves the table as `GateScan` describes |
| Backoffice.GateInvalid | mock-server.js:134-196 | DENY/INVALID exactly for a missing `qr`/`gateId`, a token not in three segments, or a payload that does not decode to an object; the table is then unchanged |
| Backoffice.GateExpiry | mock-server.js:150-158 | for a well-formed request, DENY/EXPIRED exactly when `exp < now`; `exp == now` or no `exp` passes |
| Backoffice.GateUnknownSubject | mock-server.js:161-169 | past the expiry step, DENY/NOT_FOUND exactly when `sub || tid` is not a ticket id |
| Backoffice.GateCommit | mock-server.js:171-188 | DENY/USED exactly for a non-ACTIVE ticket; otherwise ALLOW with id and entitlements, that ticket becomes USED with `usedAt`, and every other ticket is unchanged |
| Backoffice.GateRepeatScanIsUsed | mock-server.js:171-180 | after an ALLOW, any later scan of the same ticket is DENY/USED and leaves the table alone |
| Backoffice.GateIgnoresGateId | mock-server.js:129-188 | any two non-empty `gateId` values give the same answer and table |
| Backoffice.GateIgnoresHeaderAndSignature | mock-server.js:143-149 | tokens sharing the payload segment get the same answer whatever their header and signature |
| Backoffice.ZoneDecision | mock-server.js:205-251 | the zone shares the gate's INVALID/EXPIRED/NOT_FOUND steps, then answers ALLOW exactly for "TK-001" and NO_ENTITLEMENT otherwise |
| Backoffice.ZoneIgnoresTicketRecord | mock-server.js:229-251 | replacing a ticket's record (its status included) never changes the zone's answer |
| Backoffice.SessionOutcome | mock-server.js:99-122 | 404 exactly for an unknown id, 400 exactly for a non-ACTIVE ticket, a session exactly otherwise |
| Backoffice.NoSessionAfterGateEntry | mock-server.js:108-112 | after a gate ALLOW, issuance for that ticket answers 400 "Ticket not active" |
| Backoffice.LoginOutcome | mock-server.js:58-86 | 400/404/401 exactly in their cases; otherwise the public fields, with `gateId`/`zoneCheckpointId` only when non-empty and no PIN |
| Backoffice.ServerReadsGeneratedClaims | mock-server.js:144-149 | the server's decoding of a client token yields exactly the signed claims |
| Backoffice.ExpiryBoundaryMismatch | mock-server.js:153 | at `now == exp` the client calls its token expired while the gate lets it past the expiry step |
| Backoffice.GateExpiryBoundary | mock-server.js:153-158 | a payload whose `exp` equals the current second is not refused as EXPIRED |
| Backoffice.GateAdmitsClaims | mock-server.js:153-188 | an unexpired well-formed request naming an ACTIVE ticket is admitted with its entitlements |
| Backoffice.RotatingTokenPayload | mock-server.js:149 | the server decodes a rotating token's claims as the client wrote them |
| Backoffice.RotatingClaimsForTk001 | mock-server.js:153-161 | a rotating token for "TK-001" carries `exp = issued + ttl` and the subject "TK-001" |
| Backoffice.GateAdmitsOnce | mock-server.js:161-188 | on the initial table, "TK-001" is admitted once with its three entitlements and is USED afterwards |
| Backoffice.FirstEntryThenUsed | mock-server.js:129-188 | a fresh rotating token for "TK-001" is admitted at any gate despite the allowlist, and a rescan is USED |
| Backoffice.LookupAsWritten | mock-server.js:162 | a plain-object lookup finds own keys, inherited `Object.prototype` members, or nothing |
| Backoffice.GateLookupAsWritten | mock-server.js:162-176 | as written, NOT_FOUND only for ids that are neither tickets nor inherited member names |
| Backoffice.ZoneLookupAsWritten | mock-server.js:230-251 | as written, NOT_FOUND only for ids that are neither tickets nor inherited member names |
| Backoffice.SessionAsWritten | mock-server.js:99-112 | as written, 404 only for ids that are neither tickets nor inherited member names |
| Backoffice.LoginLookupAsWritten | mock-server.js:64-78 | as written, 404 only for ids that are neither staff nor inherited member names |
| Backoffice.PrototypeKeyMisreported | mock-server.js:162-176 | for "constructor", as written: USED, NO_ENTITLEMENT, 400 and 401; corrected: 404 |
| Backoffice.OwnKeyLookupAgrees | mock-server.js:64-112 | on every id that is not an inherited member name, the corrected and as-written session and login handlers give the same answer |
| Backoffice.ScanLookupAgrees | mock-server.js:162-251 | past the INVALID and EXPIRED steps, for every subject that is not an inherited member name, the corrected gate and zone handlers give the as-written decision and table, found or not |
| RotatingQr.InitialState | src/hooks/useRotatingQR.ts:34-41 | empty token, full countdown, offline, never synced, no error, loading |
| RotatingQr.AfterFetch | src/hooks/useRotatingQR.ts:57-73 | after a fetch the token and countdown are untouched and loading is off; online, synced at `now` and error-free exactly when a session arrived; otherwise the prefixed connection error |
| RotatingQr.AfterGenerate | src/hooks/useRotatingQR.ts:91-105 | connectivity, sync time and loading untouched; a created token is shown with a full countdown and no error; a throw changes only the error |
| RotatingQr.Returned | src/hooks/useRotatingQR.ts:98-105 | the created token, or null exactly when creation threw |
| RotatingQr.FetchThenGenerate | src/hooks/useRotatingQR.ts:110-119 | fetch then generate leaves the attendee online, synced and not loading, seeing the fresh token with a full countdown, or the old token with the creation error |
| RotatingQr.Countdown | src/hooks/useRotatingQR.ts:130-140 | a regeneration is scheduled exactly when the count was at most 1; a count in `[1, ttl]` stays there |
| RotatingQr.Ticks | src/hooks/useRotatingQR.ts:129-141 | repeated ticks keep the countdown bound and schedule at most one regeneration per tick |
| RotatingQr.TicksCompose | src/hooks/useRotatingQR.ts:129-141 | `a` ticks then `b` ticks equal `a + b` ticks |
| RotatingQr.TicksCountDown | src/hooks/useRotatingQR.ts:131-139 | from `t` in `[1, ttl]`, the first `t - 1` ticks only count down |
| RotatingQr.TicksUntilRotation | src/hooks/useRotatingQR.ts:131-136 | tick `t` schedules exactly one regeneration and restores the full TTL |
| RotatingQr.RotationPeriod | src/hooks/useRotatingQR.ts:129-141 | `k * ttl` ticks from a full count schedule exactly `k` regenerations |
| RotatingQr.Controller.constructor | src/hooks/useRotatingQR.ts:25-43 | defaults 20 s, 60000 ms, 0 s; the initial state; no session |
| RotatingQr.Controller.FetchSession | src/hooks/useRotatingQR.ts:52-76 | the new state is `AfterFetch`; success holds the new session, failure keeps the old one |
| RotatingQr.Controller.GenerateNewJwt | src/hooks/useRotatingQR.ts:79-107 | no session: nothing changes; otherwise the new state is `AfterGenerate` of the created token and the result is that token or null |
| RotatingQr.Controller.Tick | src/hooks/useRotatingQR.ts:122-141 | without a session nothing happens; otherwise the countdown step, keeping the bound |
| RotatingQr.Controller.SyncTick | src/hooks/useRotatingQR.ts:151-160 | offline, state and session are unchanged; online, the state is `AfterFetch` and the session follows the fetch |
| RotatingQr.Controller.Initialize | src/hooks/useRotatingQR.ts:110-119 | a failed fetch leaves `AfterFetch` and no token; a session leads to `AfterGenerate` of the token created from its key |
| RotatingQr.Controller.Retry | src/hooks/useRotatingQR.ts:170-176 | as `Initialize`, starting from the state with the error cleared and loading shown; the one way back online |
| RotatingQr.Controller.ForceRotate | src/hooks/useRotatingQR.ts:179-181 | exactly `GenerateNewJwt` from the held session, with no fetch |
| RotatingQr.ShownTokenFreshDuringCountdown | src/hooks/useRotatingQR.ts:83-94 | a token generated with TTL `ttl` is unexpired for every second of its countdown |
| AppConfig.MergeConfig | src/config/appConfig.ts:101-108 | every one of the fifteen fields comes from the override section when it carries that key, else from the base |
| AppConfig.MergeNothing | src/config/appConfig.ts:101-108 | merging an empty override is the identity |
| AppConfig.MergeIdempotent | src/config/appConfig.ts:101-108 | re-applying an override changes nothing |
| AppConfig.MergeWholeSections | src/config/appConfig.ts:101-108 | whole backoffice, qr and event sections given as override replace the base's, and with a whole ui section as well the result is exactly the override |
| AppConfig.TrimStart | src/config/appConfig.ts:88 | `parseInt` skips a suffix-preserving run of leading white space |
| AppConfig.DigitRun | src/config/appConfig.ts:88 | the digits read are the longest prefix of digits |
| AppConfig.ParseInt | src/config/appConfig.ts:88 | NaN exactly when no digit follows the white space and sign |
| AppConfig.IntToStringDigits | src/config/appConfig.ts:88 | a non-negative number's decimal text is all digits |
| AppConfig.IntToStringValue | src/config/appConfig.ts:88 | the digits of `String(n)` are worth `n` |
| AppConfig.DigitRunOfDigits | src/config/appConfig.ts:88 | a digit string is read whole |
| AppConfig.ParseIntOfDigits | src/config/appConfig.ts:88 | a run of digits parses to its value |
| AppConfig.ParseIntOfNegatedDigits | src/config/appConfig.ts:88 | '-' and a run of digits parse to the negated value |
| AppConfig.ParseIntToString | src/config/appConfig.ts:88 | `parseInt(String(n), 10) == n` |
| AppConfig.ParseIntStopsAtNonDigit | src/config/appConfig.ts:88 | "45s" parses to 45 |
| AppConfig.ParseIntNoDigits | src/config/appConfig.ts:88-89 | "abc" and "" are NaN |
| AppConfig.EnvTtl | src/config/appConfig.ts:86-95 | the environment's TTL is taken exactly when set, parsable and `> 0` |
| AppConfig.EnvOverride | src/config/appConfig.ts:67-98 | the URL and event id are overridden exactly when their variables are non-empty, with those values; the TTL exactly when `EnvTtl` accepts it; the UI section never |
| AppConfig.GetEnvConfig | src/config/appConfig.ts:67-98 | the imperative builder yields exactly the environment's override |
| AppConfig.EnvConfigShape | src/config/appConfig.ts:70-111 | the resulting configuration keeps every default but the three variables' fields; the URL and event id are the variables' values when set, else the defaults; the TTL is `EnvTtl` or the default, so always positive |
| AppConfig.ConfigErrors | src/config/appConfig.ts:114-138 | every message is one of the five checks' messages |
| AppConfig.ValidateConfig | src/config/appConfig.ts:114-138 | the pushed errors are exactly the failed checks' messages in order |
| AppConfig.Rank | src/config/appConfig.ts:117-135 | the check order of each message |
| AppConfig.ValidIffNoErrors | src/config/appConfig.ts:114-138 | no errors exactly when URL, event id non-empty, `0 < ttl <= 300`, retries `> 0`; each failure shows as its message |
| AppConfig.ErrorsInCheckOrder | src/config/appConfig.ts:117-135 | messages appear in check order, never both TTL messages, at most four |
| AppConfig.DefaultConfigValid | src/config/appConfig.ts:37-64 | the defaults pass validation |
| AppConfig.Text301 | src/config/appConfig.ts:88 | the rendering of 301 |
| AppConfig.EnvTtl301 | src/config/appConfig.ts:87-95 | "301" is accepted as an environment TTL |
| AppConfig.EnvOverrideTtlOnly | src/config/appConfig.ts:67-98 | an environment setting only a usable TTL overrides that TTL and nothing else |
| AppConfig.EnvTtlCanExceedLimit | src/config/appConfig.ts:87-127 | any parsable TTL above 300 is taken from the environment, and validation then reports exactly the TTL-too-long message |
| StaffScanner.Normalise | src/pages/StaffScannerView.tsx:108-110 | a response without a truthy decision becomes DENY/INVALID; any other is kept |
| StaffScanner.MapResultToValidation | src/pages/StaffScannerView.tsx:62-84 | never WARN-OFFLINE; ALLOW status exactly for an ALLOW decision |
| StaffScanner.OptionalField | src/pages/StaffScannerView.tsx:96 | an undefined field is not sent |
| StaffScanner.RequestFor | src/pages/StaffScannerView.tsx:94-100 | GATE posts `qr` and `gateId` (when set) to `/validate/scan`; ZONE posts `qr` and `zoneCheckpointId` (when set) to `/zones/checkpoint/scan`; no other keys |
| StaffScanner.RequestCarriesCheckpoint | src/pages/StaffScannerView.tsx:94-100 | the server reads the scanned token and the role's own checkpoint id from the body, and never the other role's |
| StaffScanner.ScanOutcome | src/pages/StaffScannerView.tsx:108-120 | WARN-OFFLINE exactly when the `try` threw (the fetch, the JSON parse, or the `in` test on a non-object body) |
| StaffScanner.NavigationAfter | src/pages/StaffScannerView.tsx:115-117 | navigation happens exactly after an ALLOW naming a ticket, and goes to `/ticket/<ticketId>` |
| StaffScanner.Wire | mock-server.js:184-196 | every server answer carries a decision |
| StaffScanner.ScannerScreen.constructor | src/pages/StaffScannerView.tsx:14 | the API base is the configured value or "http://localhost:8082" |
| StaffScanner.ScannerScreen.BeginScan | src/pages/StaffScannerView.tsx:86-100 | ignored without staff data or while scanning; otherwise raises `isScanning` and yields the role's request |
| StaffScanner.ScannerScreen.CompleteScan | src/pages/StaffScannerView.tsx:108-123 | shows the reply's classification, schedules the navigation `NavigationAfter` gives (to `/ticket/<ticketId>` after an ALLOW naming a ticket), lowers `isScanning` |
| StaffScanner.AllowIgnoresReason | src/pages/StaffScannerView.tsx:63-68 | ALLOW shows ALLOW whatever the reason; only the message depends on the role |
| StaffScanner.DenyReasons | src/pages/StaffScannerView.tsx:69-80 | INVALID, EXPIRED\|INVALID, BAD_REQUEST are revoked; USED is duplicate; NOT_FOUND, NO_ENTITLEMENT are gate denials |
| StaffScanner.UnknownReasonFallsThrough | src/pages/StaffScannerView.tsx:81-82 | any other reason shows DENY-REVOKED with the reason or "Acceso denegado" |
| StaffScanner.ServerDecisionShown | src/pages/StaffScannerView.tsx:62-84 | the server's decisions as displayed; its bare EXPIRED is shown as DENY-REVOKED "EXPIRED" |
| StaffScanner.GateStaffWithoutGateId | src/pages/StaffScannerView.tsx:94-96 | a GATE staff member without `gateId` gets INVALID on every scan |
| ZoneChip.HasTimeWindow | src/components/ZoneChip.tsx:12 | true for a present window and also for a left-out field; false only for `null` |
| ZoneChip.HasReentryLeft | src/components/ZoneChip.tsx:13-14 | a limit of 0 always has reentry left; otherwise exactly while the remaining count `limit - used` is positive |
| ZoneChip.ShownTimeWindow | src/components/ZoneChip.tsx:30-35 | a window is rendered only when `hasTimeWindow` holds |
| ZoneChip.ShownReentries | src/components/ZoneChip.tsx:37-45 | the counter shows the entitlement's limit |
| ZoneChip.UnlimitedReentry | src/components/ZoneChip.tsx:13 | limit 0 always has reentry left and shows no counter |
| ZoneChip.LimitedReentry | src/components/ZoneChip.tsx:13-43 | with a positive limit, reentry is left exactly while used < limit, which is when the counter `limit - used` is positive |
| ZoneChip.CounterShownIffLimited | src/components/ZoneChip.tsx:37 | the counter appears exactly for a positive limit |
| ZoneChip.WindowShownIffPresent | src/components/ZoneChip.tsx:12-30 | the window is shown exactly when present; a left-out field passes `hasTimeWindow` but is not shown |
| ZoneChip.SampleEntitlements | src/data/mockData.ts:19-41 | the sample VIP, Backstage and Prensa entitlements as the chip shows them |

## Left out

- Jwt.Sound: it assumes that `JSON.parse` inverts `JSON.stringify` for every integer claim. The real round trip holds only up to 2^53, where JavaScript numbers stop being exact.
- Cryptography and encoders: HMAC-SHA-256, `btoa`/`atob` and `JSON.stringify`/`parse` are abstract (`Jwt.Platform`). Only the facts in `Jwt.Sound` are assumed of them.
- Claim values: a parsed property is a string or an integer.
  - Floating-point, boolean, `null` and nested property values are not modelled.
  - A JSON `null` payload is modelled; any other non-object payload is treated as an object without properties.
  - A string `exp` is compared through the platform's string-to-number conversion.
- `base64UrlEncode`'s branch for string input: the callers only ever pass objects, so it is not modelled.
- Backoffice.Ticket: `usedAt` is the epoch second of the commit, not the ISO-8601 text the server stores.
- Backoffice.GateScan: the ALLOW response's `ticketId` is the table key. The server echoes the raw subject, which is a number for a numeric `sub`.
- Backoffice.Body: a request body is a map from field names to strings. A truthy non-string `qr` (which makes `qr.split` throw, so the answer is INVALID) and a numeric `pin` (which never equals the stored text, so the answer is 401) are not modelled.
- Backoffice: the main model looks up own keys only. The inherited-key behaviour of the code is under Findings.
- Express wiring, CORS, logging, `/health` and the debug endpoints are left out, since they are I/O.
- The client's session request (`getTicketSession`) is network I/O. Its result enters as `RotatingQr.FetchOutcome`. Its path, `POST /api/tickets/session`, is not a route of the mock server, which serves `GET /api/tickets/:id/session`.
- Timers and React lifecycles:
  - `setInterval`/`setTimeout` become explicit calls.
  - The regeneration a tick schedules is returned as a flag.
  - Effect re-registration, state batching and development double-invocation are not modelled.
- RotatingQr.Controller.GenerateNewJwt: every failure of token creation carries a message, so the fallback text "Error generando QR" never arises in the model.
- StaffScanner.ScannerScreen.BeginScan: scans are sequential. The source's guard reads the rendered `isScanning`, so two scans started within one render could both pass. That race is not modelled.
- StaffScanner.Reply: a body that parsed to `null` or a primitive is passed as `Failed`, because the source's `in` test throws on it and the screen shows WARN-OFFLINE. A `decision`, `ticketId` or `reason` that is not a string is not modelled.
- StaffScanner: the 1200 ms navigation delay, routing, `localStorage` and all markup are left out.
- AppConfig.ParseInt: the result is an exact integer. For very long digit strings the source would round to a double.
- Numeric fields: configuration numbers, TTLs and reentry counts are integers. Fractional values are not modelled.
- The randomised screens, camera capture, QR image generation, the progress-bar width and the purely presentational components are not part of this model.

## Findings

| source | as written | input that shows it | evidently intended | confidence | as-written member | corrected member |
|---|---|---|---|---|---|---|
| mock-server.js:162-176 | `mockTickets[ticketId]` also finds members inherited from `Object.prototype`. Such a hit has no `status`, so the gate answers DENY/USED | a token whose `sub` is "constructor" | DENY/NOT_FOUND for an id that is not a ticket | high (not executed) | Backoffice.GateLookupAsWritten, shown by Backoffice.PrototypeKeyMisreported | Backoffice.GateScan, proved by Backoffice.GateUnknownSubject |
| mock-server.js:230-251 | the same lookup in the zone handler passes `!ticket`, and the zone answers DENY/NO_ENTITLEMENT | a token whose `sub` is "constructor" | DENY/NOT_FOUND | high (not executed) | Backoffice.ZoneLookupAsWritten, shown by Backoffice.PrototypeKeyMisreported | Backoffice.ZoneScan, proved by Backoffice.ZoneDecision |
| mock-server.js:99-112 | session issuance finds the inherited member and answers 400 "Ticket not active" | `GET /api/tickets/constructor/session` | 404 "Ticket not found" | high (not executed) | Backoffice.SessionAsWritten, shown by Backoffice.PrototypeKeyMisreported | Backoffice.IssueSession, proved by Backoffice.SessionOutcome |
| mock-server.js:64-78 | staff login finds the inherited member, whose missing `pin` never matches, and answers 401 "Invalid PIN" | `{"staffId": "constructor", "pin": "1234"}` | 404 "Staff not found" | high (not executed) | Backoffice.LoginLookupAsWritten, shown by Backoffice.PrototypeKeyMisreported | Backoffice.StaffLogin, proved by Backoffice.LoginOutcome |
