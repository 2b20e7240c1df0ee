# Remote Provisioning Server session core, in Dafny

This project models the server side of Intel AMT remote provisioning, as done by
the Remote Provisioning Server (RPS). A device-side client talks to RPS over a WebSocket.
RPS answers each client message by calling the device's WS-Man interface and
updating the session record it keeps for that client.

The model covers these parts:

- **Ingress.** `DataProcessor.processData` turns one incoming message into a
  plan: raise, hand a 401 back, make the first WS-Man call of an activation or
  a deactivation, or forward to the session's executor. The status code of a
  WS-Man reply is read from its first line.
- **Dispatch.** The `ClientActions` table maps an action kind to its executor.
  `BuildResponseMessage` forwards a message to the executor of the session's action.
- **Acm.** The admin-control-mode activator. It resolves the provisioning
  certificate and checks its fingerprint against the device's trusted hashes.
  It uploads the certificate chain one link per reply, then signs the nonces
  and sends `AdminSetup`. It stores the device's credentials, reads the replies,
  and hands the session to CIRA configuration once admin setup succeeds.
- **Cira.** The CIRA configurator. It first tears down what is already
  configured: the MPS endpoints, trusted root certificates, the environment
  detection settings and the rest of the first chain. Then it builds the new
  configuration: the root certificate, the MPS server, the remote-access policy,
  user-initiated connection and environment detection. It also looks up the AMT
  password.
- **Parser.** `ClientMsgJsonParser` decodes a client message. It parses the
  payload and formats the device UUID as a GUID string, using `zeroLeftPad`.

How state is represented:

- The session record and the store of records are classes.
  - Handlers update the session record in place, and every executor shares the
    same object.
  - The WS-Man processor is a class too. Its `log` field holds the calls sent,
    in order. Its `cache` field holds the credentials each client uses.
- Pure functions describe one step of each executor on a value view of the
  session: `CiraSpec.CiraStep`, `AcmSpec.AcmStep` and `Ingress.PlanFor`.
  - Each imperative method is proved to do exactly what its function says.
  - Properties are proved as lemmas about those functions.
- These are parameters of the model:
  - JSON parsing, base64 decoding and XML decoding of WS-Man replies;
  - the message validator's verdicts;
  - certificate conversion and signing;
  - the realm check;
  - the nonce;
  - the stored secrets.

The model follows the code where the code is surprising:

- In processData, an exception that is not an `RPSError` is logged, but its
  error response is built and never returned (line 111). The call then
  returns nothing, and the model does the same.
- `count` starts as `undefined`, which behaves like `0`.

## Model

| member | source | states |
|---|---|---|
| Wire.ReplyView | src/actions/ACMActivator.ts:48-50 | A payload counts as missing iff it is absent or empty text. A decoded reply is read as itself, and any other payload as a reply of no known kind. |
| Transport.SwapCredentials | src/actions/CIRAConfigurator.ts:140-143 | Only the cached credentials of the given client change, and they become admin with the session password. Every other client's entry and the key set stay the same. |
| Transport.WSManProcessor.UseAdminCredentials | src/actions/CIRAConfigurator.ts:140-143 | The cache becomes the credential swap of the old cache for this client. |
| CiraSpec.TeardownRestCarries | src/actions/CIRAConfigurator.ts:175-211 | The rest of the teardown does not depend on the calls already queued or the password carried in. It appends its own calls after them. |
| CiraSpec.MpsServerOf | src/actions/CIRAConfigurator.ts:53-63 | The AddMpServer body copies the address, format, port, auth method and credentials of the profile. It has a common name iff the address format is 3 (an FQDN) and a common name is set. |
| CiraSpec.PlaceholderDetection | src/actions/CIRAConfigurator.ts:103-107 | Whatever detection settings the device reported, the ones sent back hold only the placeholder domain. |
| CiraSpec.CiraFailure | src/actions/CIRAConfigurator.ts:119-126 | A failure answers error/failed. An RPSError's own message is carried; any other error gives the status plus the fixed CIRA failure text. |
| CiraProperties.TeardownRestMoves | src/actions/CIRAConfigurator.ts:175-211 | The second half of the teardown never clears a milestone. It adds only the remote SAP, public certificate and environment milestones. |
| CiraProperties.TeardownRestKeepsOrder | src/actions/CIRAConfigurator.ts:175-211 | The second half of the teardown keeps the milestones consistent with the order of the chain. |
| CiraProperties.TeardownMoves | src/actions/CIRAConfigurator.ts:135-212 | One teardown step never clears a milestone. It adds only teardown milestones. |
| CiraProperties.FirstChainInOrder | src/actions/CIRAConfigurator.ts:137-174 | A teardown step completes at most one link of the first chain. That link is the first one not yet done, and every link before it is done. |
| CiraProperties.OnlyFirstStep | src/actions/CIRAConfigurator.ts:137-174 | Setting the first pending link, then running only second-half steps, leaves exactly that link newly done among the first chain. |
| CiraProperties.BuildMoves | src/actions/CIRAConfigurator.ts:41-113 | One build step never clears a milestone. It adds only build milestones. |
| CiraProperties.CiraStepKeepsFlags | src/actions/CIRAConfigurator.ts:33-127 | A whole CIRA step, success or failure, never clears a milestone. |
| CiraProperties.CiraStepKeepsRecord | src/actions/CIRAConfigurator.ts:33-127 | A CIRA step changes only the configuration progress and the session's password. The CIRA status and the rest of the record are kept. |
| CiraProperties.TeardownKeepsOrder | src/actions/CIRAConfigurator.ts:135-212 | A teardown step keeps the milestones ordered. |
| CiraProperties.BuildKeepsOrder | src/actions/CIRAConfigurator.ts:41-113 | Once teardown is over, a build step keeps the milestones ordered. |
| CiraProperties.BuildOnlyAfterTeardown | src/actions/CIRAConfigurator.ts:38-117 | The build runs only when the profile names a CIRA configuration and the teardown is complete. Otherwise the round is the teardown alone: a complete teardown answers success with the status, an incomplete one answers nothing, and a teardown error answers the failure. |
| CiraProperties.MpsServerChecked | src/actions/CIRAConfigurator.ts:65-73 | The AddMpServer reply is checked. SUCCESS enumerates the MPS endpoints; anything else fails with "Failed to add Management Presence Server." |
| CiraProperties.PolicyRuleNeedsMps | src/actions/CIRAConfigurator.ts:74-91 | A non-empty MPS enumeration adds a policy rule naming the first endpoint, with trigger 2, tunnel lifetime 0 and "AAAAAAAAABk=". A missing or empty enumeration fails with the MPS-not-added text. |
| CiraProperties.PolicyRuleFixed | src/actions/CIRAConfigurator.ts:82-87 | Every policy rule the build adds has trigger 2 (periodic), tunnel lifetime 0 and the 25-second extended data. |
| CiraProperties.CiraStepKeepsOrder | src/actions/CIRAConfigurator.ts:33-127 | Every CIRA step keeps the milestones ordered. The order is an invariant of the configuration session. |
| CiraProperties.TeardownDoneIsQuiet | src/actions/CIRAConfigurator.ts:135-212 | Once the environment settings are set, the teardown makes no call and changes nothing. |
| CiraProperties.EnvironmentGuardAsIntended | src/actions/CIRAConfigurator.ts:100 | On every ordered progress reachable in the build, the guard on the teardown's environment flag is the guard on the CIRA environment flag that was meant. |
| CiraProperties.MpsEndpointDeletion | src/actions/CIRAConfigurator.ts:162-174 | After the remote SAP enumeration, an empty list moves on to enumerating public certificates. Otherwise the first endpoint is deleted by name. |
| CiraProperties.CertDeletesReversed | src/actions/CIRAConfigurator.ts:184-187 | The certificate deletions are as many as the pending certificates. They go from last to first. |
| CiraProperties.DrainOne | src/actions/CIRAConfigurator.ts:180-192 | While certificates are pending, one step deletes exactly the last pending certificate and drops it from the list. |
| CiraProperties.PendingCertsDrained | src/actions/CIRAConfigurator.ts:180-192 | Over as many replies as there are pending certificates, every one is deleted in reverse order. The list ends empty and nothing fails. |
| CiraProperties.RoundsSplit | src/actions/CIRAConfigurator.ts:135-212 | A run of teardown rounds over replies a + b is the run over a followed by the run over b. |
| CiraProperties.PublicCertDeletesMatchEnumeration | src/actions/CIRAConfigurator.ts:176-192 | Every public certificate the device enumerates is deleted, last first. Then the environment detection settings are enumerated. |
| Cira.CIRAConfigurator.constructor | src/actions/CIRAConfigurator.ts:19-25 | The configurator keeps the collaborators it is given. |
| Cira.CIRAConfigurator.SetAMTPassword | src/actions/CIRAConfigurator.ts:215-234 | With a stored non-empty `amtpass`, the session payload's password becomes that `amtpass` and nothing else in the payload changes. A missing device, an empty password or a missing repository leaves the payload unchanged and returns the source's RPSError text. |
| Cira.CIRAConfigurator.Delete | src/actions/CIRAConfigurator.ts:135-212 | The session progress, the calls sent, the credential cache and the result are exactly those of the teardown step function. |
| Cira.CIRAConfigurator.DeleteRest | src/actions/CIRAConfigurator.ts:175-211 | The second half of the teardown does exactly what its step function says. |
| Cira.CIRAConfigurator.Configure | src/actions/CIRAConfigurator.ts:41-113 | One build step does exactly what the build function says to the progress, the calls and the result. The build function's failures and fixed fields are stated by MpsServerChecked, PolicyRuleNeedsMps and PolicyRuleFixed. |
| Cira.CIRAConfigurator.Execute | src/actions/CIRAConfigurator.ts:33-127 | The session, the calls, the cache and the response are exactly those of the CIRA step function. Failures answer error/failed. |
| AcmSpec.ToLower | src/actions/ACMActivator.ts:160 | Lower-casing keeps the length and lower-cases each ASCII letter A-Z, leaving every other character as it is. |
| AcmSpec.Trusted | src/actions/ACMActivator.ts:159-163 | A fingerprint is trusted iff some stored hash matches it, ignoring case. |
| AcmSpec.ProvisioningCertObj | src/actions/ACMActivator.ts:145-168 | A conversion error is passed on. Otherwise the certificate object is returned iff its fingerprint is trusted; an untrusted one gives nothing. |
| AcmSpec.AdminSetupDone | src/actions/ACMActivator.ts:200-203 | After admin setup, the session action becomes CIRA configuration with the admin-mode status. Progress, payload and cursor are kept. |
| AcmSpec.ProcessReply | src/actions/ACMActivator.ts:171-212 | A reply that hands off leaves exactly the admin-setup-done session and sends nothing. |
| AcmSpec.Provision | src/actions/ACMActivator.ts:57-127 | A provisioning round changes only the chain cursor and the certificate object of the session. |
| AcmSpec.AdminSetupRequest | src/actions/ACMActivator.ts:95-124 | Signing and admin setup leave the session unchanged. |
| AcmSpec.AcmFailure | src/actions/ACMActivator.ts:128-135 | A failure answers error/failed. An RPSError's own message is carried; anything else gives the fixed activation failure text. |
| AcmProperties.LowerCharIdempotent | src/actions/ACMActivator.ts:160 | Lower-casing a character twice is lower-casing it once. |
| AcmProperties.SameHashIgnoresCase | src/actions/ACMActivator.ts:160 | A hash matches its own lower-cased form. |
| AcmProperties.MatchIgnoresCase | src/actions/ACMActivator.ts:159-163 | The certificate found does not depend on the case of the fingerprint. |
| AcmProperties.ResolveFailures | src/actions/ACMActivator.ts:59-76 | On the first round, a missing provisioning certificate fails with "not found on server". A conversion error fails with its message. An unreadable or untrusted certificate fails with the not-trusted text, and a trusted one is recorded. On later rounds nothing is resolved. |
| AcmProperties.RealmHandling | src/actions/ACMActivator.ts:175-185 | A settings reply without its `response` throws a TypeError. Otherwise it fails iff the realm is invalid, with the invalid-realm text. A valid realm is recorded and nothing else of the record changes. Host-based setup is enumerated iff no firmware nonce is known yet; otherwise nothing is sent. |
| AcmProperties.NonceHandling | src/actions/ACMActivator.ts:186-190 | A host-based setup reply without its `response` throws a TypeError. Otherwise the firmware nonce and the allowed modes are recorded, nothing else changes and nothing is sent. |
| AcmProperties.MissingResponseFails | src/actions/ACMActivator.ts:175-190 | A settings or host-based setup key without its `response` answers the generic activation failure (line 133) and leaves the session, the calls and the stored devices untouched. |
| AcmProperties.NonZeroReturnValueFails | src/actions/ACMActivator.ts:191-198 | A non-zero return value of AddNextCertInChain or AdminSetup fails with the matching text. The session, the calls and the stored devices are untouched. |
| AcmProperties.UnknownReplyFails | src/actions/ACMActivator.ts:207-208 | A missing payload fails with the missing-payload text. A reply with no settings or host-based setup key, and no AddNextCertInChain or AdminSetup header, fails with the invalid-response text. Neither changes the session, sends a call or stores a device. |
| AcmProperties.AdminSetupHandsOff | src/actions/ACMActivator.ts:196-205 | A successful AdminSetup switches the session to CIRA configuration. It then behaves exactly as one CIRA step, with no response of its own. |
| AcmProperties.UploadFlags | src/actions/ACMActivator.ts:83-90 | The k-th upload call carries the k-th chain link, is flagged leaf iff k is 0, and is flagged root iff it is the last link after the first. |
| AcmProperties.CursorAdvances | src/actions/ACMActivator.ts:78-93 | During the upload, k rounds advance the cursor by k and send exactly the next k links, in order. |
| AcmProperties.ChainUploadedInOrder | src/actions/ACMActivator.ts:59-93 | Starting from a trusted certificate, as many rounds as chain links upload the whole chain in order, without failing. |
| AcmProperties.SigningRound | src/actions/ACMActivator.ts:95-124 | After the last link, a signing error fails with its message. Otherwise AdminSetup is sent with the digest of the password and the signed nonces, and the device is stored iff a repository exists. |
| AcmProperties.NoSigningDuringUpload | src/actions/ACMActivator.ts:83-95 | While links remain, a round uploads the next one and neither signs nor stores anything. |
| Acm.ACMActivator.constructor | src/actions/ACMActivator.ts:26-36 | The activator keeps its collaborators, including the shared CIRA configurator. |
| Acm.ACMActivator.Execute | src/actions/ACMActivator.ts:44-136 | The session, the calls, the cache, the stored devices and the response are exactly those of the ACM step function. |
| Acm.ACMActivator.ContinueActivation | src/actions/ACMActivator.ts:56-127 | Provisioning runs only when the action and nonce allow it, and then does what the provisioning function says. |
| Acm.ACMActivator.GetProvisioningCertObj | src/actions/ACMActivator.ts:145-168 | Returns the certificate object of the converted certificate, trusted against the device's hashes. |
| Acm.ACMActivator.ProcessWSManJsonResponse | src/actions/ACMActivator.ts:171-212 | The session, the calls and the error are those the reply function gives for the stored reply. |
| Acm.ACMActivator.ReadReply | src/actions/ACMActivator.ts:173-211 | Each kind of reply updates the session as the reply function says, or fails with its error. |
| Acm.ACMActivator.HandOff | src/actions/ACMActivator.ts:200-205 | After admin setup, the session is marked for CIRA configuration and one CIRA step runs on it. |
| Acm.ACMActivator.ProvisionRound | src/actions/ACMActivator.ts:57-127 | One round of certificate resolution, chain upload or signing does what the provisioning function says. |
| Acm.ACMActivator.ResolveProvisioningCert | src/actions/ACMActivator.ts:59-76 | The certificate object is recorded, or the resolution error is returned with the session untouched. |
| Acm.ACMActivator.RequestAdminSetup | src/actions/ACMActivator.ts:95-124 | The admin-setup call and the stored device are those of the admin-setup function. |
| Dispatch.ClientActions.constructor | src/ClientActions.ts:30-49 | The table has exactly the four action kinds. All executors share the collaborators, and the ACM and CCM activators share the one CIRA configurator. |
| Dispatch.ClientActions.Handlers | src/ClientActions.ts:41-48 | Every registered action kind has a handler. |
| Dispatch.ClientActions.BuildResponseMessage | src/ClientActions.ts:58-70 | A missing record, a falsy action and an unregistered action each fail with their own error and change nothing. A registered CIRA or ACM action does exactly what its executor's step function says. The CCM activator and the deactivator answer the `delegated` parameter; what they change is not constrained. |
| Ingress.LeadingSpaces | src/DataProcessor.ts:84 | The spaces trim removes at the front are all whitespace, and the character after them is not. |
| Ingress.TrailingSpaces | src/DataProcessor.ts:84 | The spaces trim removes at the end are all whitespace, and the character before them is not. |
| Ingress.FirstLineIsFirstLine | src/DataProcessor.ts:83 | The first line is a prefix with no CRLF starting inside it. It is the whole text or is followed by CRLF. |
| Ingress.FirstLineSkips | src/DataProcessor.ts:83 | Text without a carriage return stays in the first line of what follows. |
| Ingress.StatusCodeOfStatusLine | src/DataProcessor.ts:83-84 | For a status line `version code reason` with a three-digit code, the code read is that code. |
| Ingress.ReplyRouting | src/DataProcessor.ts:79-99 | A reply with status 401 is handed back. A 200, or any status while configuring CIRA, is forwarded decoded. Any other status raises the bad-response error. |
| Ingress.PlanOutcomes | src/DataProcessor.ts:47-104 | Each plan is stated in both directions. The first enumeration happens iff a valid activation with a payload finds a session that is not configuring CIRA and gets no realm. The deactivation query happens iff a deactivation with a payload is valid. A 401 text reply with a session is handed back. Forwarding happens iff, with a session, an activation is valid and CIRA or a realm is present, or a text reply is not 401 and is 200 or in CIRA configuration. Any other method raises. |
| Ingress.Caught | src/DataProcessor.ts:106-112 | An error response is returned iff the error is an RPSError, and it carries its message. Anything else returns nothing. |
| Ingress.DataProcessor.constructor | src/DataProcessor.ts:27-38 | The processor builds a valid action table on its own collaborators. |
| Ingress.DataProcessor.Route | src/DataProcessor.ts:47-104 | Returns the plan that the routing function gives for the message, the session and the validation. |
| Ingress.DataProcessor.ProcessData | src/DataProcessor.ts:46-114 | Every plan other than dispatch yields exactly the planned return value and first call, and changes no session or device. A dispatch returns what forwarding returns. |
| Ingress.DataProcessor.Forward | src/DataProcessor.ts:106-112 | What BuildResponseMessage (lines 68 and 99) returns or throws settles through the catch into the returned value. For the CCM activator and the deactivator the settled value is the `delegated` answer. |
| Parser.LeftPad | src/utils/ClientMsgJsonParser.ts:71-81 | The result is at least len long, ends with the string, and has only zeros before it. |
| Parser.ZeroLeftPad | src/utils/ClientMsgJsonParser.ts:71-81 | The loop yields null iff len is null. Otherwise it gives the left-padding of the string, or of "" for null. |
| Parser.Hex | src/utils/ClientMsgJsonParser.ts:86-89 | toString(16) gives only hex digits, with no leading zero unless it is "0". |
| Parser.HexRoundTrip | src/utils/ClientMsgJsonParser.ts:86-89 | Reading back the hex text of a number gives the number. |
| Parser.PaddedHexIsFixed | src/utils/ClientMsgJsonParser.ts:86-89 | Padding the hex text of a number below 16^k to k digits gives its fixed-width k-digit form. |
| Parser.BytesHex | src/utils/ClientMsgJsonParser.ts:90 | Hex encoding gives two hex digits per byte, each pair encoding its byte. |
| Parser.Hex16 | src/utils/ClientMsgJsonParser.ts:87-89 | A 16-bit group padded to four digits is the two bytes' hex, high byte first. |
| Parser.Hex32 | src/utils/ClientMsgJsonParser.ts:86 | A 32-bit group padded to eight digits is the four bytes' hex, most significant first. |
| Parser.GroupsJoined | src/utils/ClientMsgJsonParser.ts:85-90 | Groups of 8, 4, 4, 4 and 12 hex digits, joined by hyphens, have hyphens exactly at 8, 13, 18 and 23, and hex digits everywhere else. |
| Parser.UuidOfSixteenBytes | src/utils/ClientMsgJsonParser.ts:83-93 | A 16-byte UUID becomes the mixed-endian GUID layout. It is 36 characters, with hyphens exactly at positions 8, 13, 18 and 23 and hex digits elsewhere. |
| Parser.GetUUID | src/utils/ClientMsgJsonParser.ts:83-93 | The method gives the GUID text, or the out-of-bounds error for fewer than 10 bytes. |
| Parser.PayloadOf | src/utils/ClientMsgJsonParser.ts:56-69 | A JSON error fails with the parse-error prefix. Parsing succeeds iff client, ver, build and uuid are all truthy and the uuid can be read. A falsy field fails with the invalid-payload text. |
| Parser.ParsePayload | src/utils/ClientMsgJsonParser.ts:56-69 | The method returns what the payload function gives. |
| Parser.Converted | src/utils/ClientMsgJsonParser.ts:38-49 | An empty decoded payload fails with the missing-payload text. A RESPONSE keeps the decoded text. Other messages succeed iff their payload parses, with its value or its error. |
| Parser.ConvertClientMsg | src/utils/ClientMsgJsonParser.ts:38-49 | The method returns what the conversion function gives. |

## Left out

- The message validator (`parseClientMsg`, `validateActivationMsg`, `validateDeactivationMsg`) is not part of this model. Its verdicts are parameters of `ProcessData`, and a parse failure is carried as its message text.
- CCMActivator.ts and Deactivator.ts are not part of this model. Their executors are stub classes in the table whose `Execute` returns the `delegated` parameter. `Execute` may change the session record, the WS-Man connection and the device repository, and the model says nothing about how.
- The WS-Man processor's XML decoding is a parameter, and so is anything it does on a 401 (`parseWsManResponseXML`). JSON parsing and base64 decoding are parameters too.
- Logging is not modelled, because it has no effect on results.
- Runtime TypeError and RangeError texts are modelled as `OtherError` details. Only whether an error is an `RPSError` decides the response.
- Parser.GetUUID: the conversion that `Buffer.from` applies to array elements that are not bytes is not modelled. The uuid is taken as a byte sequence.
- Parser.PayloadOf: `ver` and `build` are taken as strings, so a JSON number there is not modelled.
- Parser.ZeroLeftPad: `len` is taken as an optional integer. A non-numeric `len` is not modelled.
- AcmSpec.ToLower: only the ASCII letters A-Z are folded, whereas `toLowerCase` folds every Unicode letter and can change the length (U+0130). The hashes and fingerprints compared at line 160 of src/actions/ACMActivator.ts are hexadecimal, so the difference does not arise for them.
- `async`/`await` is modelled as sequential calls.
- The in-place update of the freshly parsed client message is modelled on values. That message is never shared.
- `RCS.Config` loading, SecretManagerService, the admin profile routes and IProfileManager are not part of this model. The secrets and profile data they supply are fields of `AcmServices` and of the session record.
- Certificate conversion (`convertPfx`) and signing are parameters that return a result or an error text. The base64 and PFX formats are not modelled.
- The nonce an admin-mode activation signs is a parameter.
- Acm.ACMActivator.Execute: the early `return response` in execute cannot be reached with a response, so it is not modelled.
- Acm.ACMActivator.Execute: a missing session record is excluded by its precondition. BuildResponseMessage already fails on a missing record before calling an executor.
- Cira.CIRAConfigurator.Execute: a missing session record is excluded by its precondition, for the same reason.
- Acm.ACMActivator.ProcessWSManJsonResponse: the precondition requires a decoded reply. Execute checks this before calling it.
- CIRA progress is a set of milestones. A milestone is in the set iff the source's boolean flag of that name is true.
- Strings are sequences of Unicode characters, while `substr` (line 84 of src/DataProcessor.ts) counts UTF-16 code units. A status line holding characters outside the Basic Multilingual Plane is therefore not modelled.
