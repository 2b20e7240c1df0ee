/**
 * The message ingress router: how one parsed client message is routed —
 * handed back to the WS-Man layer (a 401), answered with a first WS-Man call
 * (activation without a realm, deactivation), forwarded to the session's
 * executor, or turned into an error response. Line references are to
 * src/DataProcessor.ts.
 */
module Ingress {
  import opened Wrappers
  import opened Wire
  import opened Transport
  import opened Sessions
  import CiraSpec
  import AcmSpec
  import Dispatch

  const UNAUTHORIZED: string := "401"
  const OK: string := "200"
  const GENERAL_SETTINGS_ENUM: string := "*AMT_GeneralSettings"
  const SETUP_AND_CONFIGURATION_SERVICE: string := "AMT_SetupAndConfigurationService"
  const BAD_WSMAN_RESPONSE: string := " activation failed.Bad wsman response from AMT device"
  const UNSUPPORTED_METHOD: string := " Not a supported method received from AMT device"
  // TypeErrors: reading a field of `undefined`, or calling a missing method
  const UNDEFINED_PAYLOAD: string := "uuid of undefined"
  const UNDEFINED_RECORD: string := "action of undefined"
  const UNDEFINED_CLIENT_DATA: string := "ClientData of undefined"
  const NOT_SPLITTABLE: string := "split is not a function"

  // ---------------------------------------------------------------------------
  // The status code of a WS-Man reply (line 84)
  // ---------------------------------------------------------------------------

  /** A CR LF pair starts at index `i` of `t` */
  predicate CrlfAt(t: string, i: int)
  {
    0 <= i && i + 1 < |t| && t[i] == '\r' && t[i + 1] == '\n'
  }

  /** `t.split("\r\n")[0]`: the text before the first CR LF, all of `t` when there is none */
  function FirstLine(t: string): string
  {
    if |t| < 2 then t
    else if t[0] == '\r' && t[1] == '\n' then ""
    else [t[0]] + FirstLine(t[1..])
  }

  /** `s.substr(start, length)` for a start and a length that are not negative */
  function Substr(s: string, start: nat, length: nat): string
  {
    if start >= |s| then ""
    else if start + length <= |s| then s[start..start + length]
    else s[start..]
  }

  /** The characters String.prototype.trim removes: WhiteSpace and LineTerminator
      of ECMAScript, i.e. the Unicode space separators plus tab, the line
      breaks, vertical tab, form feed and the byte order mark */
  predicate IsSpace(c: char)
  {
    || c == ' ' || c == '\t' || c == '\n' || c == '\U{B}' || c == '\U{C}' || c == '\r'
    || c == '\U{A0}' || c == '\U{1680}' || ('\U{2000}' <= c <= '\U{200A}')
    || c == '\U{2028}' || c == '\U{2029}' || c == '\U{202F}' || c == '\U{205F}'
    || c == '\U{3000}' || c == '\U{FEFF}'
  }

  /** The number of white-space characters `s` starts with */
  function LeadingSpaces(s: string): (n: nat)
    ensures n <= |s|
    ensures forall i :: 0 <= i < n ==> IsSpace(s[i])
    ensures n == |s| || !IsSpace(s[n])
  {
    if |s| > 0 && IsSpace(s[0]) then 1 + LeadingSpaces(s[1..]) else 0
  }

  /** The number of white-space characters `s` ends with */
  function TrailingSpaces(s: string): (n: nat)
    ensures n <= |s|
    ensures forall i :: |s| - n <= i < |s| ==> IsSpace(s[i])
    ensures n == |s| || !IsSpace(s[|s| - n - 1])
  {
    if |s| > 0 && IsSpace(s[|s| - 1]) then 1 + TrailingSpaces(s[..|s| - 1]) else 0
  }

  /** `s.trim()` */
  function Trim(s: string): string
  {
    var t := s[LeadingSpaces(s)..];
    t[..|t| - TrailingSpaces(t)]
  }

  /** `msg[0].substr(9, 3).trim()` with `msg = payload.split("\r\n")` */
  function StatusCode(payload: string): string
  {
    Trim(Substr(FirstLine(payload), 9, 3))
  }

  /** The first line is the longest prefix of `t` in which no CR LF starts:
      either all of `t`, or a CR LF follows it */
  lemma {:induction false} FirstLineIsFirstLine(t: string)
    ensures |FirstLine(t)| <= |t| && FirstLine(t) == t[..|FirstLine(t)|]
    ensures forall i :: 0 <= i < |FirstLine(t)| ==> !CrlfAt(t, i)
    ensures FirstLine(t) == t || CrlfAt(t, |FirstLine(t)|)
    decreases |t|
  {
    if |t| >= 2 && !(t[0] == '\r' && t[1] == '\n') {
      FirstLineIsFirstLine(t[1..]);
      var f := FirstLine(t[1..]);
      assert FirstLine(t) == [t[0]] + f;
      forall i | 0 <= i < |FirstLine(t)|
        ensures !CrlfAt(t, i)
      {
        if i > 0 {
          assert !CrlfAt(t[1..], i - 1);
        }
      }
      if f != t[1..] {
        assert CrlfAt(t[1..], |f|);
      }
    }
  }

  /** A prefix without CR is part of the first line */
  lemma {:induction false} FirstLineSkips(p: string, q: string)
    requires forall i :: 0 <= i < |p| ==> p[i] != '\r'
    ensures FirstLine(p + q) == p + FirstLine(q)
    decreases |p|
  {
    if p == [] {
      assert p + q == q;
    } else if |p + q| < 2 {
      assert q == [] && p + q == p;
    } else {
      var t := p + q;
      assert t[0] == p[0] && t[0] != '\r';
      assert t[1..] == p[1..] + q;
      FirstLineSkips(p[1..], q);
      calc {
        FirstLine(t);
        [p[0]] + FirstLine(p[1..] + q);
        [p[0]] + (p[1..] + FirstLine(q));
        { assert [p[0]] + p[1..] == p; }
        p + FirstLine(q);
      }
    }
  }

  /** A string that neither starts nor ends with white space is its own trim */
  lemma TrimOfTrimmed(s: string)
    requires s != [] ==> !IsSpace(s[0]) && !IsSpace(s[|s| - 1])
    ensures Trim(s) == s
  {
  }

  /** The status line of an HTTP/1.1 reply, `HTTP/1.1 401 Unauthorized`
      (section 4 of RFC 9112): an 8-character version, a space and a 3-digit
      code give that code, whatever follows */
  lemma StatusCodeOfStatusLine(version: string, code: string, rest: string)
    requires |version| == 8 && forall i :: 0 <= i < 8 ==> version[i] != '\r'
    requires |code| == 3 && forall i :: 0 <= i < 3 ==> '0' <= code[i] <= '9'
    ensures StatusCode(version + " " + code + rest) == code
  {
    var head := version + " " + code;
    assert version + " " + code + rest == head + rest;
    FirstLineSkips(head, rest);
    var line := head + FirstLine(rest);
    assert line[9..12] == code;
    TrimOfTrimmed(code);
  }

  // ---------------------------------------------------------------------------
  // Routing (lines 46-114)
  // ---------------------------------------------------------------------------

  /** What processData decides to do with one message */
  datatype Plan =
    | Raise(error: Error)                 // something is thrown inside the try block
    | ReturnDecoded(text: string)         // lines 86-87: a 401 goes back to the WS-Man layer
    | EnumerateSettings                   // line 66: the first call of an activation
    | QuerySetup                          // line 78: the first call of a deactivation
    | Dispatch(message: ClientMsg)        // lines 68 and 99: forward to the session's executor

  /** What processData returns: nothing (`undefined`), a response, or what
      the WS-Man layer made of a 401 */
  datatype Returned = Nothing | Response(response: ClientResponse) | Decoded(reply: Option<WsmanResponse>)

  /** `payload.uuid` read as a condition: only a device payload has one */
  function UuidOf(p: MessagePayload): string
  {
    if p.Device? then p.device.uuid else ""
  }

  /** `payload.digestRealm` read as a condition */
  function DigestRealmOf(p: MessagePayload): string
  {
    if p.Device? then p.device.digestRealm else ""
  }

  /** The payload after `clientMsg.payload = parseWsManResponseXML(...)`:
      the decoder's result, or `undefined` */
  function DecodedPayload(w: Option<WsmanResponse>): MessagePayload
  {
    if w.Some? then Reply(w.value) else Absent
  }

  /**
   * Lines 47-104 on a message that parsed to `parsed` (or failed with the
   * text of what was thrown), from connection `id` whose session record is
   * `session`. `validation` is what validateActivationMsg or
   * validateDeactivationMsg throws, and `decode` is parseWsManResponseXML.
   */
  function PlanFor(parsed: Result<ClientMsg, string>, id: ClientId, session: Option<SessionView>,
                   validation: Option<Error>, decode: (string, ClientId, string) -> Option<WsmanResponse>): Plan
  {
    if parsed.Failure? then Raise(RPSError(parsed.error))
    else
      var msg := parsed.value;
      if msg.kind == ACTIVATION then
        if msg.payload.Absent? then Raise(OtherError(UNDEFINED_PAYLOAD))
        else if validation.Some? then Raise(validation.value)
        else if session.None? then Raise(OtherError(UNDEFINED_RECORD))
        else if session.value.action != CIRACONFIG && DigestRealmOf(msg.payload) == "" then EnumerateSettings
        else Dispatch(msg)
      else if msg.kind == DEACTIVATION then
        if msg.payload.Absent? then Raise(OtherError(UNDEFINED_PAYLOAD))
        else if validation.Some? then Raise(validation.value)
        else QuerySetup
      else if msg.kind == RESPONSE then
        if session.None? then Raise(OtherError(UNDEFINED_CLIENT_DATA))
        else if !msg.payload.Text? then Raise(OtherError(NOT_SPLITTABLE))
        else
          var code := StatusCode(msg.payload.text);
          if code == UNAUTHORIZED then ReturnDecoded(msg.payload.text)
          else if code == OK || session.value.action == CIRACONFIG then
            Dispatch(msg.(payload := DecodedPayload(decode(msg.payload.text, id, code))))
          else Raise(RPSError(DEVICE + session.value.payload.uuid + BAD_WSMAN_RESPONSE))
      else if msg.payload.Absent? then Raise(OtherError(UNDEFINED_PAYLOAD))
      else if UuidOf(msg.payload) != "" then Raise(RPSError(DEVICE + UuidOf(msg.payload) + UNSUPPORTED_METHOD))
      else if session.None? then Raise(OtherError(UNDEFINED_CLIENT_DATA))
      else Raise(RPSError(DEVICE + session.value.payload.uuid + UNSUPPORTED_METHOD))
  }

  /** What each outcome of the routing requires of the message, its session
      and its validation, in both directions */
  lemma PlanOutcomes(parsed: Result<ClientMsg, string>, id: ClientId, session: Option<SessionView>,
                     validation: Option<Error>, decode: (string, ClientId, string) -> Option<WsmanResponse>)
    // the first WS-Man call of an activation: only when neither CIRA is configured nor a realm given
    ensures PlanFor(parsed, id, session, validation, decode).EnumerateSettings? <==>
              && parsed.Success? && parsed.value.kind == ACTIVATION && !parsed.value.payload.Absent?
              && validation.None? && session.Some?
              && session.value.action != CIRACONFIG && DigestRealmOf(parsed.value.payload) == ""
    // the first WS-Man call of a deactivation
    ensures PlanFor(parsed, id, session, validation, decode).QuerySetup? <==>
              parsed.Success? && parsed.value.kind == DEACTIVATION && !parsed.value.payload.Absent? && validation.None?
    // a 401 reply is handed back to the WS-Man layer, never forwarded
    ensures PlanFor(parsed, id, session, validation, decode).ReturnDecoded? <==>
              && parsed.Success? && parsed.value.kind == RESPONSE && session.Some? && parsed.value.payload.Text?
              && StatusCode(parsed.value.payload.text) == UNAUTHORIZED
    // a session is only advanced by a complete activation, or by a reply that
    // is a 200 or, while configuring CIRA, any reply but a 401
    ensures PlanFor(parsed, id, session, validation, decode).Dispatch? <==>
              && parsed.Success? && session.Some?
              && var msg := parsed.value;
                 || (&& msg.kind == ACTIVATION && !msg.payload.Absent? && validation.None?
                     && (session.value.action == CIRACONFIG || DigestRealmOf(msg.payload) != ""))
                 || (&& msg.kind == RESPONSE && msg.payload.Text?
                     && var code := StatusCode(msg.payload.text);
                        code != UNAUTHORIZED && (code == OK || session.value.action == CIRACONFIG))
    // every other method is refused
    ensures parsed.Success? && parsed.value.kind !in {ACTIVATION, DEACTIVATION, RESPONSE} ==>
              PlanFor(parsed, id, session, validation, decode).Raise?
  {
  }

  /** A reply whose status line is `version code reason` (section 4 of RFC
      9112) is handed back on a 401, forwarded decoded on a 200 or while
      configuring CIRA, and refused otherwise */
  lemma ReplyRouting(version: string, code: string, rest: string, id: ClientId, session: SessionView,
                     decode: (string, ClientId, string) -> Option<WsmanResponse>)
    requires |version| == 8 && forall i :: 0 <= i < 8 ==> version[i] != '\r'
    requires |code| == 3 && forall i :: 0 <= i < 3 ==> '0' <= code[i] <= '9'
    ensures var text := version + " " + code + rest;
            PlanFor(Success(ClientMsg(RESPONSE, Text(text))), id, Some(session), None, decode)
            == if code == UNAUTHORIZED then ReturnDecoded(text)
               else if code == OK || session.action == CIRACONFIG then
                 Dispatch(ClientMsg(RESPONSE, DecodedPayload(decode(text, id, code))))
               else Raise(RPSError(DEVICE + session.payload.uuid + BAD_WSMAN_RESPONSE))
  {
    StatusCodeOfStatusLine(version, code, rest);
  }

  /** Lines 106-112: an RPSError becomes an error response; anything else is
      logged and `undefined` is returned */
  function Caught(id: ClientId, e: Error): (r: Returned)
    ensures r.Response? <==> e.RPSError?
    ensures e.RPSError? ==> r.response == ClientResponse(id, STATUS_ERROR, STATUS_FAILED, e.message)
  {
    match e
    case RPSError(m) => Response(ErrorResponse(id, m))
    case OtherError(_) => Nothing
  }

  /** What processData returns for what BuildResponseMessage returned or threw */
  function Settled(id: ClientId, r: Result<Option<ClientResponse>, Error>): Returned
  {
    match r
    case Success(resp) => if resp.Some? then Response(resp.value) else Nothing
    case Failure(e) => Caught(id, e)
  }

  /** The session record of `clientId`, if any */
  function SessionOf(clientManager: ClientManager, clientId: ClientId): Option<SessionView>
    reads clientManager, Dispatch.RecordFrame(clientManager, clientId)
  {
    if clientId in clientManager.clients then Some(clientManager.clients[clientId].View()) else None
  }

  class DataProcessor {
    const configurator: Configurator?
    const amtwsman: WSManProcessor
    const clientManager: ClientManager
    const clientActions: Dispatch.ClientActions

    /** The dispatcher works on the same collaborators */
    predicate Valid()
    {
      && clientActions.Valid()
      && clientActions.configurator == configurator && clientActions.amtwsman == amtwsman
      && clientActions.clientManager == clientManager
    }

    /** Lines 27-38 */
    constructor (configurator: Configurator?, amtwsman: WSManProcessor, clientManager: ClientManager,
                 services: AcmSpec.AcmServices)
      ensures Valid()
      ensures this.configurator == configurator && this.amtwsman == amtwsman && this.clientManager == clientManager
      ensures clientActions.AcmServices() == services
    {
      this.configurator := configurator;
      this.amtwsman := amtwsman;
      this.clientManager := clientManager;
      clientActions := new Dispatch.ClientActions(configurator, amtwsman, clientManager, services);
    }

    /**
     * Lines 46-114: route one message. `parsed` is what parseClientMsg
     * returned (or the text of what it threw), `validation` what the
     * activation or deactivation validator throws, `decode` the WS-Man XML
     * decoder, `nonce` the fresh nonce an admin-mode activation would sign
     * and `delegated` what the CCM activator or the deactivator returns.
     */
    method ProcessData(parsed: Result<ClientMsg, string>, clientId: ClientId, validation: Option<Error>,
                       decode: (string, ClientId, string) -> Option<WsmanResponse>, nonce: seq<byte>,
                       delegated: Option<ClientResponse>) returns (r: Returned)
      requires Valid()
      modifies Dispatch.RecordFrame(clientManager, clientId), amtwsman, RepositoryFrame(configurator)
      ensures var plan := old(PlanFor(parsed, clientId, SessionOf(clientManager, clientId), validation, decode));
              !plan.Dispatch? ==>
                (r, amtwsman.log, amtwsman.cache, StoredDevices(configurator), SessionOf(clientManager, clientId))
                == (match plan
                    case Raise(e) => Caught(clientId, e)
                    case ReturnDecoded(text) => Decoded(decode(text, clientId, UNAUTHORIZED))
                    case _ => Nothing,
                    old(amtwsman.log) + match plan
                      case EnumerateSettings => [BatchEnum(clientId, GENERAL_SETTINGS_ENUM)]
                      case QuerySetup => [GetWsmanResponse(clientId, SETUP_AND_CONFIGURATION_SERVICE)]
                      case _ => [],
                    old(amtwsman.cache), old(StoredDevices(configurator)), old(SessionOf(clientManager, clientId)))
      ensures var plan := old(PlanFor(parsed, clientId, SessionOf(clientManager, clientId), validation, decode));
              plan.Dispatch? ==>
                clientId in clientManager.clients
                && Forwarded(plan.message, clientId, clientManager.clients[clientId], nonce, delegated, r)
    {
      var plan := Route(parsed, clientId, validation, decode);
      match plan
      case Raise(e) =>
        r := Caught(clientId, e);
        AppendNothing(amtwsman.log);
      case ReturnDecoded(text) =>
        r := Decoded(decode(text, clientId, UNAUTHORIZED));
        AppendNothing(amtwsman.log);
      case EnumerateSettings =>
        amtwsman.Send(BatchEnum(clientId, GENERAL_SETTINGS_ENUM));
        r := Nothing;
      case QuerySetup =>
        amtwsman.Send(GetWsmanResponse(clientId, SETUP_AND_CONFIGURATION_SERVICE));
        r := Nothing;
      case Dispatch(m) =>
        r := Forward(m, clientId, nonce, delegated);
    }

    /**
     * Lines 47-104 up to the first effect: decide what to do with the
     * message. The payload of a RESPONSE is replaced by the decoded reply
     * (lines 89 and 93) before it is forwarded.
     */
    method Route(parsed: Result<ClientMsg, string>, clientId: ClientId, validation: Option<Error>,
                 decode: (string, ClientId, string) -> Option<WsmanResponse>) returns (plan: Plan)
      ensures plan == PlanFor(parsed, clientId, SessionOf(clientManager, clientId), validation, decode)
    {
      if parsed.Failure? {
        return Raise(RPSError(parsed.error));
      }
      var clientMsg := parsed.value;
      if clientMsg.kind == ACTIVATION {
        if clientMsg.payload.Absent? {
          return Raise(OtherError(UNDEFINED_PAYLOAD));
        }
        if validation.Some? {
          return Raise(validation.value);
        }
        if clientId !in clientManager.clients {
          return Raise(OtherError(UNDEFINED_RECORD));
        }
        var clientObj := clientManager.clients[clientId];
        if clientObj.action != CIRACONFIG && DigestRealmOf(clientMsg.payload) == "" {
          return EnumerateSettings;
        }
        plan := Dispatch(clientMsg);
      } else if clientMsg.kind == DEACTIVATION {
        if clientMsg.payload.Absent? {
          return Raise(OtherError(UNDEFINED_PAYLOAD));
        }
        if validation.Some? {
          return Raise(validation.value);
        }
        return QuerySetup;
      } else if clientMsg.kind == RESPONSE {
        if clientId !in clientManager.clients {
          return Raise(OtherError(UNDEFINED_CLIENT_DATA));
        }
        var clientObj := clientManager.clients[clientId];
        var payload := clientObj.payload;
        if !clientMsg.payload.Text? {
          return Raise(OtherError(NOT_SPLITTABLE));
        }
        var statusCode := StatusCode(clientMsg.payload.text);
        if statusCode == UNAUTHORIZED {
          return ReturnDecoded(clientMsg.payload.text);
        } else if statusCode == OK {
          clientMsg := clientMsg.(payload := DecodedPayload(decode(clientMsg.payload.text, clientId, statusCode)));
        } else {
          clientMsg := clientMsg.(payload := DecodedPayload(decode(clientMsg.payload.text, clientId, statusCode)));
          if clientObj.action != CIRACONFIG {
            return Raise(RPSError(DEVICE + payload.uuid + BAD_WSMAN_RESPONSE));
          }
        }
        plan := Dispatch(clientMsg);
      } else {
        if clientMsg.payload.Absent? {
          return Raise(OtherError(UNDEFINED_PAYLOAD));
        }
        if UuidOf(clientMsg.payload) != "" {
          return Raise(RPSError(DEVICE + UuidOf(clientMsg.payload) + UNSUPPORTED_METHOD));
        }
        if clientId !in clientManager.clients {
          return Raise(OtherError(UNDEFINED_CLIENT_DATA));
        }
        return Raise(RPSError(DEVICE + clientManager.clients[clientId].payload.uuid + UNSUPPORTED_METHOD));
      }
    }

    /**
     * Lines 68 and 99: what forwarding `message` from connection `clientId`
     * does to its record, the WS-Man log and cache and the repository, with
     * `r` what processData then returns (BuildResponseMessage's result, or
     * its exception caught as in lines 106-112).
     */
    twostate predicate Forwarded(message: ClientMsg, clientId: ClientId, obj: ClientObject, nonce: seq<byte>,
                                 delegated: Option<ClientResponse>, r: Returned)
      requires Valid()
      reads obj, amtwsman, RepositoryFrame(configurator)
    {
      match Dispatch.RouteOf(old(obj.action), clientActions.Handlers())
            case NoAction =>
              r == Caught(clientId, RPSError(Dispatch.NO_CLIENT_MESSAGE)) && unchanged(obj) && unchanged(amtwsman)
              && unchanged(RepositoryFrame(configurator))
            case Unsupported =>
              r == Caught(clientId, RPSError(DEVICE + obj.uuid + Dispatch.NOT_SUPPORTED_ACTION)) && unchanged(obj)
              && unchanged(amtwsman) && unchanged(RepositoryFrame(configurator))
            case Forward(Delegated) =>
              r == Settled(clientId, Success(delegated))
            case Forward(RunsCira) =>
              var c := CiraSpec.CiraStep(clientId, old(obj.View()), ReplyView(message.payload),
                                         old(clientActions.Cira().StoredPassword(obj.payload.uuid)));
              (obj.View(), amtwsman.log, amtwsman.cache, r)
              == (c.session, old(amtwsman.log) + c.calls,
                  SwapCredentials(old(amtwsman.cache), clientId, c.adminChannel), Settled(clientId, Success(c.response)))
              && unchanged(RepositoryFrame(configurator))
            case Forward(RunsAcm) =>
              var a := AcmSpec.AcmStep(clientId, old(obj.View()), ReplyView(message.payload), clientActions.AcmServices(),
                                       nonce, RepositoryOf(configurator) != null,
                                       old(clientActions.Cira().StoredPassword(obj.payload.uuid)));
              (obj.View(), amtwsman.log, amtwsman.cache, StoredDevices(configurator), r)
              == (a.session, old(amtwsman.log) + a.calls,
                  SwapCredentials(old(amtwsman.cache), clientId, a.adminChannel),
                  WithDevice(old(StoredDevices(configurator)), a.inserted), Settled(clientId, Success(a.response)))
    }

    /** Lines 68 and 99 with the catch of lines 106-112 */
    method Forward(message: ClientMsg, clientId: ClientId, nonce: seq<byte>, delegated: Option<ClientResponse>)
      returns (r: Returned)
      requires Valid() && clientId in clientManager.clients
      modifies clientManager.clients[clientId], amtwsman, RepositoryFrame(configurator)
      ensures Forwarded(message, clientId, clientManager.clients[clientId], nonce, delegated, r)
    {
      var result := clientActions.BuildResponseMessage(message, clientId, nonce, delegated);
      r := Settled(clientId, result);
    }
  }
}
