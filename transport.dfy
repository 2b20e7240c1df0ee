/**
 * The WS-Man transport seen from the core: every outbound call is an opaque
 * descriptor appended to a log. Wire formatting, XML and digest
 * authentication are not part of this model.
 */
module Transport {
  import opened Wrappers
  import opened Wire

  /** Bodies of the `execute` (invoke) calls the core issues */
  datatype CallBody =
    | TrustedRootCert(certificateBlob: string)
    | MpServer(accessInfo: string, infoFormat: int, port: int, authMethod: int,
               username: string, password: string, cn: Option<string>)
    | PolicyRule(trigger: int, tunnelLifeTime: int, extendedData: string, mpServer: string)
    | RequestedState(state: int)

  /** Selectors of the `delete` calls */
  datatype Selector =
    | PolicyRuleName(name: string)
    | SapName(name: string)
    | Certificate(cert: PublicCert)

  /** The result of SignatureHelper.signString: an empty errorText means success */
  datatype SignResult = SignResult(signature: string, errorText: string)

  /** SignatureHelper.createMd5Hash, kept symbolic */
  datatype Md5Digest = Md5Of(input: string)

  /** One outbound WS-Man call, addressed to the connection `clientId` */
  datatype WsmanCall =
    | Execute(clientId: ClientId, className: string, methodName: string, body: CallBody)
    | BatchEnum(clientId: ClientId, className: string)
    | Put(clientId: ClientId, className: string, settings: EnvSettings)
    | Delete(clientId: ClientId, className: string, selector: Selector)
    | CertChainStep(clientId: ClientId, cert: string, isFirst: bool, isLast: bool)
    | SetupAcm(clientId: ClientId, passwordHash: Md5Digest, nonce: seq<byte>, signature: SignResult)
    | GetWsmanResponse(clientId: ClientId, className: string)

  /** Credentials of a cached WS-Man connection. `AdminWithSessionPassword` is
      the state after the CIRA teardown replaces the getters: user `admin`, and
      the password read from the session record whenever it is needed. */
  datatype Credentials = Initial(username: string, password: string) | AdminWithSessionPassword

  function SwapCredentials(cache: map<ClientId, Credentials>, clientId: ClientId, swap: bool): (r: map<ClientId, Credentials>)
    ensures r.Keys == cache.Keys
    ensures forall id :: id in r && id != clientId ==> r[id] == cache[id]
    ensures clientId in r ==> r[clientId] == if swap then AdminWithSessionPassword else cache[clientId]
  {
    if swap && clientId in cache then cache[clientId := AdminWithSessionPassword] else cache
  }

  class WSManProcessor {
    var log: seq<WsmanCall>
    var cache: map<ClientId, Credentials>

    constructor (cache: map<ClientId, Credentials>)
      ensures log == [] && this.cache == cache
    {
      log := [];
      this.cache := cache;
    }

    /** Appends one call to the log; all the source's call helpers end here. */
    method Send(call: WsmanCall)
      modifies this`log
      ensures log == old(log) + [call]
    {
      log := log + [call];
    }

    /** Makes the cached connection of `clientId`, if any, authenticate as
        `admin` with the password currently on the session record. */
    method UseAdminCredentials(clientId: ClientId)
      modifies this`cache
      ensures cache == SwapCredentials(old(cache), clientId, true)
    {
      if clientId in cache {
        cache := cache[clientId := AdminWithSessionPassword];
      }
    }
  }

  /** Appending no calls leaves a call log as it is */
  lemma AppendNothing(log: seq<WsmanCall>)
    ensures log + [] == log
  {
  }

  /** Calls issued after none are just those calls */
  lemma PrependNothing(calls: seq<WsmanCall>)
    ensures [] + calls == calls
  {
  }

  /** Appending calls in two batches is appending them at once */
  lemma AppendAssoc(log: seq<WsmanCall>, a: seq<WsmanCall>, b: seq<WsmanCall>)
    ensures log + a + b == log + (a + b)
  {
  }
}
