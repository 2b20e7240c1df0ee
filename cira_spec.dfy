/**
 * What one round of the CIRA configurator does, as functions of the progress
 * flags and the decoded reply, and the properties of that state machine.
 * Line references are to src/actions/CIRAConfigurator.ts.
 */
module CiraSpec {
  import opened Wrappers
  import opened Wire
  import opened Transport
  import opened Sessions

  const POLICY_RULE_CLASS: string := "AMT_RemoteAccessPolicyRule"
  const REMOTE_SAP_CLASS: string := "AMT_ManagementPresenceRemoteSAP"
  const PUBLIC_CERT_CLASS: string := "AMT_PublicKeyCertificate"
  const ENV_DETECTION_ENUM: string := "*AMT_EnvironmentDetectionSettingData"
  const ENV_DETECTION_CLASS: string := "AMT_EnvironmentDetectionSettingData"
  const REMOTE_ACCESS_SERVICE: string := "AMT_RemoteAccessService"
  /** The placeholder detection string that keeps the device "inside" */
  const DUMMY_DETECTION: string := "dummy.com"
  /** 25 seconds, network order, base64 */
  const EXTENDED_DATA_25S: string := "AAAAAAAAABk="
  const NO_REPOSITORY: string := " amtDeviceRepository not found"
  const NO_AMT_PASSWORD: string := "amt password DOES NOT exists for Device "
  const RULE_USER_INITIATED: string := "User Initiated"
  const RULE_ALERT: string := "Alert"
  const RULE_PERIODIC: string := "Periodic"
  const UNDEFINED_RESPONSES: string := "responses of undefined"
  const UNDEFINED_PUBLIC_CERTS: string := "AMT_PublicKeyCertificate of undefined"
  const MPS_NOT_ADDED: string := " Failed to add Management Presence Server."
  const PUBLIC_KEY_SERVICE: string := "AMT_PublicKeyManagementService"
  const ADD_TRUSTED_ROOT: string := "AddTrustedRootCertificate"
  const ADD_MP_SERVER: string := "AddMpServer"
  const RETURN_SUCCESS: string := "SUCCESS"
  const ADD_POLICY_RULE: string := "AddRemoteAccessPolicyRule"
  const USER_INITIATED_SERVICE: string := "AMT_UserInitiatedConnectionService"
  const REQUEST_STATE_CHANGE: string := "RequestStateChange"
  const UNDEFINED_DETECTION: string := "DetectionStrings of undefined"
  const CIRA_CONFIGURED: string := " CIRA Configured."
  const CIRA_FAILED: string := " Failed to configure CIRA "

  const USER_INITIATED_ENABLED: int := 32771

  // ---------------------------------------------------------------------------
  // setAMTPassword (lines 215-234)
  // ---------------------------------------------------------------------------

  /** The stored admin password of the device, or the error setAMTPassword raises */
  function AmtPasswordLookup(repo: DeviceRepository?, uuid: string): Result<string, Error>
    reads repo
  {
    if repo == null then Failure(RPSError(DEVICE + uuid + NO_REPOSITORY))
    else if uuid in repo.devices && repo.devices[uuid].amtpass != "" then Success(repo.devices[uuid].amtpass)
    else Failure(RPSError(NO_AMT_PASSWORD + uuid))
  }

  // ---------------------------------------------------------------------------
  // Teardown: `delete` (lines 135-212)
  // ---------------------------------------------------------------------------

  /** Progress and the calls issued so far */
  datatype Phase = Phase(progress: CiraProgress, calls: seq<WsmanCall>)

  /** The effect of one `delete` call: the new progress, the calls issued, the
      device password it stored on the payload (if any), and what it threw. */
  datatype TeardownStep = TeardownStep(progress: CiraProgress, calls: seq<WsmanCall>,
                                       password: Option<string>, error: Option<Error>)

  /** The first if-chain (lines 137-174): the three policy rules, then the MPS endpoint */
  function Teardown(id: ClientId, f: CiraProgress, reply: WsmanResponse, uuid: string,
                    amtpass: Result<string, Error>): TeardownStep
  {
    if PolicyRuleUserInitiate !in f.done then
      match amtpass
      case Failure(e) => TeardownStep(f, [], None, Some(e))
      case Success(pw) =>
        TeardownRest(id, f.Set(PolicyRuleUserInitiate), reply,
                     [Delete(id, POLICY_RULE_CLASS, PolicyRuleName(RULE_USER_INITIATED))], Some(pw))
    else if PolicyRuleAlert !in f.done then
      TeardownRest(id, f.Set(PolicyRuleAlert), reply,
                   [Delete(id, POLICY_RULE_CLASS, PolicyRuleName(RULE_ALERT))], None)
    else if PolicyRulePeriodic !in f.done then
      TeardownRest(id, f.Set(PolicyRulePeriodic), reply,
                   [Delete(id, POLICY_RULE_CLASS, PolicyRuleName(RULE_PERIODIC))], None)
    else if MpsRemoteSapEnumerate !in f.done then
      TeardownRest(id, f.Set(MpsRemoteSapEnumerate), reply, [BatchEnum(id, REMOTE_SAP_CLASS)], None)
    else if MpsRemoteSapDelete !in f.done && reply.remoteSap.Some? then
      var g := f.Set(MpsRemoteSapDelete);
      match reply.remoteSap.value.responses
      case None => TeardownStep(g, [], None, Some(OtherError(UNDEFINED_RESPONSES)))
      case Some(saps) =>
        if |saps| > 0 then
          // only the first endpoint is deleted, and `delete` returns at once (line 171)
          TeardownStep(g, [Delete(id, REMOTE_SAP_CLASS, SapName(saps[0].name))], None, None)
        else
          TeardownRest(id, g, reply, [], None)
    else
      TeardownRest(id, f, reply, [], None)
  }

  /** Lines 175-211: the certificate chain, then the environment-detection chain */
  function TeardownRest(id: ClientId, f: CiraProgress, reply: WsmanResponse,
                        calls: seq<WsmanCall>, password: Option<string>): TeardownStep
  {
    match CertificateChain(id, f, reply)
    case Failure(e) => TeardownStep(f, calls, password, Some(e))
    case Success(c) =>
      var e := EnvironmentChain(id, c.progress, reply);
      TeardownStep(e.progress, calls + c.calls + e.calls, password, None)
  }

  /** The calls and password handed to TeardownRest are only carried through */
  lemma TeardownRestCarries(id: ClientId, f: CiraProgress, reply: WsmanResponse,
                            calls: seq<WsmanCall>, password: Option<string>)
    ensures var r := TeardownRest(id, f, reply, [], None);
            TeardownRest(id, f, reply, calls, password) == TeardownStep(r.progress, calls + r.calls, password, r.error)
  {
    var c := CertificateChain(id, f, reply);
    if c.Success? {
      var e := EnvironmentChain(id, c.value.progress, reply);
      assert calls + c.value.calls + e.calls == calls + ([] + c.value.calls + e.calls);
    }
  }

  /** Lines 176-192: enumerate the public certificates, then delete them one per round */
  function CertificateChain(id: ClientId, f: CiraProgress, reply: WsmanResponse): Result<Phase, Error>
  {
    if MpsRemoteSapDelete in f.done && MpsRemoteSapGet !in f.done then
      Success(Phase(f.Set(MpsRemoteSapGet), [BatchEnum(id, PUBLIC_CERT_CLASS)]))
    else if MpsRemoteSapGet in f.done && MpsPublicCertDelete !in f.done then
      // the list kept on the record, else the one just enumerated
      if f.publicCerts.Some? then Success(PopCertificate(id, f, f.publicCerts.value))
      else if reply.publicKeyCerts.Some? then Success(PopCertificate(id, f, reply.publicKeyCerts.value))
      else Failure(OtherError(UNDEFINED_PUBLIC_CERTS))
    else
      Success(Phase(f, []))
  }

  /** `pop()` on the pending list: delete its last certificate, or mark the
      deletions done once it is empty */
  function PopCertificate(id: ClientId, f: CiraProgress, pending: seq<PublicCert>): Phase
  {
    if |pending| > 0 then
      Phase(f.(publicCerts := Some(pending[..|pending| - 1])),
            [Delete(id, PUBLIC_CERT_CLASS, Certificate(pending[|pending| - 1]))])
    else
      Phase(f.(publicCerts := Some(pending)).Set(MpsPublicCertDelete), [])
  }

  /** Lines 194-211: clear the detection strings until none are left */
  function EnvironmentChain(id: ClientId, f: CiraProgress, reply: WsmanResponse): Phase
  {
    if MpsPublicCertDelete in f.done && GetEnvSettingData !in f.done then
      Phase(f.Set(GetEnvSettingData), [BatchEnum(id, ENV_DETECTION_ENUM)])
    else if GetEnvSettingData in f.done && SetEnvSettingData !in f.done then
      if reply.envDetection.Some? && reply.envDetection.value.response.Some?
         && reply.envDetection.value.response.value.detectionStrings.Some? then
        var settings := reply.envDetection.value.response.value;
        Phase(f, [Put(id, ENV_DETECTION_CLASS, settings.(detectionStrings := Some(DetectionList([]))))])
      else
        Phase(f.Set(SetEnvSettingData), [])
    else
      Phase(f, [])
  }

  // ---------------------------------------------------------------------------
  // Build: the second half of `execute` (lines 41-113)
  // ---------------------------------------------------------------------------

  datatype BuildStep = BuildStep(progress: CiraProgress, calls: seq<WsmanCall>,
                                 result: Result<Option<ClientResponse>, Error>)

  /** The AddMpServer record (lines 53-63) */
  function MpsServerOf(cfg: CiraConfigObject): (b: CallBody)
    ensures b.MpServer?
    ensures b.accessInfo == cfg.mpsServerAddress && b.infoFormat == cfg.serverAddressFormat
    ensures b.port == cfg.mpsPort && b.authMethod == cfg.authMethod
    ensures b.username == cfg.username && b.password == cfg.password
    ensures b.cn.Some? <==> cfg.serverAddressFormat == 3 && cfg.commonName != ""
    ensures b.cn.Some? ==> b.cn.value == cfg.commonName
  {
    MpServer(cfg.mpsServerAddress, cfg.serverAddressFormat, cfg.mpsPort, cfg.authMethod,
             cfg.username, cfg.password,
             if cfg.serverAddressFormat == 3 && cfg.commonName != "" then Some(cfg.commonName) else None)
  }

  /** Lines 103-107: every branch leaves the placeholder in DetectionStrings */
  function PlaceholderDetection(d: Option<Detection>): (r: Detection)
    ensures r == DetectionText(DUMMY_DETECTION)
  {
    if d.None? then DetectionText(DUMMY_DETECTION)
    else if d.value != DetectionText(DUMMY_DETECTION) then DetectionText(DUMMY_DETECTION)
    else d.value
  }

  function MpsNotAdded(uuid: string, status: string): Error
  {
    RPSError(DEVICE + uuid + " " + status + MPS_NOT_ADDED)
  }

  /** One round of the build phase; `uuid` is clientObj.uuid */
  function Build(id: ClientId, f: CiraProgress, cfg: CiraConfigObject, uuid: string, reply: WsmanResponse): BuildStep
  {
    if MpsRemoteSapDelete in f.done && AddTrustedRootCert !in f.done then
      BuildStep(f.Set(AddTrustedRootCert),
                [Execute(id, PUBLIC_KEY_SERVICE, ADD_TRUSTED_ROOT,
                         TrustedRootCert(cfg.mpsRootCertificate))], Success(None))
    else if AddTrustedRootCert in f.done && AddMpsServer !in f.done then
      BuildStep(f.Set(AddMpsServer),
                [Execute(id, REMOTE_ACCESS_SERVICE, ADD_MP_SERVER, MpsServerOf(cfg))], Success(None))
    else if AddMpsServer in f.done && MpsRemoteSap !in f.done then
      var g := f.Set(MpsRemoteSap);
      if reply.body.Some? && reply.body.value.returnValueStr == RETURN_SUCCESS then
        BuildStep(g, [BatchEnum(id, REMOTE_SAP_CLASS)], Success(None))
      else
        BuildStep(g, [], Failure(MpsNotAdded(uuid, f.status)))
    else if AddRemoteAccessPolicyRule !in f.done && AddMpsServer in f.done then
      var g := f.Set(AddRemoteAccessPolicyRule);
      if reply.remoteSap.Some? && reply.remoteSap.value.responses.Some?
         && |reply.remoteSap.value.responses.value| > 0 then
        var name := reply.remoteSap.value.responses.value[0].name;
        BuildStep(g, [Execute(id, REMOTE_ACCESS_SERVICE, ADD_POLICY_RULE,
                              PolicyRule(2, 0, EXTENDED_DATA_25S, name))], Success(None))
      else
        BuildStep(g, [], Failure(MpsNotAdded(uuid, f.status)))
    else if UserInitConnectionService !in f.done && AddRemoteAccessPolicyRule in f.done then
      BuildStep(f.Set(UserInitConnectionService),
                [Execute(id, USER_INITIATED_SERVICE, REQUEST_STATE_CHANGE,
                         RequestedState(USER_INITIATED_ENABLED))], Success(None))
    else if UserInitConnectionService in f.done && GetEnvSettingDataCira !in f.done then
      BuildStep(f.Set(GetEnvSettingDataCira), [BatchEnum(id, ENV_DETECTION_ENUM)], Success(None))
    else if GetEnvSettingData in f.done && SetEnvSettingDataCira !in f.done then
      // the guard reads the teardown flag getEnvSettingData (line 100)
      if reply.envDetection.None? || reply.envDetection.value.response.None? then
        BuildStep(f, [], Failure(OtherError(UNDEFINED_DETECTION)))
      else
        var settings := reply.envDetection.value.response.value;
        BuildStep(f.Set(SetEnvSettingDataCira),
                  [Put(id, ENV_DETECTION_CLASS,
                       settings.(detectionStrings := Some(PlaceholderDetection(settings.detectionStrings))))],
                  Success(None))
    else if SetEnvSettingDataCira in f.done then
      BuildStep(f, [], Success(Some(SuccessResponse(id, DEVICE + uuid + " " + f.status + CIRA_CONFIGURED))))
    else
      BuildStep(f, [], Success(None))
  }

  // ---------------------------------------------------------------------------
  // One call of `execute` (lines 33-127)
  // ---------------------------------------------------------------------------

  /** The effect of one executor call on a session: its new record, the calls
      issued, whether the teardown switched the cached connection to the admin
      credentials (lines 140-143), and the response (None for `undefined`). */
  datatype StepOutcome = StepOutcome(session: SessionView, calls: seq<WsmanCall>,
                                     adminChannel: bool, response: Option<ClientResponse>)

  /** The catch block (lines 119-126) */
  function CiraFailure(id: ClientId, e: Error, status: string): (r: ClientResponse)
    ensures r.status == STATUS_ERROR && r.subStatus == STATUS_FAILED
    ensures e.RPSError? ==> r.message == e.message
    ensures e.OtherError? ==> r.message == status + CIRA_FAILED
  {
    match e
    case RPSError(m) => ErrorResponse(id, m)
    case OtherError(_) => ErrorResponse(id, status + CIRA_FAILED)
  }

  /** `execute` on a session `s` with the reply `reply` (None when the payload
      is falsy); `amtpass` is what setAMTPassword would find for the device. */
  function CiraStep(id: ClientId, s: SessionView, reply: Option<WsmanResponse>,
                    amtpass: Result<string, Error>): StepOutcome
  {
    if reply.None? then StepOutcome(s, [], false, None)
    else
      var t := Teardown(id, s.ciraconfig, reply.value, s.payload.uuid, amtpass);
      var s1 := s.(ciraconfig := t.progress,
                   payload := if t.password.Some? then s.payload.(password := t.password.value) else s.payload);
      var swap := PolicyRuleUserInitiate !in s.ciraconfig.done;
      if t.error.Some? then
        StepOutcome(s1, t.calls, swap, Some(CiraFailure(id, t.error.value, t.progress.status)))
      else if s.payload.profile.ciraConfigName != "" && SetEnvSettingData in t.progress.done then
        var b := Build(id, t.progress, s.payload.profile.ciraConfigObject, s.uuid, reply.value);
        StepOutcome(s1.(ciraconfig := b.progress), t.calls + b.calls, swap,
                    match b.result
                    case Failure(e) => Some(CiraFailure(id, e, b.progress.status))
                    case Success(r) => r)
      else if SetEnvSettingData in t.progress.done then
        StepOutcome(s1, t.calls, swap, Some(SuccessResponse(id, DEVICE + s.uuid + " " + t.progress.status)))
      else
        StepOutcome(s1, t.calls, swap, None)
  }
}
