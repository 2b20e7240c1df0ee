/**
 * Values that cross the boundary of the provisioning core: the decoded client
 * message, the decoded WS-Man reply, the response sent back to the device and
 * the errors the core raises.
 */
module Wire {
  import opened Wrappers

  type byte = b: int | 0 <= b < 256
  type ClientId = string

  // ClientMethods (the `method` field of a client message, `kind` here)
  const DEVICE: string := "Device "
  const STATUS_ERROR: string := "error"
  const STATUS_FAILED: string := "failed"
  const STATUS_SUCCESS: string := "success"

  const ACTIVATION: string := "activation"
  const DEACTIVATION: string := "deactivation"
  const RESPONSE: string := "response"

  // ClientAction (the workflow kind stored on a session); the values only need
  // to be distinct from each other and from the empty (falsy) string.
  const ADMINCTLMODE: string := "acmactivate"
  const CLIENTCTLMODE: string := "ccmactivate"
  const DEACTIVATE: string := "deactivate"
  const CIRACONFIG: string := "ciraconfig"

  /** An exception raised inside the core: the RPSError class, or anything else
      (a TypeError from reading a field of `undefined`, a RangeError, ...). */
  datatype Error = RPSError(message: string) | OtherError(detail: string)

  /** ClientResponseMsg.get(clientId, null, status, subStatus, message) */
  datatype ClientResponse = ClientResponse(clientId: ClientId, status: string, subStatus: string, message: string)

  function ErrorResponse(clientId: ClientId, message: string): (r: ClientResponse)
  {
    ClientResponse(clientId, STATUS_ERROR, STATUS_FAILED, message)
  }

  function SuccessResponse(clientId: ClientId, message: string): (r: ClientResponse)
  {
    ClientResponse(clientId, STATUS_SUCCESS, STATUS_SUCCESS, message)
  }

  // ---------------------------------------------------------------------------
  // Decoded WS-Man replies (the JSON that the XML layer produces)
  // ---------------------------------------------------------------------------

  /** One AMT_ManagementPresenceRemoteSAP instance */
  datatype RemoteSap = RemoteSap(name: string)

  /** One AMT_PublicKeyCertificate instance, used as the delete selector */
  datatype PublicCert = PublicCert(instanceId: string)

  /** The value of DetectionStrings: a list of domain suffixes or a single string */
  datatype Detection = DetectionList(items: seq<string>) | DetectionText(text: string)

  /** AMT_EnvironmentDetectionSettingData.response; `instanceId` stands for the
      fields that are sent back unchanged by `put` */
  datatype EnvSettings = EnvSettings(instanceId: string, detectionStrings: Option<Detection>)

  datatype GeneralSettings = GeneralSettings(digestRealm: string)
  datatype HostBasedSetup = HostBasedSetup(configurationNonce: seq<byte>, allowedControlModes: seq<int>)
  datatype Header = Header(methodName: string)
  /** Body.ReturnValue (absent = None) and Body.ReturnValueStr (absent = "") */
  datatype Body = Body(returnValue: Option<int>, returnValueStr: string)
  /** AMT_ManagementPresenceRemoteSAP: `responses` may be missing */
  datatype SapEnumeration = SapEnumeration(responses: Option<seq<RemoteSap>>)
  /** AMT_GeneralSettings: `response` may be missing */
  datatype GeneralSettingsData = GeneralSettingsData(response: Option<GeneralSettings>)
  /** IPS_HostBasedSetupService: `response` may be missing */
  datatype HostBasedSetupData = HostBasedSetupData(response: Option<HostBasedSetup>)
  /** AMT_EnvironmentDetectionSettingData: `response` may be missing */
  datatype EnvDetectionData = EnvDetectionData(response: Option<EnvSettings>)

  /** A decoded WS-Man reply; each field is one top-level key, None when absent. */
  datatype WsmanResponse = WsmanResponse(
    generalSettings: Option<GeneralSettingsData>, // AMT_GeneralSettings
    hostBasedSetup: Option<HostBasedSetupData>,   // IPS_HostBasedSetupService
    header: Option<Header>,                       // Header
    body: Option<Body>,                           // Body
    remoteSap: Option<SapEnumeration>,            // AMT_ManagementPresenceRemoteSAP
    publicKeyCerts: Option<seq<PublicCert>>,      // AMT_PublicKeyCertificate.responses
    envDetection: Option<EnvDetectionData>)       // AMT_EnvironmentDetectionSettingData

  /** A truthy payload that carries none of the WS-Man keys */
  const NoKeys: WsmanResponse := WsmanResponse(None, None, None, None, None, None, None)

  // ---------------------------------------------------------------------------
  // Client messages
  // ---------------------------------------------------------------------------

  /** The payload of an activation/deactivation message after parsePayload */
  datatype DevicePayload = DevicePayload(client: string, ver: string, build: string, uuid: string, digestRealm: string)

  /** `message.payload` in its successive shapes: absent (falsy), the raw HTTP
      text of a RESPONSE, the parsed device payload, or the decoded WS-Man reply */
  datatype MessagePayload =
    | Absent
    | Text(text: string)
    | Device(device: DevicePayload)
    | Reply(reply: WsmanResponse)

  datatype ClientMsg = ClientMsg(kind: string, payload: MessagePayload)

  /** What an executor sees as `message.payload` read as a WS-Man reply:
      None when the payload is falsy, NoKeys when it is some other object. */
  function ReplyView(p: MessagePayload): (r: Option<WsmanResponse>)
    ensures r.None? <==> (p.Absent? || p == Text(""))
    ensures p.Reply? ==> r == Some(p.reply)
  {
    match p
    case Absent => None
    case Text(t) => if t == "" then None else Some(NoKeys)
    case Device(_) => Some(NoKeys)
    case Reply(w) => Some(w)
  }
}
