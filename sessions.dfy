/**
 * The per-connection session record (`ClientObject`), the session store
 * (`ClientManager`) and the credential repository the workflows read and write.
 */
module Sessions {
  import opened Wrappers
  import opened Wire

  /** CIRAConfig: the named CIRA configuration of a profile */
  datatype CiraConfigObject = CiraConfigObject(
    mpsRootCertificate: string,
    mpsServerAddress: string,
    serverAddressFormat: int,
    mpsPort: int,
    authMethod: int,
    username: string,
    password: string,
    commonName: string)            // "" when not configured

  /** The provisioning profile chosen for the device; an empty CIRAConfigName is falsy */
  datatype Profile = Profile(profileName: string, ciraConfigName: string, ciraConfigObject: CiraConfigObject)

  /** ClientData.payload: what the session knows about the device */
  datatype ClientPayload = ClientPayload(
    uuid: string,
    password: string,
    digestRealm: Option<string>,
    fwNonce: Option<seq<byte>>,
    modes: Option<seq<int>>,
    profile: Profile,
    fqdn: string,
    certHashes: seq<string>)

  /** provisioningCertificateObj: the chain (PEMs, leaf first) and its private key */
  datatype ProvisioningCert = ProvisioningCert(certChain: seq<string>, privateKey: string)

  /** What `certObj` can hold: the matched certificate, or the converter's error object */
  datatype CertObj = Provisioning(cert: ProvisioningCert) | PfxError(errorText: string)

  /**
   * The boolean milestones of clientObj.ciraconfig, one constructor per flag.
   * They are both "done" markers and the program counter of the CIRA
   * configurator. Teardown milestones come first, build milestones after.
   */
  datatype Milestone =
    | PolicyRuleUserInitiate | PolicyRuleAlert | PolicyRulePeriodic
    | MpsRemoteSapEnumerate | MpsRemoteSapDelete | MpsRemoteSapGet | MpsPublicCertDelete
    | GetEnvSettingData | SetEnvSettingData
    | AddTrustedRootCert | AddMpsServer | MpsRemoteSap | AddRemoteAccessPolicyRule
    | UserInitConnectionService | GetEnvSettingDataCira | SetEnvSettingDataCira

  /**
   * clientObj.ciraconfig: a flag is true exactly when its milestone is in
   * `done` (an absent flag is `undefined`, which is falsy).
   */
  datatype CiraProgress = CiraProgress(
    done: set<Milestone>,
    publicCerts: Option<seq<PublicCert>>,   // undefined until the certificate enumeration is read
    status: string)
  {
    /** The record with one more flag set to true */
    function Set(m: Milestone): CiraProgress { this.(done := done + {m}) }
  }

  /** A fresh progress record: nothing done yet */
  function NewProgress(status: string): CiraProgress
  {
    CiraProgress({}, None, status)
  }

  /** A value snapshot of a session record */
  datatype SessionView = SessionView(
    uuid: string,
    action: string,
    payload: ClientPayload,
    count: nat,                   // the certificate cursor; `undefined` behaves as 0
    certObj: Option<CertObj>,
    ciraconfig: CiraProgress)

  /** One session record, shared by reference between the store and the executors */
  class ClientObject {
    var uuid: string
    var action: string
    var payload: ClientPayload
    var count: nat
    var certObj: Option<CertObj>
    var ciraconfig: CiraProgress

    constructor (v: SessionView)
      ensures View() == v
    {
      uuid, action, payload := v.uuid, v.action, v.payload;
      count, certObj, ciraconfig := v.count, v.certObj, v.ciraconfig;
    }

    function View(): SessionView
      reads this
    {
      SessionView(uuid, action, payload, count, certObj, ciraconfig)
    }
  }

  /** The session store: one record per connection identifier */
  class ClientManager {
    var clients: map<ClientId, ClientObject>

    constructor ()
      ensures clients == map[]
    {
      clients := map[];
    }

    /** setClientObject for a record not yet in the store */
    method SetClientObject(clientId: ClientId, obj: ClientObject)
      modifies this
      ensures clients == old(clients)[clientId := obj]
    {
      clients := clients[clientId := obj];
    }
  }

  /** AMTDeviceDTO: the credentials stored for one device */
  datatype AmtDevice = AmtDevice(guid: string, name: string, mpsuser: string, mpspass: string,
                                 amtuser: string, amtpass: string)

  /** The AMT device credential repository, keyed by device GUID */
  class DeviceRepository {
    var devices: map<string, AmtDevice>

    constructor (devices: map<string, AmtDevice>)
      ensures this.devices == devices
    {
      this.devices := devices;
    }

    method Get(guid: string) returns (d: Option<AmtDevice>)
      ensures d.Some? <==> guid in devices
      ensures d.Some? ==> d.value == devices[guid]
    {
      d := if guid in devices then Some(devices[guid]) else None;
    }

    method Insert(d: AmtDevice)
      modifies this
      ensures devices == old(devices)[d.guid := d]
    {
      devices := devices[d.guid := d];
    }
  }

  /** IConfigurator: only the device repository is used by the core */
  class Configurator {
    const amtDeviceRepository: DeviceRepository?

    constructor (repository: DeviceRepository?)
      ensures amtDeviceRepository == repository
    {
      amtDeviceRepository := repository;
    }
  }

  /** The repository behind an optional configurator (`configurator && configurator.amtDeviceRepository`) */
  function RepositoryOf(c: Configurator?): DeviceRepository?
  {
    if c == null then null else c.amtDeviceRepository
  }

  /** The objects a write to the repository of `c` may touch */
  function RepositoryFrame(c: Configurator?): set<object>
  {
    if RepositoryOf(c) == null then {} else {RepositoryOf(c)}
  }

  /** The devices stored behind `c`; none when there is no repository */
  function StoredDevices(c: Configurator?): map<string, AmtDevice>
    reads RepositoryFrame(c)
  {
    if RepositoryOf(c) == null then map[] else RepositoryOf(c).devices
  }

  /** The stored devices after writing `d` (if any) under its GUID */
  function WithDevice(devices: map<string, AmtDevice>, d: Option<AmtDevice>): map<string, AmtDevice>
  {
    if d.Some? then devices[d.value.guid := d.value] else devices
  }
}
