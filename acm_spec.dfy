/**
 * What one round of the admin-control-mode activator does, as functions of
 * the session record and the decoded reply: reply handling, provisioning
 * certificate resolution, the certificate-chain cursor and the AdminSetup
 * request. Line references are to src/actions/ACMActivator.ts.
 */
module AcmSpec {
  import opened Wrappers
  import opened Wire
  import opened Transport
  import opened Sessions
  import CiraSpec

  // Texts of the errors the activator raises; RPSError texts follow "Device <uuid>"
  const INVALID_REALM: string := " activation failed. Not a valid digest realm."
  const ADD_NEXT_CERT: string := "AddNextCertInChain"
  const UNDEFINED_RETURN_VALUE: string := "ReturnValue of undefined"
  const UNDEFINED_DIGEST_REALM: string := "DigestRealm of undefined"
  const UNDEFINED_CONFIGURATION_NONCE: string := "ConfigurationNonce of undefined"
  const CERT_UPLOAD_FAILED: string := " activation failed. Error while adding the certificates to AMT."
  const ADMIN_SETUP: string := "AdminSetup"
  const ADMIN_SETUP_FAILED: string := " activation failed. Error while activating the AMT in admin mode."
  const INVALID_RESPONSE: string := " sent an invalid response."
  const UNDEFINED_TEXT: string := "undefined"
  const ADMIN_DIGEST_PREFIX: string := "admin:"
  const CERT_NOT_FOUND: string := " activation failed. AMT provisioning certificate not found on server"
  const CERT_NOT_TRUSTED: string := " activation failed. Provisioning certificate doesn't match any trusted certificates from AMT"
  const UNDEFINED_CERT_CHAIN: string := "certChain of undefined"
  const ACM_FAILED: string := "failed to activate in admin control mode"
  const MISSING_PAYLOAD: string := " activation failed. Missing/invalid WSMan response payload."

  // ---------------------------------------------------------------------------
  // GetProvisioningCertObj (lines 145-168)
  // ---------------------------------------------------------------------------

  /** What dumpPfx yields: the root fingerprint and the chain with its key */
  datatype PfxDump = PfxDump(fingerprint: string, provisioningCertificateObj: ProvisioningCert)

  /** What convertPfxToObject yields: a non-empty errorText on failure; `dump`
      is None when dumpPfx throws on the converted object */
  datatype PfxObject = PfxObject(errorText: string, dump: Option<PfxDump>)

  /** String.prototype.toLowerCase on ASCII letters */
  function LowerChar(c: char): char
  {
    if 'A' <= c <= 'Z' then (c as int + 32) as char else c
  }

  function ToLower(s: string): (r: string)
    ensures |r| == |s|
    ensures forall i :: 0 <= i < |s| ==> r[i] == LowerChar(s[i])
  {
    seq(|s|, i requires 0 <= i < |s| => LowerChar(s[i]))
  }

  /** Two hashes agree up to the case of their letters */
  predicate SameHash(a: string, b: string)
  {
    ToLower(a) == ToLower(b)
  }

  /** The for-in search over the device's trusted root hashes: is there an
      entry equal to the fingerprint, ignoring case? */
  function Trusted(certHashes: seq<string>, fingerprint: string): (r: bool)
    ensures r <==> exists i :: 0 <= i < |certHashes| && SameHash(certHashes[i], fingerprint)
  {
    if certHashes == [] then false
    else SameHash(certHashes[0], fingerprint) || Trusted(certHashes[1..], fingerprint)
  }

  /** The provisioning certificate object, the converter's error object, or
      None (`undefined` when no hash matches, `null` when dumpPfx throws) */
  function ProvisioningCertObj(certHashes: seq<string>, pfx: PfxObject): (r: Option<CertObj>)
    ensures pfx.errorText != "" ==> r == Some(PfxError(pfx.errorText))
    ensures pfx.errorText == "" ==>
              r == if pfx.dump.Some? && Trusted(certHashes, pfx.dump.value.fingerprint)
                   then Some(Provisioning(pfx.dump.value.provisioningCertificateObj)) else None
  {
    if pfx.errorText != "" then Some(PfxError(pfx.errorText))
    else if pfx.dump.None? then None
    else if Trusted(certHashes, pfx.dump.value.fingerprint) then Some(Provisioning(pfx.dump.value.provisioningCertificateObj))
    else None
  }

  // ---------------------------------------------------------------------------
  // processWSManJsonResponse (lines 171-212)
  // ---------------------------------------------------------------------------

  const HOST_BASED_SETUP_ENUM: string := "*IPS_HostBasedSetupService"
  const ADMIN_MODE_STATUS: string := "activated in admin mode."

  /** What a handled reply did: the new record, the calls, and whether it was
      the AdminSetup answer that hands the session over to CIRA */
  datatype ReplyEffect = ReplyEffect(session: SessionView, calls: seq<WsmanCall>, handOff: bool)

  /** The record after a successful AdminSetup: activated, and now a CIRA session */
  function AdminSetupDone(s: SessionView): (r: SessionView)
    ensures r.action == CIRACONFIG && r.ciraconfig.status == ADMIN_MODE_STATUS
    ensures r.ciraconfig.done == s.ciraconfig.done && r.payload == s.payload && r.count == s.count
  {
    s.(ciraconfig := s.ciraconfig.(status := ADMIN_MODE_STATUS), action := CIRACONFIG)
  }

  function ProcessReply(id: ClientId, s: SessionView, w: WsmanResponse, realmValid: string -> bool)
    : (r: Result<ReplyEffect, Error>)
    ensures r.Success? && r.value.handOff ==> r.value == ReplyEffect(AdminSetupDone(s), [], true)
  {
    if w.generalSettings.Some? then
      // line 176: reading DigestRealm of a missing `response` throws a TypeError
      var settings := w.generalSettings.value.response;
      if settings.None? then Failure(OtherError(UNDEFINED_DIGEST_REALM))
      else if !realmValid(settings.value.digestRealm) then
        Failure(RPSError(DEVICE + s.uuid + INVALID_REALM))
      else
        Success(ReplyEffect(s.(payload := s.payload.(digestRealm := Some(settings.value.digestRealm))),
                            if s.payload.fwNonce.None? then [BatchEnum(id, HOST_BASED_SETUP_ENUM)] else [],
                            false))
    else if w.hostBasedSetup.Some? then
      // line 188: likewise for ConfigurationNonce
      var response := w.hostBasedSetup.value.response;
      if response.None? then Failure(OtherError(UNDEFINED_CONFIGURATION_NONCE))
      else
        Success(ReplyEffect(s.(payload := s.payload.(fwNonce := Some(response.value.configurationNonce),
                                                     modes := Some(response.value.allowedControlModes))),
                            [], false))
    else if w.header.Some? && w.header.value.methodName == ADD_NEXT_CERT then
      if w.body.None? then Failure(OtherError(UNDEFINED_RETURN_VALUE))
      else if w.body.value.returnValue != Some(0) then
        Failure(RPSError(DEVICE + s.uuid + CERT_UPLOAD_FAILED))
      else Success(ReplyEffect(s, [], false))
    else if w.header.Some? && w.header.value.methodName == ADMIN_SETUP then
      if w.body.None? then Failure(OtherError(UNDEFINED_RETURN_VALUE))
      else if w.body.value.returnValue != Some(0) then
        Failure(RPSError(DEVICE + s.uuid + ADMIN_SETUP_FAILED))
      else
        Success(ReplyEffect(AdminSetupDone(s), [], true))
    else
      Failure(RPSError(DEVICE + s.uuid + INVALID_RESPONSE))
  }

  // ---------------------------------------------------------------------------
  // The provisioning part of `execute` (lines 57-127)
  // ---------------------------------------------------------------------------

  /** The collaborators `execute` consults: the domain credential store, the
      PFX converter, the signer, the profile store, the realm validator and
      the environment's MPS/AMT user names */
  datatype AcmServices = AcmServices(
    realmValid: string -> bool,
    provisioningCert: string -> string,          // by FQDN; "" when none is stored
    provisioningCertPassword: string -> string,  // by FQDN
    convertPfx: (string, string) -> PfxObject,   // (certificate, password)
    sign: (seq<byte>, string) -> SignResult,     // (data, private key)
    amtPassword: string -> string,               // by profile name
    mpsUsername: string,
    mpsPassword: string,
    amtUsername: string)

  /** `${digestRealm}`: an undefined realm prints as "undefined" */
  function RealmText(realm: Option<string>): string
  {
    if realm.Some? then realm.value else UNDEFINED_TEXT
  }

  /** The HTTP Digest HA1 input for user admin (section 3.4.2 of RFC 7616) */
  function AdminDigestInput(realm: Option<string>, amtPassword: string): string
  {
    ADMIN_DIGEST_PREFIX + RealmText(realm) + ":" + amtPassword
  }

  /** The upload of certificate `i` of the chain, with its (isFirst, isLast) flags */
  function UploadCall(id: ClientId, chain: seq<string>, i: nat): WsmanCall
    requires i < |chain|
  {
    if i == 0 then CertChainStep(id, chain[i], true, false)
    else if i < |chain| - 1 then CertChainStep(id, chain[i], false, false)
    else CertChainStep(id, chain[i], false, true)
  }

  /** The effect of the provisioning part: the new record, the calls, the
      device written to the repository (if any) and what was thrown */
  datatype ProvisionStep = ProvisionStep(session: SessionView, calls: seq<WsmanCall>,
                                         inserted: Option<AmtDevice>, error: Option<Error>)

  /** Lines 59-76: on a zero cursor, look up and match the provisioning certificate */
  function ResolveCert(s: SessionView, sv: AcmServices): Result<SessionView, Error>
  {
    if s.count != 0 then Success(s)
    else
      var fqdn := s.payload.fqdn;
      var cert := sv.provisioningCert(fqdn);
      if cert == "" then
        Failure(RPSError(DEVICE + s.uuid + CERT_NOT_FOUND))
      else
        var certObj := ProvisioningCertObj(s.payload.certHashes, sv.convertPfx(cert, sv.provisioningCertPassword(fqdn)));
        if certObj.None? then
          // the record keeps the unset certObj (lines 67, 74)
          Failure(RPSError(DEVICE + s.uuid
                           + CERT_NOT_TRUSTED))
        else if certObj.value.PfxError? then Failure(RPSError(certObj.value.errorText))
        else Success(s.(certObj := certObj))
  }

  /** The record as left by ResolveCert when it fails: certObj has been assigned */
  function ResolvedRecord(s: SessionView, sv: AcmServices): SessionView
  {
    if s.count != 0 || sv.provisioningCert(s.payload.fqdn) == "" then s
    else s.(certObj := ProvisioningCertObj(s.payload.certHashes,
                                              sv.convertPfx(sv.provisioningCert(s.payload.fqdn),
                                                            sv.provisioningCertPassword(s.payload.fqdn))))
  }

  function Provision(id: ClientId, s: SessionView, sv: AcmServices, nonce: seq<byte>, repoPresent: bool): (r: ProvisionStep)
    requires s.payload.fwNonce.Some?
    // only the cursor and the certificate object of the record change
    ensures r.session == s.(count := r.session.count, certObj := r.session.certObj)
  {
    match ResolveCert(s, sv)
    case Failure(e) => ProvisionStep(ResolvedRecord(s, sv), [], None, Some(e))
    case Success(s1) =>
      if s1.certObj.None? || !s1.certObj.value.Provisioning? then
        ProvisionStep(s1, [], None, Some(OtherError(UNDEFINED_CERT_CHAIN)))
      else
        var cert := s1.certObj.value.cert;
        var n := |cert.certChain|;
        // lines 78-81: the round after the last upload bumps the cursor past the chain
        var s2 := if s1.count == n then s1.(count := n + 1) else s1;
        // lines 83-93: upload certChain[count]
        var up := if s2.count < n then [UploadCall(id, cert.certChain, s2.count)] else [];
        var s3 := if s2.count < n then s2.(count := s2.count + 1) else s2;
        if s3.count > n then
          var q := AdminSetupRequest(id, s3, cert, sv, nonce, repoPresent);
          ProvisionStep(s3, up + q.calls, q.inserted, q.error)
        else
          ProvisionStep(s3, up, None, None)
  }

  /** Lines 95-124: sign fwNonce followed by the fresh nonce, store the device
      (when there is a repository) and request AdminSetup */
  function AdminSetupRequest(id: ClientId, s: SessionView, cert: ProvisioningCert, sv: AcmServices,
                             nonce: seq<byte>, repoPresent: bool): (r: ProvisionStep)
    requires s.payload.fwNonce.Some?
    ensures r.session == s
  {
    var signature := sv.sign(s.payload.fwNonce.value + nonce, cert.privateKey);
    if signature.errorText != "" then ProvisionStep(s, [], None, Some(RPSError(signature.errorText)))
    else
      var amtPassword := sv.amtPassword(s.payload.profile.profileName);
      var device := AmtDevice(s.uuid, s.uuid, sv.mpsUsername, sv.mpsPassword, sv.amtUsername, amtPassword);
      ProvisionStep(s, [SetupAcm(id, Md5Of(AdminDigestInput(s.payload.digestRealm, amtPassword)), nonce, signature)],
                    if repoPresent then Some(device) else None, None)
  }

  // ---------------------------------------------------------------------------
  // One call of `execute` (lines 44-136)
  // ---------------------------------------------------------------------------

  datatype AcmOutcome = AcmOutcome(session: SessionView, calls: seq<WsmanCall>, inserted: Option<AmtDevice>,
                                   adminChannel: bool, response: Option<ClientResponse>)

  /** The catch block (lines 128-135) */
  function AcmFailure(id: ClientId, e: Error): (r: ClientResponse)
    ensures r.status == STATUS_ERROR && r.subStatus == STATUS_FAILED
    ensures e.RPSError? ==> r.message == e.message
    ensures e.OtherError? ==> r.message == ACM_FAILED
  {
    match e
    case RPSError(m) => ErrorResponse(id, m)
    case OtherError(_) => ErrorResponse(id, ACM_FAILED)
  }

  /** What processWSManJsonResponse leaves behind, including the CIRA round
      it runs on a successful AdminSetup */
  datatype ReplyOutcome = ReplyOutcome(session: SessionView, calls: seq<WsmanCall>, adminChannel: bool)

  /** Lines 200-205: the record is marked activated in admin mode and becomes
      a CIRA session, then the CIRA configurator runs on the same reply */
  function HandOffOutcome(id: ClientId, s: SessionView, reply: Option<WsmanResponse>,
                          amtpass: Result<string, Error>): ReplyOutcome
  {
    var c := CiraSpec.CiraStep(id, AdminSetupDone(s), reply, amtpass);
    ReplyOutcome(c.session, c.calls, c.adminChannel)
  }

  /** Lines 171-212 with the hand-off: the CIRA configurator runs on the same
      reply, and its answer is not kept (`return;` at line 205) */
  function ReplyRound(id: ClientId, s: SessionView, w: WsmanResponse, realmValid: string -> bool,
                      amtpass: Result<string, Error>): Result<ReplyOutcome, Error>
  {
    match ProcessReply(id, s, w, realmValid)
    case Failure(e) => Failure(e)
    case Success(eff) =>
      if eff.handOff then Success(HandOffOutcome(id, s, Some(w), amtpass))
      else
        Success(ReplyOutcome(eff.session, eff.calls, false))
  }

  /** `execute` on session `s`; `amtpass` is what the CIRA configurator's
      setAMTPassword would find, used only by the hand-off */
  function AcmStep(id: ClientId, s: SessionView, reply: Option<WsmanResponse>, sv: AcmServices,
                   nonce: seq<byte>, repoPresent: bool, amtpass: Result<string, Error>): AcmOutcome
  {
    if reply.None? then
      AcmOutcome(s, [], None, false, Some(ErrorResponse(id, DEVICE + s.uuid + MISSING_PAYLOAD)))
    else
      match ReplyRound(id, s, reply.value, sv.realmValid, amtpass)
      case Failure(e) => AcmOutcome(s, [], None, false, Some(AcmFailure(id, e)))
      case Success(o) =>
        // lines 56-57: the record is read again; after a hand-off it is a CIRA session
        var q := ProvisionIfReady(id, o.session, sv, nonce, repoPresent);
        AcmOutcome(q.session, o.calls + q.calls, q.inserted, o.adminChannel, q.response)
  }

  /** Lines 56-127: provisioning advances only while the session is an
      admin-mode activation that knows the firmware nonce */
  function ProvisionIfReady(id: ClientId, s: SessionView, sv: AcmServices, nonce: seq<byte>, repoPresent: bool): AcmOutcome
  {
    if s.payload.fwNonce.Some? && s.action == ADMINCTLMODE then
      var p := Provision(id, s, sv, nonce, repoPresent);
      AcmOutcome(p.session, p.calls, p.inserted, false, if p.error.Some? then Some(AcmFailure(id, p.error.value)) else None)
    else
      AcmOutcome(s, [], None, false, None)
  }
}
