/**
 * Properties of the admin-control-mode activator (module AcmSpec).
 * Line references are to src/actions/ACMActivator.ts.
 */
module AcmProperties {
  import opened Wrappers
  import opened Wire
  import opened Transport
  import opened Sessions
  import opened AcmSpec
  import CiraSpec
  import CiraProperties

  // ---------------------------------------------------------------------------
  // Certificate matching (lines 152-163, 67-75)
  // ---------------------------------------------------------------------------

  lemma LowerCharIdempotent(c: char)
    ensures LowerChar(LowerChar(c)) == LowerChar(c)
  {
  }

  /** A hash matches its own lower-case form */
  lemma SameHashIgnoresCase(a: string)
    ensures SameHash(ToLower(a), a)
  {
    forall i | 0 <= i < |a|
      ensures ToLower(ToLower(a))[i] == ToLower(a)[i]
    {
      LowerCharIdempotent(a[i]);
    }
  }

  /** Whether a trusted root matches does not depend on the case of the fingerprint */
  lemma MatchIgnoresCase(certHashes: seq<string>, fingerprint: string, cert: ProvisioningCert)
    ensures ProvisioningCertObj(certHashes, PfxObject("", Some(PfxDump(fingerprint, cert))))
         == ProvisioningCertObj(certHashes, PfxObject("", Some(PfxDump(ToLower(fingerprint), cert))))
  {
    SameHashIgnoresCase(fingerprint);
  }

  /** On a zero cursor, a missing provisioning certificate fails with "not
      found on server", a conversion error with the converter's errorText, an
      unreadable or untrusted certificate with "doesn't match any trusted
      certificates", and a trusted one is recorded; on a non-zero cursor
      nothing is resolved */
  lemma ResolveFailures(s: SessionView, sv: AcmServices)
    ensures s.count != 0 ==> ResolveCert(s, sv) == Success(s)
    ensures var cert := sv.provisioningCert(s.payload.fqdn);
            var pfx := sv.convertPfx(cert, sv.provisioningCertPassword(s.payload.fqdn));
            s.count == 0 ==>
            && (cert == "" ==> ResolveCert(s, sv) == Failure(RPSError(DEVICE + s.uuid + CERT_NOT_FOUND)))
            && (cert != "" && pfx.errorText != "" ==> ResolveCert(s, sv) == Failure(RPSError(pfx.errorText)))
            && (cert != "" && pfx.errorText == "" && (pfx.dump.None? || !Trusted(s.payload.certHashes, pfx.dump.value.fingerprint)) ==>
                  ResolveCert(s, sv) == Failure(RPSError(DEVICE + s.uuid + CERT_NOT_TRUSTED)))
            && (cert != "" && pfx.errorText == "" && pfx.dump.Some? && Trusted(s.payload.certHashes, pfx.dump.value.fingerprint) ==>
                  ResolveCert(s, sv) == Success(s.(certObj := Some(Provisioning(pfx.dump.value.provisioningCertificateObj)))))
  {
  }

  // ---------------------------------------------------------------------------
  // Replies (lines 171-212)
  // ---------------------------------------------------------------------------

  /** A settings reply without its `response` throws a TypeError; otherwise an
      invalid realm fails, and a valid one is stored and nothing else of the
      record changes; the host-based setup enumeration is issued only when no
      firmware nonce is known yet */
  lemma RealmHandling(id: ClientId, s: SessionView, w: WsmanResponse, realmValid: string -> bool)
    requires w.generalSettings.Some?
    ensures var r := ProcessReply(id, s, w, realmValid);
            w.generalSettings.value.response.None? ==> r == Failure(OtherError(UNDEFINED_DIGEST_REALM))
    ensures var r := ProcessReply(id, s, w, realmValid);
            w.generalSettings.value.response.Some? ==>
            var realm := w.generalSettings.value.response.value.digestRealm;
            && (r.Failure? <==> !realmValid(realm))
            && (r.Failure? ==> r.error == RPSError(DEVICE + s.uuid + INVALID_REALM))
            && (r.Success? ==> r.value.session == s.(payload := s.payload.(digestRealm := Some(realm)))
                               && (r.value.calls == [BatchEnum(id, HOST_BASED_SETUP_ENUM)] <==> s.payload.fwNonce.None?)
                               && (r.value.calls == [] <==> s.payload.fwNonce.Some?)
                               && !r.value.handOff)
  {
  }

  /** A host-based setup reply without its `response` throws a TypeError;
      otherwise the firmware nonce and the allowed control modes are recorded,
      nothing else of the record changes and nothing is sent */
  lemma NonceHandling(id: ClientId, s: SessionView, w: WsmanResponse, realmValid: string -> bool)
    requires w.generalSettings.None? && w.hostBasedSetup.Some?
    ensures var r := ProcessReply(id, s, w, realmValid);
            var response := w.hostBasedSetup.value.response;
            && (response.None? ==> r == Failure(OtherError(UNDEFINED_CONFIGURATION_NONCE)))
            && (response.Some? ==>
                  r == Success(ReplyEffect(s.(payload := s.payload.(fwNonce := Some(response.value.configurationNonce),
                                                                    modes := Some(response.value.allowedControlModes))),
                                           [], false)))
  {
  }

  /** A TypeError while reading the reply (a settings or host-based setup key
      without its `response`) answers the generic activation failure and
      leaves the session untouched */
  lemma MissingResponseFails(id: ClientId, s: SessionView, w: WsmanResponse, sv: AcmServices,
                             nonce: seq<byte>, repoPresent: bool, amtpass: Result<string, Error>)
    requires (w.generalSettings.Some? && w.generalSettings.value.response.None?)
          || (w.generalSettings.None? && w.hostBasedSetup.Some? && w.hostBasedSetup.value.response.None?)
    ensures var o := AcmStep(id, s, Some(w), sv, nonce, repoPresent, amtpass);
            && o.session == s && o.calls == [] && o.inserted.None?
            && o.response == Some(ErrorResponse(id, ACM_FAILED))
  {
  }

  /** A non-zero ReturnValue on AddNextCertInChain or AdminSetup fails the
      session without touching the record */
  lemma NonZeroReturnValueFails(id: ClientId, s: SessionView, w: WsmanResponse, sv: AcmServices,
                                nonce: seq<byte>, repoPresent: bool, amtpass: Result<string, Error>)
    requires w.generalSettings.None? && w.hostBasedSetup.None?
    requires w.header.Some? && w.header.value.methodName in {ADD_NEXT_CERT, ADMIN_SETUP}
    requires w.body.Some? && w.body.value.returnValue != Some(0)
    ensures var o := AcmStep(id, s, Some(w), sv, nonce, repoPresent, amtpass);
            && o.session == s && o.calls == [] && o.inserted.None?
            && (w.header.value.methodName == ADMIN_SETUP ==>
                  o.response == Some(ErrorResponse(id, DEVICE + s.uuid
                                      + ADMIN_SETUP_FAILED)))
            && (w.header.value.methodName == ADD_NEXT_CERT ==>
                  o.response == Some(ErrorResponse(id, DEVICE + s.uuid
                                      + CERT_UPLOAD_FAILED)))
  {
  }

  /** A missing payload, or a reply of no known shape, fails the session */
  lemma UnknownReplyFails(id: ClientId, s: SessionView, reply: Option<WsmanResponse>, sv: AcmServices,
                          nonce: seq<byte>, repoPresent: bool, amtpass: Result<string, Error>)
    requires reply.Some? ==>
               && reply.value.generalSettings.None? && reply.value.hostBasedSetup.None?
               && (reply.value.header.None? || reply.value.header.value.methodName !in {ADD_NEXT_CERT, ADMIN_SETUP})
    ensures var o := AcmStep(id, s, reply, sv, nonce, repoPresent, amtpass);
            && o.session == s && o.calls == [] && o.inserted.None?
            && o.response == Some(ErrorResponse(id, DEVICE + s.uuid +
                 if reply.None? then MISSING_PAYLOAD
                 else INVALID_RESPONSE))
  {
  }

  /** A successful AdminSetup marks the session as activated, switches it to
      CIRA configuration and runs one CIRA round on the same reply; the
      activator itself answers nothing */
  lemma AdminSetupHandsOff(id: ClientId, s: SessionView, w: WsmanResponse, sv: AcmServices,
                           nonce: seq<byte>, repoPresent: bool, amtpass: Result<string, Error>)
    requires w.generalSettings.None? && w.hostBasedSetup.None?
    requires w.header == Some(Header(ADMIN_SETUP)) && w.body.Some? && w.body.value.returnValue == Some(0)
    ensures var o := AcmStep(id, s, Some(w), sv, nonce, repoPresent, amtpass);
            var c := CiraSpec.CiraStep(id, s.(ciraconfig := s.ciraconfig.(status := ADMIN_MODE_STATUS), action := CIRACONFIG),
                                       Some(w), amtpass);
            && o.session == c.session && o.calls == c.calls && o.adminChannel == c.adminChannel
            && o.session.action == CIRACONFIG && o.session.ciraconfig.status == ADMIN_MODE_STATUS
            && o.response.None? && o.inserted.None?
  {
    var s1 := s.(ciraconfig := s.ciraconfig.(status := ADMIN_MODE_STATUS), action := CIRACONFIG);
    CiraProperties.CiraStepKeepsRecord(id, s1, Some(w), amtpass);
  }

  // ---------------------------------------------------------------------------
  // The certificate cursor (lines 78-93)
  // ---------------------------------------------------------------------------

  /** Provisioning repeated over `k` rounds (no repository), stopping at the first error */
  function Rounds(id: ClientId, s: SessionView, sv: AcmServices, nonce: seq<byte>, k: nat): ProvisionStep
    requires s.payload.fwNonce.Some?
    decreases k
  {
    if k == 0 then ProvisionStep(s, [], None, None)
    else
      var p := Provision(id, s, sv, nonce, false);
      if p.error.Some? then p
      else
        var r := Rounds(id, p.session, sv, nonce, k - 1);
        ProvisionStep(r.session, p.calls + r.calls, r.inserted, r.error)
  }

  /** The uploads of certificates lo..hi-1, in order */
  function Uploads(id: ClientId, chain: seq<string>, lo: nat, hi: nat): seq<WsmanCall>
    requires lo <= hi <= |chain|
    decreases hi - lo
  {
    if lo == hi then [] else [UploadCall(id, chain, lo)] + Uploads(id, chain, lo + 1, hi)
  }

  /** The flags of each upload: (true,false) first, (false,true) last when the
      chain has more than one certificate, (false,false) in between */
  lemma {:induction false} UploadFlags(id: ClientId, chain: seq<string>, lo: nat, hi: nat)
    requires lo <= hi <= |chain|
    ensures |Uploads(id, chain, lo, hi)| == hi - lo
    ensures forall j :: lo <= j < hi ==>
              Uploads(id, chain, lo, hi)[j - lo] == CertChainStep(id, chain[j], j == 0, j > 0 && j == |chain| - 1)
    decreases hi - lo
  {
    if lo < hi {
      UploadFlags(id, chain, lo + 1, hi);
      forall j | lo <= j < hi
        ensures Uploads(id, chain, lo, hi)[j - lo] == CertChainStep(id, chain[j], j == 0, j > 0 && j == |chain| - 1)
      {
        if j > lo {
          assert Uploads(id, chain, lo, hi)[j - lo] == Uploads(id, chain, lo + 1, hi)[j - (lo + 1)];
        }
      }
    }
  }

  /** From cursor c inside the chain, k more rounds upload certificates c..c+k-1 */
  lemma {:induction false} CursorAdvances(id: ClientId, s: SessionView, sv: AcmServices, nonce: seq<byte>,
                                          cert: ProvisioningCert, k: nat)
    requires s.payload.fwNonce.Some? && s.certObj == Some(Provisioning(cert))
    requires 0 < s.count && s.count + k <= |cert.certChain|
    ensures var r := Rounds(id, s, sv, nonce, k);
            && r.error.None? && r.inserted.None?
            && r.session == s.(count := s.count + k)
            && r.calls == Uploads(id, cert.certChain, s.count, s.count + k)
    decreases k
  {
    if k > 0 {
      var p := Provision(id, s, sv, nonce, false);
      assert p == ProvisionStep(s.(count := s.count + 1), [UploadCall(id, cert.certChain, s.count)], None, None);
      CursorAdvances(id, p.session, sv, nonce, cert, k - 1);
    }
  }

  /** For a chain of N certificates matched on the first round, the first N
      rounds upload certChain[0..N) in order and leave the cursor at N */
  lemma ChainUploadedInOrder(id: ClientId, s: SessionView, sv: AcmServices, nonce: seq<byte>, cert: ProvisioningCert)
    requires s.payload.fwNonce.Some? && s.count == 0 && |cert.certChain| > 0
    requires ResolveCert(s, sv) == Success(s.(certObj := Some(Provisioning(cert))))
    ensures var n := |cert.certChain|;
            var r := Rounds(id, s, sv, nonce, n);
            && r.error.None? && r.session == s.(count := n, certObj := Some(Provisioning(cert)))
            && r.calls == Uploads(id, cert.certChain, 0, n)
  {
    var n := |cert.certChain|;
    var s1 := s.(certObj := Some(Provisioning(cert)), count := 1);
    var p := Provision(id, s, sv, nonce, false);
    assert p == ProvisionStep(s1, [UploadCall(id, cert.certChain, 0)], None, None);
    CursorAdvances(id, s1, sv, nonce, cert, n - 1);
  }

  /** The round after the last upload bumps the cursor from N to N+1 and only
      then signs fwNonce followed by the fresh nonce, stores the device and
      requests AdminSetup with the digest of admin:realm:password. A signing
      error fails the session instead. */
  lemma SigningRound(id: ClientId, s: SessionView, sv: AcmServices, nonce: seq<byte>, repoPresent: bool,
                     cert: ProvisioningCert)
    requires s.payload.fwNonce.Some? && s.certObj == Some(Provisioning(cert))
    requires s.count > 0 && s.count == |cert.certChain|
    ensures var p := Provision(id, s, sv, nonce, repoPresent);
            var signature := sv.sign(s.payload.fwNonce.value + nonce, cert.privateKey);
            var amtPassword := sv.amtPassword(s.payload.profile.profileName);
            && p.session == s.(count := s.count + 1)
            && (signature.errorText != "" ==>
                  p.calls == [] && p.inserted.None? && p.error == Some(RPSError(signature.errorText)))
            && (signature.errorText == "" ==>
                  && p.error.None?
                  && p.calls == [SetupAcm(id, Md5Of(ADMIN_DIGEST_PREFIX + RealmText(s.payload.digestRealm) + ":" + amtPassword),
                                          nonce, signature)]
                  && p.inserted == if repoPresent then Some(AmtDevice(s.uuid, s.uuid, sv.mpsUsername, sv.mpsPassword,
                                                                       sv.amtUsername, amtPassword))
                                   else None)
  {
  }

  /** While the cursor is inside the chain no signing happens */
  lemma NoSigningDuringUpload(id: ClientId, s: SessionView, sv: AcmServices, nonce: seq<byte>, repoPresent: bool,
                              cert: ProvisioningCert)
    requires s.payload.fwNonce.Some? && s.certObj == Some(Provisioning(cert))
    requires 0 < s.count < |cert.certChain|
    ensures var p := Provision(id, s, sv, nonce, repoPresent);
            p.calls == [UploadCall(id, cert.certChain, s.count)] && p.inserted.None? && p.error.None?
  {
  }
}
