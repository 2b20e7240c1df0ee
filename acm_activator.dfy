/**
 * The admin-control-mode activator as an object. `Execute` handles one reply
 * on the shared session record: it reads the reply, advances the
 * certificate cursor, and finally signs the nonces and requests AdminSetup.
 * Each method is proved to do what the functions of AcmSpec describe.
 * Line references are to src/actions/ACMActivator.ts.
 */
module Acm {
  import opened Wrappers
  import opened Wire
  import opened Transport
  import opened Sessions
  import opened AcmSpec
  import CiraSpec
  import CiraProperties
  import Cira

  class ACMActivator {
    const configurator: Configurator?
    const amtwsman: WSManProcessor
    const clientManager: ClientManager
    const ciraConfigurator: Cira.CIRAConfigurator
    const services: AcmServices

    /** The activator and the CIRA configurator it hands over to share the
        configurator, the WS-Man processor and the session store */
    predicate Wired()
    {
      && ciraConfigurator.configurator == configurator
      && ciraConfigurator.amtwsman == amtwsman
      && ciraConfigurator.clientManager == clientManager
    }

    constructor (configurator: Configurator?, amtwsman: WSManProcessor, clientManager: ClientManager,
                 ciraConfigurator: Cira.CIRAConfigurator, services: AcmServices)
      requires ciraConfigurator.configurator == configurator && ciraConfigurator.amtwsman == amtwsman
      requires ciraConfigurator.clientManager == clientManager
      ensures Wired()
      ensures this.configurator == configurator && this.amtwsman == amtwsman
      ensures this.clientManager == clientManager && this.ciraConfigurator == ciraConfigurator
      ensures this.services == services
    {
      this.configurator := configurator;
      this.amtwsman := amtwsman;
      this.clientManager := clientManager;
      this.ciraConfigurator := ciraConfigurator;
      this.services := services;
    }

    /**
     * Lines 44-136: `execute`. A missing payload fails at once; otherwise the
     * reply is handled and, while the session is still an admin-mode
     * activation that knows the firmware nonce, provisioning advances by one
     * round. Every failure becomes an error response.
     */
    method Execute(message: ClientMsg, clientId: ClientId, nonce: seq<byte>) returns (r: Option<ClientResponse>)
      requires Wired() && clientId in clientManager.clients
      modifies clientManager.clients[clientId], amtwsman, RepositoryFrame(configurator)
      ensures var obj := clientManager.clients[clientId];
              var out := AcmStep(clientId, old(obj.View()), ReplyView(message.payload), services, nonce,
                                 RepositoryOf(configurator) != null,
                                 old(ciraConfigurator.StoredPassword(obj.payload.uuid)));
              (obj.View(), amtwsman.log, amtwsman.cache, StoredDevices(configurator), r)
              == (out.session, old(amtwsman.log) + out.calls,
                  SwapCredentials(old(amtwsman.cache), clientId, out.adminChannel),
                  WithDevice(old(StoredDevices(configurator)), out.inserted), out.response)
    {
      var clientObj := clientManager.clients[clientId];
      if ReplyView(message.payload).None? {
        r := Some(ErrorResponse(clientId, DEVICE + clientObj.uuid + MISSING_PAYLOAD));
        AppendNothing(amtwsman.log);
      } else {
        ghost var log0 := amtwsman.log;
        ghost var round := ReplyRound(clientId, clientObj.View(), ReplyView(message.payload).value, services.realmValid,
                                      ciraConfigurator.StoredPassword(clientObj.payload.uuid));
        var err := ProcessWSManJsonResponse(message, clientId);
        if err.Some? {
          r := Some(AcmFailure(clientId, err.value));
          AppendNothing(log0);
        } else {
          ghost var log1 := amtwsman.log;
          r := ContinueActivation(clientId, clientObj, nonce);
          AppendAssoc(log0, round.value.calls, amtwsman.log[|log1|..]);
        }
      }
    }

    /** Lines 56-127: advance provisioning by one round while the session is
        an admin-mode activation that knows the firmware nonce */
    method ContinueActivation(clientId: ClientId, clientObj: ClientObject, nonce: seq<byte>) returns (r: Option<ClientResponse>)
      modifies clientObj`count, clientObj`certObj, amtwsman`log, RepositoryFrame(configurator)
      ensures var q := ProvisionIfReady(clientId, old(clientObj.View()), services, nonce, RepositoryOf(configurator) != null);
              (clientObj.View(), amtwsman.log, StoredDevices(configurator), r)
              == (q.session, old(amtwsman.log) + q.calls, WithDevice(old(StoredDevices(configurator)), q.inserted), q.response)
    {
      AppendNothing(amtwsman.log);
      if clientObj.payload.fwNonce.Some? && clientObj.action == ADMINCTLMODE {
        var err := ProvisionRound(clientId, clientObj, nonce);
        if err.Some? {
          return Some(AcmFailure(clientId, err.value));
        }
      }
      return None;
    }

    /**
     * Lines 145-168: convert the stored PFX and return its chain when the
     * root fingerprint is one of the device's trusted hashes, ignoring case.
     */
    method GetProvisioningCertObj(certHashes: seq<string>, cert: string, password: string) returns (r: Option<CertObj>)
      ensures r == ProvisioningCertObj(certHashes, services.convertPfx(cert, password))
    {
      var pfxobj := services.convertPfx(cert, password);
      if pfxobj.errorText != "" {
        return Some(PfxError(pfxobj.errorText));
      }
      if pfxobj.dump.None? {
        return None;
      }
      var certChainPfx := pfxobj.dump.value;
      var i := 0;
      while i < |certHashes|
        invariant 0 <= i <= |certHashes|
        invariant forall j :: 0 <= j < i ==> !SameHash(certHashes[j], certChainPfx.fingerprint)
      {
        if ToLower(certHashes[i]) == ToLower(certChainPfx.fingerprint) {
          return Some(Provisioning(certChainPfx.provisioningCertificateObj));
        }
        i := i + 1;
      }
      return None;
    }

    /**
     * Lines 171-212: read one decoded reply into the record. An AdminSetup
     * success switches the session to CIRA and runs the CIRA configurator on
     * the same message, whose answer is not passed on.
     */
    method ProcessWSManJsonResponse(message: ClientMsg, clientId: ClientId) returns (err: Option<Error>)
      requires Wired() && clientId in clientManager.clients && ReplyView(message.payload).Some?
      modifies clientManager.clients[clientId], amtwsman
      ensures var obj := clientManager.clients[clientId];
              (err, obj.View(), amtwsman.log, amtwsman.cache)
              == match ReplyRound(clientId, old(obj.View()), ReplyView(message.payload).value, services.realmValid,
                                  old(ciraConfigurator.StoredPassword(obj.payload.uuid)))
                 case Failure(e) => (Some(e), old(obj.View()), old(amtwsman.log), old(amtwsman.cache))
                 case Success(o) => (None, o.session, old(amtwsman.log) + o.calls,
                                     SwapCredentials(old(amtwsman.cache), clientId, o.adminChannel))
    {
      var clientObj := clientManager.clients[clientId];
      ghost var s := clientObj.View();
      ghost var w := ReplyView(message.payload).value;
      ghost var amtpass := ciraConfigurator.StoredPassword(s.payload.uuid);
      var handOff;
      err, handOff := ReadReply(message, clientId, clientObj, s, w);
      if handOff {
        assert ciraConfigurator.StoredPassword(clientObj.payload.uuid) == amtpass;
        HandOff(message, clientId);
      }
    }

    /** Lines 173-203 and 207-211: the reply's effect on the record, up to the hand-off to CIRA */
    method ReadReply(message: ClientMsg, clientId: ClientId, obj: ClientObject, ghost s: SessionView, ghost w: WsmanResponse)
      returns (err: Option<Error>, handOff: bool)
      requires obj.View() == s && ReplyView(message.payload) == Some(w)
      modifies obj`payload, amtwsman`log
      ensures match ProcessReply(clientId, s, w, services.realmValid)
              case Failure(e) =>
                && err == Some(e) && !handOff && obj.View() == s && amtwsman.log == old(amtwsman.log)
              case Success(eff) =>
                && err.None? && handOff == eff.handOff
                && if handOff then obj.View() == s && amtwsman.log == old(amtwsman.log)
                   else obj.View() == eff.session && amtwsman.log == old(amtwsman.log) + eff.calls
    {
      var clientObj := obj;
      var wsmanResponse := ReplyView(message.payload).value;
      handOff := false;
      if wsmanResponse.generalSettings.Some? {
        if wsmanResponse.generalSettings.value.response.None? {
          return Some(OtherError(UNDEFINED_DIGEST_REALM)), false;
        }
        var digestRealm := wsmanResponse.generalSettings.value.response.value.digestRealm;
        if !services.realmValid(digestRealm) {
          return Some(RPSError(DEVICE + clientObj.uuid + INVALID_REALM)), false;
        }
        clientObj.payload := clientObj.payload.(digestRealm := Some(digestRealm));
        if clientObj.payload.fwNonce.None? {
          amtwsman.Send(BatchEnum(clientId, HOST_BASED_SETUP_ENUM));
        }
      } else if wsmanResponse.hostBasedSetup.Some? {
        if wsmanResponse.hostBasedSetup.value.response.None? {
          return Some(OtherError(UNDEFINED_CONFIGURATION_NONCE)), false;
        }
        var response := wsmanResponse.hostBasedSetup.value.response.value;
        clientObj.payload := clientObj.payload.(fwNonce := Some(response.configurationNonce),
                                                modes := Some(response.allowedControlModes));
      } else if wsmanResponse.header.Some? && wsmanResponse.header.value.methodName == ADD_NEXT_CERT {
        if wsmanResponse.body.None? {
          return Some(OtherError(UNDEFINED_RETURN_VALUE)), false;
        }
        if wsmanResponse.body.value.returnValue != Some(0) {
          return Some(RPSError(DEVICE + clientObj.uuid + CERT_UPLOAD_FAILED)), false;
        }
      } else if wsmanResponse.header.Some? && wsmanResponse.header.value.methodName == ADMIN_SETUP {
        if wsmanResponse.body.None? {
          return Some(OtherError(UNDEFINED_RETURN_VALUE)), false;
        }
        if wsmanResponse.body.value.returnValue != Some(0) {
          return Some(RPSError(DEVICE + clientObj.uuid + ADMIN_SETUP_FAILED)), false;
        }
        handOff := true;
      } else {
        return Some(RPSError(DEVICE + clientObj.uuid + INVALID_RESPONSE)), false;
      }
      return None, handOff;
    }

    /** Lines 200-205: mark the session as activated and run CIRA on the same message */
    method HandOff(message: ClientMsg, clientId: ClientId)
      requires Wired() && clientId in clientManager.clients
      modifies clientManager.clients[clientId], amtwsman
      ensures var obj := clientManager.clients[clientId];
              var o := HandOffOutcome(clientId, old(obj.View()), ReplyView(message.payload),
                                      old(ciraConfigurator.StoredPassword(obj.payload.uuid)));
              (obj.View(), amtwsman.log, amtwsman.cache)
              == (o.session, old(amtwsman.log) + o.calls, SwapCredentials(old(amtwsman.cache), clientId, o.adminChannel))
    {
      var clientObj := clientManager.clients[clientId];
      clientObj.ciraconfig := clientObj.ciraconfig.(status := ADMIN_MODE_STATUS);
      clientObj.action := CIRACONFIG;
      var ignored := ciraConfigurator.Execute(message, clientId);
    }

    /**
     * Lines 57-127 once the firmware nonce is known: resolve the provisioning
     * certificate on a zero cursor, upload the next certificate of the chain,
     * and on the round after the last upload sign and request AdminSetup.
     */
    method ProvisionRound(clientId: ClientId, clientObj: ClientObject, nonce: seq<byte>) returns (err: Option<Error>)
      requires clientObj.payload.fwNonce.Some?
      modifies clientObj`count, clientObj`certObj, amtwsman`log, RepositoryFrame(configurator)
      ensures var p := Provision(clientId, old(clientObj.View()), services, nonce, RepositoryOf(configurator) != null);
              (clientObj.View(), amtwsman.log, StoredDevices(configurator), err)
              == (p.session, old(amtwsman.log) + p.calls, WithDevice(old(StoredDevices(configurator)), p.inserted), p.error)
    {
      AppendNothing(amtwsman.log);
      err := ResolveProvisioningCert(clientObj);
      if err.Some? {
        return;
      }
      if clientObj.certObj.None? || !clientObj.certObj.value.Provisioning? {
        return Some(OtherError(UNDEFINED_CERT_CHAIN));
      }
      var cert := clientObj.certObj.value.cert;
      var n := |cert.certChain|;
      if clientObj.count == n {
        clientObj.count := clientObj.count + 1;
      }
      ghost var upload: seq<WsmanCall> := [];
      if clientObj.count < n {
        var i := clientObj.count;
        var call;
        if i == 0 {
          call := CertChainStep(clientId, cert.certChain[i], true, false);
        } else if i < n - 1 {
          call := CertChainStep(clientId, cert.certChain[i], false, false);
        } else {
          call := CertChainStep(clientId, cert.certChain[i], false, true);
        }
        amtwsman.Send(call);
        upload := [call];
        clientObj.count := i + 1;
      }
      if clientObj.count > n {
        ghost var log1 := amtwsman.log;
        err := RequestAdminSetup(clientId, clientObj, cert, nonce);
        AppendAssoc(old(amtwsman.log), upload, amtwsman.log[|log1|..]);
      }
    }

    /** Lines 59-76: on a zero cursor, fetch the provisioning certificate for
        the device's domain and match it against the trusted root hashes */
    method ResolveProvisioningCert(clientObj: ClientObject) returns (err: Option<Error>)
      modifies clientObj`certObj
      ensures match ResolveCert(old(clientObj.View()), services)
              case Failure(e) => err == Some(e) && clientObj.View() == ResolvedRecord(old(clientObj.View()), services)
              case Success(s1) => err.None? && clientObj.View() == s1
    {
      if clientObj.count == 0 {
        var fqdn := clientObj.payload.fqdn;
        var provisioningCert := services.provisioningCert(fqdn);
        if provisioningCert == "" {
          return Some(RPSError(DEVICE + clientObj.uuid + CERT_NOT_FOUND));
        }
        var provisioningCertPassword := services.provisioningCertPassword(fqdn);
        clientObj.certObj := GetProvisioningCertObj(clientObj.payload.certHashes, provisioningCert, provisioningCertPassword);
        if clientObj.certObj.None? {
          return Some(RPSError(DEVICE + clientObj.uuid
                               + CERT_NOT_TRUSTED));
        }
        if clientObj.certObj.value.PfxError? {
          return Some(RPSError(clientObj.certObj.value.errorText));
        }
      }
      return None;
    }

    /** Lines 95-124: sign fwNonce followed by the fresh nonce with the
        certificate's key, store the device's credentials and request AdminSetup
        with the digest of admin:realm:password */
    method RequestAdminSetup(clientId: ClientId, clientObj: ClientObject, cert: ProvisioningCert, nonce: seq<byte>)
      returns (err: Option<Error>)
      requires clientObj.payload.fwNonce.Some?
      modifies amtwsman`log, RepositoryFrame(configurator)
      ensures var q := AdminSetupRequest(clientId, clientObj.View(), cert, services, nonce, RepositoryOf(configurator) != null);
              (amtwsman.log, StoredDevices(configurator), err)
              == (old(amtwsman.log) + q.calls, WithDevice(old(StoredDevices(configurator)), q.inserted), q.error)
    {
      AppendNothing(amtwsman.log);
      var signature := services.sign(clientObj.payload.fwNonce.value + nonce, cert.privateKey);
      if signature.errorText != "" {
        return Some(RPSError(signature.errorText));
      }
      var amtPassword := services.amtPassword(clientObj.payload.profile.profileName);
      if configurator != null && configurator.amtDeviceRepository != null {
        configurator.amtDeviceRepository.Insert(AmtDevice(clientObj.uuid, clientObj.uuid, services.mpsUsername,
                                                          services.mpsPassword, services.amtUsername, amtPassword));
      }
      var data := ADMIN_DIGEST_PREFIX + RealmText(clientObj.payload.digestRealm) + ":" + amtPassword;
      var password := Md5Of(data);
      amtwsman.Send(SetupAcm(clientId, password, nonce, signature));
      return None;
    }
  }
}
