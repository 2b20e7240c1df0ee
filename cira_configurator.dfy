/**
 * The CIRA configurator as an object: `execute` drives one round of the
 * teardown-then-build state machine on the shared session record, and each
 * method is proved to do exactly what the functions of CiraSpec describe.
 * Line references are to src/actions/CIRAConfigurator.ts.
 */
module Cira {
  import opened Wrappers
  import opened Wire
  import opened Transport
  import opened Sessions
  import opened CiraSpec

  class CIRAConfigurator {
    const configurator: Configurator?
    const amtwsman: WSManProcessor
    const clientManager: ClientManager

    constructor (configurator: Configurator?, amtwsman: WSManProcessor, clientManager: ClientManager)
      ensures this.configurator == configurator && this.amtwsman == amtwsman
      ensures this.clientManager == clientManager
    {
      this.configurator := configurator;
      this.amtwsman := amtwsman;
      this.clientManager := clientManager;
    }

    /** The password setAMTPassword would store for `uuid`, or what it throws */
    function StoredPassword(uuid: string): Result<string, Error>
      reads this, configurator, RepositoryFrame(configurator)
    {
      AmtPasswordLookup(RepositoryOf(configurator), uuid)
    }

    /** Lines 215-234: copy the device's stored admin password onto the payload */
    method SetAMTPassword(clientId: ClientId, clientObj: ClientObject) returns (err: Option<Error>)
      modifies clientObj`payload
      ensures match StoredPassword(old(clientObj.payload.uuid))
              case Success(pw) => err.None? && clientObj.payload == old(clientObj.payload).(password := pw)
              case Failure(e) => err == Some(e) && clientObj.payload == old(clientObj.payload)
    {
      var payload := clientObj.payload;
      if configurator != null && configurator.amtDeviceRepository != null {
        var amtDevice := configurator.amtDeviceRepository.Get(payload.uuid);
        if amtDevice.Some? && amtDevice.value.amtpass != "" {
          payload := payload.(password := amtDevice.value.amtpass);
          clientObj.payload := payload;
        } else {
          return Some(RPSError(NO_AMT_PASSWORD + payload.uuid));
        }
      } else {
        return Some(RPSError(DEVICE + payload.uuid + NO_REPOSITORY));
      }
      return None;
    }

    /** Lines 135-212: one step of removing the existing CIRA configuration */
    method Delete(clientId: ClientId, clientObj: ClientObject, reply: WsmanResponse) returns (err: Option<Error>)
      modifies clientObj`payload, clientObj`ciraconfig, amtwsman
      ensures var t := Teardown(clientId, old(clientObj.ciraconfig), reply, old(clientObj.payload.uuid),
                                StoredPassword(old(clientObj.payload.uuid)));
              (clientObj.ciraconfig, clientObj.payload, amtwsman.log, amtwsman.cache, err)
              == (t.progress,
                  if t.password.Some? then old(clientObj.payload).(password := t.password.value) else old(clientObj.payload),
                  old(amtwsman.log) + t.calls,
                  SwapCredentials(old(amtwsman.cache), clientId, PolicyRuleUserInitiate !in old(clientObj.ciraconfig.done)),
                  t.error)
    {
      var first: seq<WsmanCall> := [];
      ghost var password: Option<string> := None;
      AppendNothing(amtwsman.log);
      if PolicyRuleUserInitiate !in clientObj.ciraconfig.done {
        // the cached connection now authenticates with the payload's password
        amtwsman.UseAdminCredentials(clientId);
        var e := SetAMTPassword(clientId, clientObj);
        if e.Some? {
          return e;
        }
        password := Some(clientObj.payload.password);
        clientObj.ciraconfig := clientObj.ciraconfig.Set(PolicyRuleUserInitiate);
        var call := WsmanCall.Delete(clientId, POLICY_RULE_CLASS, PolicyRuleName(RULE_USER_INITIATED));
        first := [call];
        amtwsman.Send(call);
      } else if PolicyRuleAlert !in clientObj.ciraconfig.done {
        clientObj.ciraconfig := clientObj.ciraconfig.Set(PolicyRuleAlert);
        var call := WsmanCall.Delete(clientId, POLICY_RULE_CLASS, PolicyRuleName(RULE_ALERT));
        first := [call];
        amtwsman.Send(call);
      } else if PolicyRulePeriodic !in clientObj.ciraconfig.done {
        clientObj.ciraconfig := clientObj.ciraconfig.Set(PolicyRulePeriodic);
        var call := WsmanCall.Delete(clientId, POLICY_RULE_CLASS, PolicyRuleName(RULE_PERIODIC));
        first := [call];
        amtwsman.Send(call);
      } else if MpsRemoteSapEnumerate !in clientObj.ciraconfig.done {
        clientObj.ciraconfig := clientObj.ciraconfig.Set(MpsRemoteSapEnumerate);
        var call := BatchEnum(clientId, REMOTE_SAP_CLASS);
        first := [call];
        amtwsman.Send(call);
      } else if MpsRemoteSapDelete !in clientObj.ciraconfig.done && reply.remoteSap.Some? {
        clientObj.ciraconfig := clientObj.ciraconfig.Set(MpsRemoteSapDelete);
        if reply.remoteSap.value.responses.None? {
          return Some(OtherError(UNDEFINED_RESPONSES));
        }
        var saps := reply.remoteSap.value.responses.value;
        if |saps| > 0 {
          amtwsman.Send(WsmanCall.Delete(clientId, REMOTE_SAP_CLASS, SapName(saps[0].name)));
          return None;
        }
      }
      TeardownRestCarries(clientId, clientObj.ciraconfig, reply, first, password);
      ghost var log1 := amtwsman.log;
      err := DeleteRest(clientId, clientObj, reply);
      AppendAssoc(old(amtwsman.log), first, amtwsman.log[|log1|..]);
    }

    /** Lines 175-211: the certificate chain, then the environment-detection chain */
    method DeleteRest(clientId: ClientId, clientObj: ClientObject, reply: WsmanResponse) returns (err: Option<Error>)
      modifies clientObj`ciraconfig, amtwsman`log
      ensures var t := TeardownRest(clientId, old(clientObj.ciraconfig), reply, [], None);
              (clientObj.ciraconfig, amtwsman.log, err) == (t.progress, old(amtwsman.log) + t.calls, t.error)
    {
      AppendNothing(amtwsman.log);
      ghost var certCalls: seq<WsmanCall> := [];
      // Deletes all the public certificates, one per round
      if MpsRemoteSapDelete in clientObj.ciraconfig.done && MpsRemoteSapGet !in clientObj.ciraconfig.done {
        clientObj.ciraconfig := clientObj.ciraconfig.Set(MpsRemoteSapGet);
        var call := BatchEnum(clientId, PUBLIC_CERT_CLASS);
        certCalls := [call];
        amtwsman.Send(call);
      } else if MpsRemoteSapGet in clientObj.ciraconfig.done && MpsPublicCertDelete !in clientObj.ciraconfig.done {
        if clientObj.ciraconfig.publicCerts.None? {
          if reply.publicKeyCerts.None? {
            return Some(OtherError(UNDEFINED_PUBLIC_CERTS));
          }
          clientObj.ciraconfig := clientObj.ciraconfig.(publicCerts := reply.publicKeyCerts);
        }
        var pending := clientObj.ciraconfig.publicCerts.value;
        if |pending| > 0 {
          var cert := pending[|pending| - 1];
          clientObj.ciraconfig := clientObj.ciraconfig.(publicCerts := Some(pending[..|pending| - 1]));
          var call := WsmanCall.Delete(clientId, PUBLIC_CERT_CLASS, Certificate(cert));
          certCalls := [call];
          amtwsman.Send(call);
        } else {
          clientObj.ciraconfig := clientObj.ciraconfig.Set(MpsPublicCertDelete);
        }
      }
      ghost var envCalls: seq<WsmanCall> := [];
      AppendNothing(amtwsman.log);
      // Deletes all the domain suffixes
      if MpsPublicCertDelete in clientObj.ciraconfig.done && GetEnvSettingData !in clientObj.ciraconfig.done {
        clientObj.ciraconfig := clientObj.ciraconfig.Set(GetEnvSettingData);
        var call := BatchEnum(clientId, ENV_DETECTION_ENUM);
        envCalls := [call];
        amtwsman.Send(call);
      } else if GetEnvSettingData in clientObj.ciraconfig.done && SetEnvSettingData !in clientObj.ciraconfig.done {
        if reply.envDetection.Some? && reply.envDetection.value.response.Some?
           && reply.envDetection.value.response.value.detectionStrings.Some? {
          var envSettings := reply.envDetection.value.response.value.(detectionStrings := Some(DetectionList([])));
          var call := Put(clientId, ENV_DETECTION_CLASS, envSettings);
          envCalls := [call];
          amtwsman.Send(call);
        } else {
          clientObj.ciraconfig := clientObj.ciraconfig.Set(SetEnvSettingData);
        }
      }
      AppendAssoc(old(amtwsman.log), certCalls, envCalls);
      PrependNothing(certCalls);
      return None;
    }

    /**
     * Lines 33-127: `execute`. The teardown runs first; once it is complete,
     * a profile naming a CIRA configuration goes on with one build step.
     */
    method Execute(message: ClientMsg, clientId: ClientId) returns (r: Option<ClientResponse>)
      requires clientId in clientManager.clients
      modifies clientManager.clients[clientId], amtwsman
      ensures var obj := clientManager.clients[clientId];
              var out := CiraStep(clientId, old(obj.View()), ReplyView(message.payload),
                                  StoredPassword(old(obj.payload.uuid)));
              (obj.View(), amtwsman.log, amtwsman.cache, r)
              == (out.session, old(amtwsman.log) + out.calls,
                  SwapCredentials(old(amtwsman.cache), clientId, out.adminChannel), out.response)
    {
      var clientObj := clientManager.clients[clientId];
      var wsmanResponse := ReplyView(message.payload);
      if wsmanResponse.None? {
        AppendNothing(amtwsman.log);
        return None;
      }
      ghost var log0 := amtwsman.log;
      var e := Delete(clientId, clientObj, wsmanResponse.value);
      if e.Some? {
        return Some(CiraFailure(clientId, e.value, clientObj.ciraconfig.status));
      }
      if clientObj.payload.profile.ciraConfigName != "" && SetEnvSettingData in clientObj.ciraconfig.done {
        ghost var log1 := amtwsman.log;
        var result := Configure(clientId, clientObj, wsmanResponse.value);
        AppendAssoc(log0, log1[|log0|..], amtwsman.log[|log1|..]);
        match result
        case Failure(err) => r := Some(CiraFailure(clientId, err, clientObj.ciraconfig.status));
        case Success(resp) => r := resp;
      } else if SetEnvSettingData in clientObj.ciraconfig.done {
        r := Some(SuccessResponse(clientId, DEVICE + clientObj.uuid + " " + clientObj.ciraconfig.status));
      } else {
        r := None;
      }
    }

    /** Lines 43-113: one step of adding the new CIRA configuration */
    method Configure(clientId: ClientId, clientObj: ClientObject, reply: WsmanResponse)
      returns (result: Result<Option<ClientResponse>, Error>)
      modifies clientObj`ciraconfig, amtwsman`log
      ensures var b := Build(clientId, old(clientObj.ciraconfig), clientObj.payload.profile.ciraConfigObject,
                             clientObj.uuid, reply);
              (clientObj.ciraconfig, amtwsman.log, result) == (b.progress, old(amtwsman.log) + b.calls, b.result)
    {
      AppendNothing(amtwsman.log);
      var f := clientObj.ciraconfig;
      var configScript := clientObj.payload.profile.ciraConfigObject;
      result := Success(None);
      if MpsRemoteSapDelete in f.done && AddTrustedRootCert !in f.done {
        clientObj.ciraconfig := f.Set(AddTrustedRootCert);
        amtwsman.Send(WsmanCall.Execute(clientId, PUBLIC_KEY_SERVICE, ADD_TRUSTED_ROOT,
                              TrustedRootCert(configScript.mpsRootCertificate)));
      } else if AddTrustedRootCert in f.done && AddMpsServer !in f.done {
        clientObj.ciraconfig := f.Set(AddMpsServer);
        var cn := if configScript.serverAddressFormat == 3 && configScript.commonName != ""
                  then Some(configScript.commonName) else None;
        var server := MpServer(configScript.mpsServerAddress, configScript.serverAddressFormat,
                               configScript.mpsPort, configScript.authMethod,
                               configScript.username, configScript.password, cn);
        amtwsman.Send(WsmanCall.Execute(clientId, REMOTE_ACCESS_SERVICE, ADD_MP_SERVER, server));
      } else if AddMpsServer in f.done && MpsRemoteSap !in f.done {
        clientObj.ciraconfig := f.Set(MpsRemoteSap);
        if reply.body.Some? && reply.body.value.returnValueStr == RETURN_SUCCESS {
          amtwsman.Send(BatchEnum(clientId, REMOTE_SAP_CLASS));
        } else {
          result := Failure(MpsNotAdded(clientObj.uuid, f.status));
        }
      } else if AddRemoteAccessPolicyRule !in f.done && AddMpsServer in f.done {
        clientObj.ciraconfig := f.Set(AddRemoteAccessPolicyRule);
        if reply.remoteSap.Some? && reply.remoteSap.value.responses.Some?
           && |reply.remoteSap.value.responses.value| > 0 {
          var name := reply.remoteSap.value.responses.value[0].name;
          var policy := PolicyRule(2, 0, EXTENDED_DATA_25S, name);
          amtwsman.Send(WsmanCall.Execute(clientId, REMOTE_ACCESS_SERVICE, ADD_POLICY_RULE, policy));
        } else {
          result := Failure(MpsNotAdded(clientObj.uuid, f.status));
        }
      } else if UserInitConnectionService !in f.done && AddRemoteAccessPolicyRule in f.done {
        clientObj.ciraconfig := f.Set(UserInitConnectionService);
        amtwsman.Send(WsmanCall.Execute(clientId, USER_INITIATED_SERVICE, REQUEST_STATE_CHANGE,
                              RequestedState(USER_INITIATED_ENABLED)));
      } else if UserInitConnectionService in f.done && GetEnvSettingDataCira !in f.done {
        clientObj.ciraconfig := f.Set(GetEnvSettingDataCira);
        amtwsman.Send(BatchEnum(clientId, ENV_DETECTION_ENUM));
      } else if GetEnvSettingData in f.done && SetEnvSettingDataCira !in f.done {
        if reply.envDetection.None? || reply.envDetection.value.response.None? {
          return Failure(OtherError(UNDEFINED_DETECTION));
        }
        var envSettings := reply.envDetection.value.response.value;
        envSettings := envSettings.(detectionStrings := Some(PlaceholderDetection(envSettings.detectionStrings)));
        clientObj.ciraconfig := f.Set(SetEnvSettingDataCira);
        amtwsman.Send(Put(clientId, ENV_DETECTION_CLASS, envSettings));
      } else if SetEnvSettingDataCira in f.done {
        result := Success(Some(SuccessResponse(clientId, DEVICE + clientObj.uuid + " " + f.status + CIRA_CONFIGURED)));
      }
    }
  }
}
