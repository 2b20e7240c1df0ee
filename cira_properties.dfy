/**
 * Properties of the CIRA configurator's state machine (module CiraSpec).
 * Line references are to src/actions/CIRAConfigurator.ts.
 */
module CiraProperties {
  import opened Wrappers
  import opened Wire
  import opened Transport
  import opened Sessions
  import opened CiraSpec

  /** The milestones `delete` moves */
  const TEARDOWN: set<Milestone> :=
    {PolicyRuleUserInitiate, PolicyRuleAlert, PolicyRulePeriodic, MpsRemoteSapEnumerate,
     MpsRemoteSapDelete, MpsRemoteSapGet, MpsPublicCertDelete, GetEnvSettingData, SetEnvSettingData}

  /** The milestones the build half of `execute` moves */
  const BUILD: set<Milestone> :=
    {AddTrustedRootCert, AddMpsServer, MpsRemoteSap, AddRemoteAccessPolicyRule,
     UserInitConnectionService, GetEnvSettingDataCira, SetEnvSettingDataCira}

  /** The milestones of the first chain of `delete` (lines 137-174), in order */
  const FIRST_CHAIN: seq<Milestone> :=
    [PolicyRuleUserInitiate, PolicyRuleAlert, PolicyRulePeriodic, MpsRemoteSapEnumerate, MpsRemoteSapDelete]

  const FIRST_CHAIN_SET: set<Milestone> :=
    {PolicyRuleUserInitiate, PolicyRuleAlert, PolicyRulePeriodic, MpsRemoteSapEnumerate, MpsRemoteSapDelete}

  /** No milestone is cleared and the status text is kept */
  predicate FlagsKept(f: CiraProgress, g: CiraProgress)
  {
    f.done <= g.done && g.status == f.status
  }

  /** The milestones form a prefix of the fixed order: teardown first, then build */
  predicate Ordered(f: CiraProgress)
  {
    && (PolicyRuleAlert in f.done ==> PolicyRuleUserInitiate in f.done)
    && (PolicyRulePeriodic in f.done ==> PolicyRuleAlert in f.done)
    && (MpsRemoteSapEnumerate in f.done ==> PolicyRulePeriodic in f.done)
    && (MpsRemoteSapDelete in f.done ==> MpsRemoteSapEnumerate in f.done)
    && (MpsRemoteSapGet in f.done ==> MpsRemoteSapDelete in f.done)
    && (MpsPublicCertDelete in f.done ==> MpsRemoteSapGet in f.done)
    && (GetEnvSettingData in f.done ==> MpsPublicCertDelete in f.done)
    && (SetEnvSettingData in f.done ==> GetEnvSettingData in f.done)
    && (AddTrustedRootCert in f.done ==> SetEnvSettingData in f.done)
    && (AddMpsServer in f.done ==> AddTrustedRootCert in f.done)
    && (MpsRemoteSap in f.done ==> AddMpsServer in f.done)
    && (AddRemoteAccessPolicyRule in f.done ==> MpsRemoteSap in f.done)
    && (UserInitConnectionService in f.done ==> AddRemoteAccessPolicyRule in f.done)
    && (GetEnvSettingDataCira in f.done ==> UserInitConnectionService in f.done)
    && (SetEnvSettingDataCira in f.done ==> GetEnvSettingDataCira in f.done)
  }

  /** The certificate and environment part of `delete` (lines 175-211) only
      sets the last four teardown milestones */
  lemma TeardownRestMoves(id: ClientId, f: CiraProgress, reply: WsmanResponse,
                          calls: seq<WsmanCall>, password: Option<string>)
    ensures var g := TeardownRest(id, f, reply, calls, password).progress;
            && FlagsKept(f, g)
            && g.done - f.done <= {MpsRemoteSapGet, MpsPublicCertDelete, GetEnvSettingData, SetEnvSettingData}
  {
    var c := CertificateChain(id, f, reply);
    if MpsRemoteSapGet in f.done && MpsPublicCertDelete !in f.done {
      var pending := if f.publicCerts.Some? then f.publicCerts.value
                     else if reply.publicKeyCerts.Some? then reply.publicKeyCerts.value else [];
      if |pending| > 0 {} else {}
    }
  }

  lemma TeardownRestKeepsOrder(id: ClientId, f: CiraProgress, reply: WsmanResponse,
                               calls: seq<WsmanCall>, password: Option<string>)
    requires Ordered(f)
    ensures Ordered(TeardownRest(id, f, reply, calls, password).progress)
  {
    if MpsRemoteSapGet in f.done && MpsPublicCertDelete !in f.done {
      var pending := if f.publicCerts.Some? then f.publicCerts.value
                     else if reply.publicKeyCerts.Some? then reply.publicKeyCerts.value else [];
      if |pending| > 0 {} else {}
    }
  }

  /** `delete` never clears a milestone and sets teardown milestones only */
  lemma TeardownMoves(id: ClientId, f: CiraProgress, reply: WsmanResponse, uuid: string,
                      amtpass: Result<string, Error>)
    ensures var g := Teardown(id, f, reply, uuid, amtpass).progress;
            FlagsKept(f, g) && g.done - f.done <= TEARDOWN
  {
    if PolicyRuleUserInitiate !in f.done {
      if amtpass.Success? {
        TeardownRestMoves(id, f.Set(PolicyRuleUserInitiate), reply,
                          [Delete(id, POLICY_RULE_CLASS, PolicyRuleName(RULE_USER_INITIATED))], Some(amtpass.value));
      }
    } else if PolicyRuleAlert !in f.done {
      TeardownRestMoves(id, f.Set(PolicyRuleAlert), reply,
                        [Delete(id, POLICY_RULE_CLASS, PolicyRuleName(RULE_ALERT))], None);
    } else if PolicyRulePeriodic !in f.done {
      TeardownRestMoves(id, f.Set(PolicyRulePeriodic), reply,
                        [Delete(id, POLICY_RULE_CLASS, PolicyRuleName(RULE_PERIODIC))], None);
    } else if MpsRemoteSapEnumerate !in f.done {
      TeardownRestMoves(id, f.Set(MpsRemoteSapEnumerate), reply, [BatchEnum(id, REMOTE_SAP_CLASS)], None);
    } else if MpsRemoteSapDelete !in f.done && reply.remoteSap.Some? {
      if reply.remoteSap.value.responses.Some? && |reply.remoteSap.value.responses.value| == 0 {
        TeardownRestMoves(id, f.Set(MpsRemoteSapDelete), reply, [], None);
      }
    } else {
      TeardownRestMoves(id, f, reply, [], None);
    }
  }

  /** Of the first chain's five milestones, one `delete` sets at most one: the
      first one still unset */
  lemma FirstChainInOrder(id: ClientId, f: CiraProgress, reply: WsmanResponse, uuid: string,
                          amtpass: Result<string, Error>)
    ensures var first := (Teardown(id, f, reply, uuid, amtpass).progress.done - f.done) * FIRST_CHAIN_SET;
            || first == {}
            || exists k :: 0 <= k < 5 && (forall i :: 0 <= i < k ==> FIRST_CHAIN[i] in f.done)
                                     && FIRST_CHAIN[k] !in f.done && first == {FIRST_CHAIN[k]}
  {
    var h := Teardown(id, f, reply, uuid, amtpass).progress;
    if PolicyRuleUserInitiate !in f.done {
      if amtpass.Success? {
        var g := f.Set(PolicyRuleUserInitiate);
        TeardownRestMoves(id, g, reply, [Delete(id, POLICY_RULE_CLASS, PolicyRuleName(RULE_USER_INITIATED))],
                          Some(amtpass.value));
        OnlyFirstStep(f, g, h, 0);
      }
    } else if PolicyRuleAlert !in f.done {
      var g := f.Set(PolicyRuleAlert);
      TeardownRestMoves(id, g, reply, [Delete(id, POLICY_RULE_CLASS, PolicyRuleName(RULE_ALERT))], None);
      OnlyFirstStep(f, g, h, 1);
    } else if PolicyRulePeriodic !in f.done {
      var g := f.Set(PolicyRulePeriodic);
      TeardownRestMoves(id, g, reply, [Delete(id, POLICY_RULE_CLASS, PolicyRuleName(RULE_PERIODIC))], None);
      OnlyFirstStep(f, g, h, 2);
    } else if MpsRemoteSapEnumerate !in f.done {
      var g := f.Set(MpsRemoteSapEnumerate);
      TeardownRestMoves(id, g, reply, [BatchEnum(id, REMOTE_SAP_CLASS)], None);
      OnlyFirstStep(f, g, h, 3);
    } else if MpsRemoteSapDelete !in f.done && reply.remoteSap.Some? {
      var g := f.Set(MpsRemoteSapDelete);
      if reply.remoteSap.value.responses.Some? && |reply.remoteSap.value.responses.value| == 0 {
        TeardownRestMoves(id, g, reply, [], None);
      }
      OnlyFirstStep(f, g, h, 4);
    } else {
      TeardownRestMoves(id, f, reply, [], None);
      assert (h.done - f.done) * FIRST_CHAIN_SET == {};
    }
  }

  /** A round that sets the k-th milestone of the first chain, all earlier
      ones being set, and otherwise only milestones after the first chain */
  lemma OnlyFirstStep(f: CiraProgress, g: CiraProgress, h: CiraProgress, k: nat)
    requires k < 5 && forall i :: 0 <= i < k ==> FIRST_CHAIN[i] in f.done
    requires FIRST_CHAIN[k] !in f.done && g == f.Set(FIRST_CHAIN[k])
    requires g.done <= h.done && h.done - g.done <= {MpsRemoteSapGet, MpsPublicCertDelete, GetEnvSettingData, SetEnvSettingData}
    ensures exists j :: 0 <= j < 5 && (forall i :: 0 <= i < j ==> FIRST_CHAIN[i] in f.done)
                     && FIRST_CHAIN[j] !in f.done && (h.done - f.done) * FIRST_CHAIN_SET == {FIRST_CHAIN[j]}
  {
    var m := FIRST_CHAIN[k];
    assert m in FIRST_CHAIN_SET;
    forall x | x in h.done - f.done && x != m
      ensures x !in FIRST_CHAIN_SET
    {
      assert x in h.done - g.done;
    }
    assert (h.done - f.done) * FIRST_CHAIN_SET == {m};
  }

  /** The build half sets build milestones only */
  lemma BuildMoves(id: ClientId, f: CiraProgress, cfg: CiraConfigObject, uuid: string, reply: WsmanResponse)
    ensures var g := Build(id, f, cfg, uuid, reply).progress;
            FlagsKept(f, g) && g.done - f.done <= BUILD
  {
  }

  /** One `execute` never clears a milestone (every flag assignment writes true) */
  lemma CiraStepKeepsFlags(id: ClientId, s: SessionView, reply: Option<WsmanResponse>,
                           amtpass: Result<string, Error>)
    ensures FlagsKept(s.ciraconfig, CiraStep(id, s, reply, amtpass).session.ciraconfig)
  {
    if reply.Some? {
      var t := Teardown(id, s.ciraconfig, reply.value, s.payload.uuid, amtpass);
      TeardownMoves(id, s.ciraconfig, reply.value, s.payload.uuid, amtpass);
      BuildMoves(id, t.progress, s.payload.profile.ciraConfigObject, s.uuid, reply.value);
    }
  }

  /** A CIRA round changes neither the workflow kind, the identity nor the status text */
  lemma CiraStepKeepsRecord(id: ClientId, s: SessionView, reply: Option<WsmanResponse>, amtpass: Result<string, Error>)
    ensures var o := CiraStep(id, s, reply, amtpass).session;
            && o == s.(payload := o.payload, ciraconfig := o.ciraconfig)
            && o.payload == s.payload.(password := o.payload.password)
            && o.ciraconfig.status == s.ciraconfig.status
  {
    CiraStepKeepsFlags(id, s, reply, amtpass);
  }

  lemma TeardownKeepsOrder(id: ClientId, f: CiraProgress, reply: WsmanResponse, uuid: string,
                           amtpass: Result<string, Error>)
    requires Ordered(f)
    ensures Ordered(Teardown(id, f, reply, uuid, amtpass).progress)
  {
    if PolicyRuleUserInitiate !in f.done {
      if amtpass.Success? {
        TeardownRestKeepsOrder(id, f.Set(PolicyRuleUserInitiate), reply,
                               [Delete(id, POLICY_RULE_CLASS, PolicyRuleName(RULE_USER_INITIATED))], Some(amtpass.value));
      }
    } else if PolicyRuleAlert !in f.done {
      TeardownRestKeepsOrder(id, f.Set(PolicyRuleAlert), reply,
                             [Delete(id, POLICY_RULE_CLASS, PolicyRuleName(RULE_ALERT))], None);
    } else if PolicyRulePeriodic !in f.done {
      TeardownRestKeepsOrder(id, f.Set(PolicyRulePeriodic), reply,
                             [Delete(id, POLICY_RULE_CLASS, PolicyRuleName(RULE_PERIODIC))], None);
    } else if MpsRemoteSapEnumerate !in f.done {
      TeardownRestKeepsOrder(id, f.Set(MpsRemoteSapEnumerate), reply, [BatchEnum(id, REMOTE_SAP_CLASS)], None);
    } else if MpsRemoteSapDelete !in f.done && reply.remoteSap.Some? {
      if reply.remoteSap.value.responses.Some? && |reply.remoteSap.value.responses.value| == 0 {
        TeardownRestKeepsOrder(id, f.Set(MpsRemoteSapDelete), reply, [], None);
      }
    } else {
      TeardownRestKeepsOrder(id, f, reply, [], None);
    }
  }

  lemma BuildKeepsOrder(id: ClientId, f: CiraProgress, cfg: CiraConfigObject, uuid: string, reply: WsmanResponse)
    requires Ordered(f) && SetEnvSettingData in f.done
    ensures Ordered(Build(id, f, cfg, uuid, reply).progress)
  {
  }

  /** Milestones are reached strictly in the fixed order */
  lemma CiraStepKeepsOrder(id: ClientId, s: SessionView, reply: Option<WsmanResponse>,
                           amtpass: Result<string, Error>)
    requires Ordered(s.ciraconfig)
    ensures Ordered(CiraStep(id, s, reply, amtpass).session.ciraconfig)
  {
    if reply.Some? {
      var t := Teardown(id, s.ciraconfig, reply.value, s.payload.uuid, amtpass);
      TeardownKeepsOrder(id, s.ciraconfig, reply.value, s.payload.uuid, amtpass);
      if SetEnvSettingData in t.progress.done {
        BuildKeepsOrder(id, t.progress, s.payload.profile.ciraConfigObject, s.uuid, reply.value);
      }
    }
  }

  /** Once setENVSettingData is set (in an ordered record), `delete` changes
      nothing and issues no call */
  lemma TeardownDoneIsQuiet(id: ClientId, f: CiraProgress, reply: WsmanResponse, uuid: string,
                            amtpass: Result<string, Error>)
    requires Ordered(f) && SetEnvSettingData in f.done
    ensures Teardown(id, f, reply, uuid, amtpass) == TeardownStep(f, [], None, None)
  {
  }

  /** The environment step of the build (line 100) tests the teardown milestone
      getENVSettingData where getENVSettingDataCIRA is evidently meant; on an
      ordered record past the teardown the two guards agree wherever the
      earlier build guards have let the chain reach it. */
  lemma EnvironmentGuardAsIntended(f: CiraProgress)
    requires Ordered(f) && SetEnvSettingData in f.done
    requires !(MpsRemoteSapDelete in f.done && AddTrustedRootCert !in f.done)
    requires !(AddTrustedRootCert in f.done && AddMpsServer !in f.done)
    requires !(AddMpsServer in f.done && MpsRemoteSap !in f.done)
    requires !(AddRemoteAccessPolicyRule !in f.done && AddMpsServer in f.done)
    requires !(UserInitConnectionService !in f.done && AddRemoteAccessPolicyRule in f.done)
    requires !(UserInitConnectionService in f.done && GetEnvSettingDataCira !in f.done)
    ensures (GetEnvSettingData in f.done && SetEnvSettingDataCira !in f.done)
        <==> (GetEnvSettingDataCira in f.done && SetEnvSettingDataCira !in f.done)
  {
  }

  /** With no MPS endpoint enumerated, nothing is deleted and the same call
      enumerates the public certificates; with some, only the first is deleted */
  lemma MpsEndpointDeletion(id: ClientId, f: CiraProgress, saps: seq<RemoteSap>, reply: WsmanResponse,
                            uuid: string, amtpass: Result<string, Error>)
    requires Ordered(f)
    requires MpsRemoteSapEnumerate in f.done && MpsRemoteSapDelete !in f.done
    requires reply.remoteSap == Some(SapEnumeration(Some(saps)))
    ensures var t := Teardown(id, f, reply, uuid, amtpass);
            && t.error.None?
            && (|saps| == 0 ==> t.progress == f.Set(MpsRemoteSapDelete).Set(MpsRemoteSapGet)
                                && t.calls == [BatchEnum(id, PUBLIC_CERT_CLASS)])
            && (|saps| > 0 ==> t.progress == f.Set(MpsRemoteSapDelete)
                               && t.calls == [Delete(id, REMOTE_SAP_CLASS, SapName(saps[0].name))])
  {
  }

  // ---------------------------------------------------------------------------
  // Several rounds of teardown
  // ---------------------------------------------------------------------------

  /** `delete` applied once per reply, stopping at the first error */
  function TeardownRounds(id: ClientId, f: CiraProgress, replies: seq<WsmanResponse>, uuid: string,
                          amtpass: Result<string, Error>): TeardownStep
    decreases |replies|
  {
    if replies == [] then TeardownStep(f, [], None, None)
    else
      var t := Teardown(id, f, replies[0], uuid, amtpass);
      if t.error.Some? then t
      else
        var rest := TeardownRounds(id, t.progress, replies[1..], uuid, amtpass);
        TeardownStep(rest.progress, t.calls + rest.calls,
                     if rest.password.Some? then rest.password else t.password, rest.error)
  }

  /** The deletes issued for a pending list: last element first */
  function CertDeletes(id: ClientId, pending: seq<PublicCert>): seq<WsmanCall>
    decreases |pending|
  {
    if pending == [] then []
    else [Delete(id, PUBLIC_CERT_CLASS, Certificate(pending[|pending| - 1]))]
         + CertDeletes(id, pending[..|pending| - 1])
  }

  /** One delete per pending certificate, in reverse order of the list */
  lemma {:induction false} CertDeletesReversed(id: ClientId, pending: seq<PublicCert>)
    ensures |CertDeletes(id, pending)| == |pending|
    ensures forall i :: 0 <= i < |pending| ==>
              CertDeletes(id, pending)[i] == Delete(id, PUBLIC_CERT_CLASS, Certificate(pending[|pending| - 1 - i]))
    decreases |pending|
  {
    if pending != [] {
      var init := pending[..|pending| - 1];
      var rest := CertDeletes(id, init);
      CertDeletesReversed(id, init);
      assert CertDeletes(id, pending) == [Delete(id, PUBLIC_CERT_CLASS, Certificate(pending[|pending| - 1]))] + rest;
      forall i | 0 <= i < |pending|
        ensures CertDeletes(id, pending)[i] == Delete(id, PUBLIC_CERT_CLASS, Certificate(pending[|pending| - 1 - i]))
      {
        if i > 0 {
          assert init[|init| - 1 - (i - 1)] == pending[|pending| - 1 - i];
        }
      }
    }
  }

  /** Teardown state in which the certificate list is being drained */
  predicate DrainingCerts(f: CiraProgress)
  {
    f.done == {PolicyRuleUserInitiate, PolicyRuleAlert, PolicyRulePeriodic,
               MpsRemoteSapEnumerate, MpsRemoteSapDelete, MpsRemoteSapGet}
  }

  /** One round while draining a non-empty pending list */
  lemma DrainOne(id: ClientId, f: CiraProgress, pending: seq<PublicCert>, reply: WsmanResponse, uuid: string,
                 amtpass: Result<string, Error>)
    requires DrainingCerts(f) && f.publicCerts == Some(pending) && |pending| > 0
    ensures Teardown(id, f, reply, uuid, amtpass)
         == TeardownStep(f.(publicCerts := Some(pending[..|pending| - 1])),
                         [Delete(id, PUBLIC_CERT_CLASS, Certificate(pending[|pending| - 1]))], None, None)
  {
  }

  /** Each round pops the last pending certificate and deletes exactly that one */
  lemma {:induction false} PendingCertsDrained(id: ClientId, f: CiraProgress, pending: seq<PublicCert>,
                                               replies: seq<WsmanResponse>, uuid: string,
                                               amtpass: Result<string, Error>)
    requires DrainingCerts(f) && f.publicCerts == Some(pending) && |replies| == |pending|
    ensures var r := TeardownRounds(id, f, replies, uuid, amtpass);
            && r.error.None? && r.password.None?
            && r.calls == CertDeletes(id, pending) && r.progress == f.(publicCerts := Some([]))
    decreases |pending|
  {
    if pending != [] {
      var init := pending[..|pending| - 1];
      DrainOne(id, f, pending, replies[0], uuid, amtpass);
      PendingCertsDrained(id, f.(publicCerts := Some(init)), init, replies[1..], uuid, amtpass);
    }
  }

  /** Running rounds over a + b is running a, then b from where a stopped */
  lemma {:induction false} RoundsSplit(id: ClientId, f: CiraProgress, a: seq<WsmanResponse>, b: seq<WsmanResponse>,
                                       uuid: string, amtpass: Result<string, Error>)
    ensures var ra := TeardownRounds(id, f, a, uuid, amtpass);
            var rb := TeardownRounds(id, ra.progress, b, uuid, amtpass);
            ra.error.None? && ra.password.None? ==>
              TeardownRounds(id, f, a + b, uuid, amtpass) == TeardownStep(rb.progress, ra.calls + rb.calls, rb.password, rb.error)
    decreases |a|
  {
    if a == [] {
      assert a + b == b;
    } else {
      assert (a + b)[0] == a[0] && (a + b)[1..] == a[1..] + b;
      var t := Teardown(id, f, a[0], uuid, amtpass);
      if t.error.None? {
        RoundsSplit(id, t.progress, a[1..], b, uuid, amtpass);
        var rest := TeardownRounds(id, t.progress, a[1..], uuid, amtpass);
        var rb := TeardownRounds(id, rest.progress, b, uuid, amtpass);
        assert t.calls + (rest.calls + rb.calls) == (t.calls + rest.calls) + rb.calls;
      }
    }
  }

  /** The certificate list is read from the first enumeration reply only; one
      delete is issued per certificate, last first, and mpsPublicCert_Delete is
      set (with the environment enumeration issued) only once it is empty. */
  lemma PublicCertDeletesMatchEnumeration(id: ClientId, f: CiraProgress, certs: seq<PublicCert>,
                                          replies: seq<WsmanResponse>, uuid: string,
                                          amtpass: Result<string, Error>)
    requires DrainingCerts(f) && f.publicCerts.None?
    requires |replies| == |certs| + 1 && replies[0].publicKeyCerts == Some(certs)
    ensures var r := TeardownRounds(id, f, replies, uuid, amtpass);
            && r.error.None?
            && r.calls == CertDeletes(id, certs) + [BatchEnum(id, ENV_DETECTION_ENUM)]
            && r.progress == f.(publicCerts := Some([])).Set(MpsPublicCertDelete).Set(GetEnvSettingData)
  {
    var g := f.(publicCerts := Some(certs));
    var n := |certs|;
    assert replies[..n] + [replies[n]] == replies;
    // reading the list from the reply acts as if it had been pending already
    assert Teardown(id, f, replies[0], uuid, amtpass) == Teardown(id, g, replies[0], uuid, amtpass);
    assert TeardownRounds(id, f, replies, uuid, amtpass) == TeardownRounds(id, g, replies, uuid, amtpass);
    RoundsSplit(id, g, replies[..n], [replies[n]], uuid, amtpass);
    PendingCertsDrained(id, g, certs, replies[..n], uuid, amtpass);
    var h := g.(publicCerts := Some([]));
    assert TeardownRounds(id, h, [replies[n]], uuid, amtpass)
        == TeardownStep(h.Set(MpsPublicCertDelete).Set(GetEnvSettingData), [BatchEnum(id, ENV_DETECTION_ENUM)], None, None);
  }

  // ---------------------------------------------------------------------------
  // The build half of `execute` (lines 41-117)
  // ---------------------------------------------------------------------------

  /** The build runs only for a profile with a CIRA configuration name once
      the teardown is complete (line 41); otherwise the round is the teardown
      alone, and a complete teardown answers success with the status (lines
      114-116) */
  lemma BuildOnlyAfterTeardown(id: ClientId, s: SessionView, w: WsmanResponse, amtpass: Result<string, Error>)
    ensures var t := Teardown(id, s.ciraconfig, w, s.payload.uuid, amtpass);
            var o := CiraStep(id, s, Some(w), amtpass);
            t.error.None? && (s.payload.profile.ciraConfigName == "" || SetEnvSettingData !in t.progress.done) ==>
              && o.calls == t.calls && o.session.ciraconfig == t.progress
              && o.response == if SetEnvSettingData in t.progress.done
                               then Some(SuccessResponse(id, DEVICE + s.uuid + " " + t.progress.status))
                               else None
    ensures var t := Teardown(id, s.ciraconfig, w, s.payload.uuid, amtpass);
            var o := CiraStep(id, s, Some(w), amtpass);
            t.error.Some? ==>
              && o.calls == t.calls && o.session.ciraconfig == t.progress
              && o.response == Some(CiraFailure(id, t.error.value, t.progress.status))
  {
  }

  /** Lines 65-73: the AddMpServer reply is checked; anything but SUCCESS fails
      with "Failed to add Management Presence Server." */
  lemma MpsServerChecked(id: ClientId, f: CiraProgress, cfg: CiraConfigObject, uuid: string, w: WsmanResponse)
    requires AddTrustedRootCert in f.done && AddMpsServer in f.done && MpsRemoteSap !in f.done
    ensures Build(id, f, cfg, uuid, w)
         == if w.body.Some? && w.body.value.returnValueStr == "SUCCESS"
            then BuildStep(f.Set(MpsRemoteSap), [BatchEnum(id, REMOTE_SAP_CLASS)], Success(None))
            else BuildStep(f.Set(MpsRemoteSap), [], Failure(RPSError(DEVICE + uuid + " " + f.status
                                                                        + " Failed to add Management Presence Server.")))
  {
  }

  /** Lines 74-91: the policy rule names the first MPS endpoint enumerated; a
      missing or empty enumeration fails like a refused AddMpServer */
  lemma PolicyRuleNeedsMps(id: ClientId, f: CiraProgress, cfg: CiraConfigObject, uuid: string, w: WsmanResponse)
    requires AddTrustedRootCert in f.done && AddMpsServer in f.done && MpsRemoteSap in f.done
    requires AddRemoteAccessPolicyRule !in f.done
    ensures var saps := w.remoteSap;
            Build(id, f, cfg, uuid, w)
            == if saps.Some? && saps.value.responses.Some? && |saps.value.responses.value| > 0
               then BuildStep(f.Set(AddRemoteAccessPolicyRule),
                              [Execute(id, REMOTE_ACCESS_SERVICE, ADD_POLICY_RULE,
                                       PolicyRule(2, 0, "AAAAAAAAABk=", saps.value.responses.value[0].name))],
                              Success(None))
               else BuildStep(f.Set(AddRemoteAccessPolicyRule), [], Failure(MpsNotAdded(uuid, f.status)))
  {
  }

  /** Lines 82-87: every policy rule the build adds is periodic (trigger 2),
      keeps its tunnel open (lifetime 0) and carries the 25-second interval */
  lemma PolicyRuleFixed(id: ClientId, f: CiraProgress, cfg: CiraConfigObject, uuid: string, w: WsmanResponse)
    ensures forall c | c in Build(id, f, cfg, uuid, w).calls && c.Execute? && c.methodName == ADD_POLICY_RULE ::
              c.body == PolicyRule(2, 0, "AAAAAAAAABk=", c.body.mpServer)
  {
  }
}
