/**
 * The action dispatcher: a table, built once, from the action kind stored on
 * a session to the executor that handles that session's replies, and the
 * forwarding of one client message to it. Line references are to
 * src/ClientActions.ts.
 */
module Dispatch {
  import opened Wrappers
  import opened Wire
  import opened Transport
  import opened Sessions
  import CiraSpec
  import AcmSpec
  import Cira
  import Acm

  const NO_CLIENT_MESSAGE: string := "Failed to retrieve the client message"
  const NOT_SUPPORTED_ACTION: string := " - Not supported action."
  /** The TypeError raised by reading `action` of the `undefined` record */
  const NO_RECORD: string := "Cannot read property 'action' of undefined"

  /** The client-control-mode activator. CCMActivator.ts is not part of this
      model: only the collaborators it is given are, and `execute` may change
      the record, the WS-Man connection and the repository in any way. */
  class CCMActivator {
    const configurator: Configurator?
    const amtwsman: WSManProcessor
    const clientManager: ClientManager
    const ciraConfigurator: Cira.CIRAConfigurator

    constructor (configurator: Configurator?, amtwsman: WSManProcessor, clientManager: ClientManager,
                 ciraConfigurator: Cira.CIRAConfigurator)
      ensures this.configurator == configurator && this.amtwsman == amtwsman
      ensures this.clientManager == clientManager && this.ciraConfigurator == ciraConfigurator
    {
      this.configurator := configurator;
      this.amtwsman := amtwsman;
      this.clientManager := clientManager;
      this.ciraConfigurator := ciraConfigurator;
    }

    /** `execute`: what it answers is given as `delegated` */
    method Execute(message: ClientMsg, clientId: ClientId, delegated: Option<ClientResponse>)
      returns (r: Option<ClientResponse>)
      modifies RecordFrame(clientManager, clientId), amtwsman, RepositoryFrame(configurator)
      ensures r == delegated
    {
      r := delegated;
    }
  }

  /** The deactivator. Deactivator.ts is not part of this model: only the
      collaborators it is given are, and `execute` may change the record, the
      WS-Man connection and the repository in any way. */
  class Deactivator {
    const amtwsman: WSManProcessor
    const clientManager: ClientManager
    const configurator: Configurator?

    constructor (amtwsman: WSManProcessor, clientManager: ClientManager, configurator: Configurator?)
      ensures this.amtwsman == amtwsman && this.clientManager == clientManager
      ensures this.configurator == configurator
    {
      this.amtwsman := amtwsman;
      this.clientManager := clientManager;
      this.configurator := configurator;
    }

    /** `execute`: what it answers is given as `delegated` */
    method Execute(message: ClientMsg, clientId: ClientId, delegated: Option<ClientResponse>)
      returns (r: Option<ClientResponse>)
      modifies RecordFrame(clientManager, clientId), amtwsman, RepositoryFrame(configurator)
      ensures r == delegated
    {
      r := delegated;
    }
  }

  /** An entry of the action table */
  datatype Executor =
    | CiraExecutor(cira: Cira.CIRAConfigurator)
    | AcmExecutor(acm: Acm.ACMActivator)
    | CcmExecutor(ccm: CCMActivator)
    | DeactivateExecutor(deactivator: Deactivator)

  /** What an executor does to a session, as far as this model knows it:
      the CCM activator and the deactivator are outside it, and what they
      return is given. */
  datatype Handler = RunsCira | RunsAcm | Delegated

  function HandlerOf(e: Executor): Handler
  {
    match e
    case CiraExecutor(_) => RunsCira
    case AcmExecutor(_) => RunsAcm
    case _ => Delegated
  }

  /** The action kinds the table registers (lines 44-48) */
  const ACTION_KINDS: set<string> := {CIRACONFIG, ADMINCTLMODE, CLIENTCTLMODE, DEACTIVATE}

  /** Where BuildResponseMessage sends a session: nowhere when its action is
      falsy (line 60) or unregistered (line 61), else to the registered executor */
  datatype Route = NoAction | Unsupported | Forward(handler: Handler)

  /** Lines 60-61: the route of a session with action `action`, given the
      handler registered for each action kind */
  function RouteOf(action: string, table: map<string, Handler>): (r: Route)
  {
    if action == "" then NoAction
    else if action !in table then Unsupported
    else Forward(table[action])
  }

  /** The record of `clientId` in the store, as a frame */
  function RecordFrame(clientManager: ClientManager, clientId: ClientId): set<object>
    reads clientManager
  {
    if clientId in clientManager.clients then {clientManager.clients[clientId]} else {}
  }

  class ClientActions {
    const configurator: Configurator?
    const amtwsman: WSManProcessor
    const clientManager: ClientManager
    const actions: map<string, Executor>

    /** The table the constructor builds: one executor per action kind, all
        on the same collaborators, the ACM and CCM activators sharing the one
        CIRA configurator of the table */
    predicate Valid()
    {
      && actions.Keys == ACTION_KINDS
      && actions[CIRACONFIG].CiraExecutor? && actions[ADMINCTLMODE].AcmExecutor?
      && actions[CLIENTCTLMODE].CcmExecutor? && actions[DEACTIVATE].DeactivateExecutor?
      && var cira := actions[CIRACONFIG].cira;
         var acm := actions[ADMINCTLMODE].acm;
         && cira.configurator == configurator && cira.amtwsman == amtwsman && cira.clientManager == clientManager
         && acm.ciraConfigurator == cira && acm.Wired()
         && actions[CLIENTCTLMODE].ccm.ciraConfigurator == cira
         && actions[CLIENTCTLMODE].ccm.configurator == configurator
         && actions[CLIENTCTLMODE].ccm.amtwsman == amtwsman
         && actions[CLIENTCTLMODE].ccm.clientManager == clientManager
         && actions[DEACTIVATE].deactivator.configurator == configurator
         && actions[DEACTIVATE].deactivator.amtwsman == amtwsman
         && actions[DEACTIVATE].deactivator.clientManager == clientManager
    }

    /** Lines 30-49: build the table; `services` stands for what the ACM
        activator is constructed with besides the shared collaborators */
    constructor (configurator: Configurator?, amtwsman: WSManProcessor, clientManager: ClientManager,
                 services: AcmSpec.AcmServices)
      ensures this.configurator == configurator && this.amtwsman == amtwsman
      ensures this.clientManager == clientManager
      ensures Valid() && actions[ADMINCTLMODE].acm.services == services
      ensures fresh(actions[CIRACONFIG].cira) && fresh(actions[ADMINCTLMODE].acm)
    {
      this.configurator := configurator;
      this.amtwsman := amtwsman;
      this.clientManager := clientManager;
      var table := map[];
      var ciraConfig := new Cira.CIRAConfigurator(configurator, amtwsman, clientManager);
      table := table[CIRACONFIG := CiraExecutor(ciraConfig)];
      var acm := new Acm.ACMActivator(configurator, amtwsman, clientManager, ciraConfig, services);
      table := table[ADMINCTLMODE := AcmExecutor(acm)];
      var ccm := new CCMActivator(configurator, amtwsman, clientManager, ciraConfig);
      table := table[CLIENTCTLMODE := CcmExecutor(ccm)];
      var deactivator := new Deactivator(amtwsman, clientManager, configurator);
      table := table[DEACTIVATE := DeactivateExecutor(deactivator)];
      actions := table;
      new;
    }

    /** The handler registered for each action kind */
    function Handlers(): (r: map<string, Handler>)
      ensures r.Keys == actions.Keys
    {
      map a | a in actions :: HandlerOf(actions[a])
    }

    /** The CIRA configurator of the table */
    function Cira(): Cira.CIRAConfigurator
      requires Valid()
    {
      actions[CIRACONFIG].cira
    }

    /** What the ACM activator of the table consults */
    function AcmServices(): AcmSpec.AcmServices
      requires Valid()
    {
      actions[ADMINCTLMODE].acm.services
    }

    /**
     * Lines 58-70: forward the message to the executor registered for the
     * session's action and return what it returns. A missing record, a
     * falsy action and an unregistered action throw and change nothing; the
     * CCM activator and the deactivator return `delegated`.
     */
    method BuildResponseMessage(message: ClientMsg, clientId: ClientId, nonce: seq<byte>,
                                delegated: Option<ClientResponse>)
      returns (r: Result<Option<ClientResponse>, Error>)
      requires Valid()
      modifies RecordFrame(clientManager, clientId), amtwsman, RepositoryFrame(configurator)
      ensures clientId !in clientManager.clients ==>
                r == Failure(OtherError(NO_RECORD)) && unchanged(amtwsman) && unchanged(RepositoryFrame(configurator))
      ensures clientId in clientManager.clients ==>
                var obj := clientManager.clients[clientId];
                match RouteOf(old(obj.action), Handlers())
                case NoAction =>
                  r == Failure(RPSError(NO_CLIENT_MESSAGE)) && unchanged(obj) && unchanged(amtwsman)
                  && unchanged(RepositoryFrame(configurator))
                case Unsupported =>
                  r == Failure(RPSError(DEVICE + obj.uuid + NOT_SUPPORTED_ACTION)) && unchanged(obj)
                  && unchanged(amtwsman) && unchanged(RepositoryFrame(configurator))
                case Forward(Delegated) =>
                  r == Success(delegated)
                case Forward(RunsCira) =>
                  var c := CiraSpec.CiraStep(clientId, old(obj.View()), ReplyView(message.payload),
                                             old(Cira().StoredPassword(obj.payload.uuid)));
                  (obj.View(), amtwsman.log, amtwsman.cache, r)
                  == (c.session, old(amtwsman.log) + c.calls,
                      SwapCredentials(old(amtwsman.cache), clientId, c.adminChannel), Success(c.response))
                  && unchanged(RepositoryFrame(configurator))
                case Forward(RunsAcm) =>
                  var a := AcmSpec.AcmStep(clientId, old(obj.View()), ReplyView(message.payload), AcmServices(),
                                           nonce, RepositoryOf(configurator) != null,
                                           old(Cira().StoredPassword(obj.payload.uuid)));
                  (obj.View(), amtwsman.log, amtwsman.cache, StoredDevices(configurator), r)
                  == (a.session, old(amtwsman.log) + a.calls,
                      SwapCredentials(old(amtwsman.cache), clientId, a.adminChannel),
                      WithDevice(old(StoredDevices(configurator)), a.inserted), Success(a.response))
    {
      if clientId !in clientManager.clients {
        return Failure(OtherError(NO_RECORD));
      }
      var clientObj := clientManager.clients[clientId];
      if clientObj.action == "" {
        return Failure(RPSError(NO_CLIENT_MESSAGE));
      }
      if clientObj.action !in actions {
        return Failure(RPSError(DEVICE + clientObj.uuid + NOT_SUPPORTED_ACTION));
      }
      match actions[clientObj.action]
      case CiraExecutor(cira) =>
        var resp := cira.Execute(message, clientId);
        r := Success(resp);
      case AcmExecutor(acm) =>
        var resp := acm.Execute(message, clientId, nonce);
        r := Success(resp);
      case CcmExecutor(ccm) =>
        var resp := ccm.Execute(message, clientId, delegated);
        r := Success(resp);
      case DeactivateExecutor(deactivator) =>
        var resp := deactivator.Execute(message, clientId, delegated);
        r := Success(resp);
    }
  }
}
