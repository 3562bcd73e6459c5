/**
 Enrolling an agent with a one-time token, end to end: the controller's handler works in
 three stages, any of which may be its last, any answer may be lost, and the agent retries
 with the request it saved.
 */
module EnrollmentProtocol {
  import opened Wrappers
  import opened Crypto
  import E = Enrollment
  import C = Configuration
  import P = Pairing

  /** The controller's certificate authority and client certificate. */
  datatype Controller = Controller(ca: Certificate, client: Certificate)

  ghost predicate IsController(c: Controller) {
    c.ca.isCa && c.client.forClients && Verifies(c.client, c.ca)
  }

  /** How far a request has come. */
  datatype Stage = Claimed | Persisted | Completed

  datatype Handler = Handler(id: string, agentId: string, csr: Csr, stage: Stage)

  datatype System = System(
    now: int, records: E.Records, clients: seq<C.Client>, agent: P.Agent, handlers: map<nat, Handler>)

  datatype Move =
    /** A request arrives and its token is claimed. */
    | Begin(handler: nat, id: string, agentId: string, csr: Csr)
    /** A handler does its next stage: storing the pairing, or completing the enrollment. */
    | Advance(handler: nat)
    /** The answer of a completed handler reaches the agent, which goes on with the state it had loaded. */
    | Deliver(handler: nat, loaded: P.Agent)
    /** A handler dies, or its answer is lost. */
    | Drop(handler: nat)
    | Tick(now: int)
    | Configure(op: C.Op)
    | Manage(change: E.Op)
    | AgentActs(action: P.Action)

  predicate CanSign(csr: Csr, agentId: string) { csr.identities == [IdentityOf(agentId)] }

  function Sign(c: Controller, csr: Csr): Certificate {
    Certificate(csr.key, csr.identities, c.ca.key, false, false, true)
  }

  function ReplyOf(c: Controller, h: Handler): P.EnrollmentReply {
    P.EnrollmentReply("paired", 1, h.agentId, Some(c.ca), Some(c.client), Some(Sign(c, h.csr)))
  }

  // ---------- Moves ----------

  /** The request fails after its claim, and the enrollment with it. */
  function FailedRecords(s: System, id: string): E.Records
    requires id in s.records
  {
    s.records[id := E.Finished(s.records[id], E.Failed, None, Some("failed"), s.now)]
  }

  function AfterBegin(s: System, handler: nat, id: string, agentId: string, csr: Csr): System
    requires id in s.records
  {
    var (record, answer) := E.ClaimRecord(s.records[id], s.now, agentId, Some(csr));
    var claimed := s.(records := s.records[id := record]);
    if answer.Err? then claimed
    else if !CanSign(csr, agentId) then claimed.(records := FailedRecords(claimed, id))
    else claimed.(handlers := s.handlers[handler := Handler(id, agentId, csr, Claimed)])
  }

  /** Storing the pairing: the clients afterwards, or an error. */
  ghost predicate PersistStep(s: System, h: Handler, r: Result<seq<C.Client>>)
    requires h.id in s.records
  {
    var record := s.records[h.id];
    if exists i | 0 <= i < |s.clients| :: CanPersist(s, h, i)
    then exists i | 0 <= i < |s.clients| :: CanPersist(s, h, i)
           && r == Ok(C.WithShutdown(s.clients, i, C.PairedWith(s.clients[i].shutdown, h.agentId, record.agentPort)))
    else r.Err?
  }

  ghost predicate CanPersist(s: System, h: Handler, i: nat)
    requires h.id in s.records
  {
    && i < |s.clients| && C.MayEnroll(s.clients[i].shutdown, h.agentId)
    && C.CanStore(s.clients, i, s.records[h.id].clientName,
                  C.PairedWith(s.clients[i].shutdown, h.agentId, s.records[h.id].agentPort))
  }

  function AfterPersist(s: System, handler: nat, r: Result<seq<C.Client>>): System
    requires handler in s.handlers && s.handlers[handler].id in s.records
  {
    match r
    case Ok(clients) =>
      s.(clients := clients, handlers := s.handlers[handler := s.handlers[handler].(stage := Persisted)])
    case Err(_) => s.(records := FailedRecords(s, s.handlers[handler].id), handlers := s.handlers - {handler})
  }

  ghost predicate AdvanceStep(s: System, handler: nat, t: System)
    requires handler in s.handlers && s.handlers[handler].id in s.records
  {
    var h := s.handlers[handler];
    match h.stage
    case Claimed => exists r: Result<seq<C.Client>> :: PersistStep(s, h, r) && t == AfterPersist(s, handler, r)
    case Persisted =>
      t == s.(records := s.records[h.id := E.Finished(s.records[h.id], E.Paired, Some(h.agentId), None, s.now)],
              handlers := s.handlers[handler := h.(stage := Completed)])
    case Completed => false
  }

  ghost predicate IsMove(c: Controller, s: System, m: Move, t: System) {
    match m
    case Begin(handler, id, agentId, csr) =>
      handler !in s.handlers && id in s.records && t == AfterBegin(s, handler, id, agentId, csr)
    case Advance(handler) => handler in s.handlers && s.handlers[handler].id in s.records && AdvanceStep(s, handler, t)
    case Deliver(handler, loaded) =>
      && handler in s.handlers && s.handlers[handler].stage == Completed
      && s.handlers[handler].agentId == s.agent.agentId
      && loaded.agentId == s.agent.agentId && loaded.serverCert.None? && P.PendingSoundly(loaded)
      && t == s.(agent := P.Act(s.agent, P.Finish(loaded, ReplyOf(c, s.handlers[handler]))))
    case Drop(handler) => t == s.(handlers := s.handlers - {handler})
    case Tick(now) => now >= s.now && t == s.(now := now)
    case Configure(op) => !op.Enroll? && C.Step(s.clients, op, t.clients) && t == s.(clients := t.clients)
    case Manage(change) =>
      && !change.DoClaim? && change.now == s.now
      && E.Step(E.State(s.records, []), change, E.State(t.records, [])) && t == s.(records := t.records)
    case AgentActs(action) => !action.Finish? && t == s.(agent := P.Act(s.agent, action))
  }

  /** An enrollment: the token's record, the client it is for, and the agent with the request it saved. */
  datatype Goal = Goal(id: string, name: string, agentId: string, csr: Csr)

  /** What the enrollment must be spared: a rival, running out of time, or its client, record or request being reset. */
  predicate Disturbs(s: System, m: Move, g: Goal)
    requires g.id in s.records
  {
    match m
    case Begin(_, id, agentId, csr) =>
      || (id == g.id && s.records[id].status == E.Pending && (agentId != g.agentId || csr != g.csr))
      || (id != g.id && id in s.records && s.records[id].clientName == g.name && agentId != g.agentId)
    case Tick(now) => now > s.records[g.id].expiresAt
    case Configure(op) =>
      match op {
        case Save(submitted, _) => g.name !in C.NamesOf(submitted)
        case Pair(name, agentId, _) => name == g.name && agentId != g.agentId
        case Unpair(name) => name == g.name
        case _ => false
      }
    case Manage(change) =>
      match change {
        case DoCreate(clientName, _, _, _, _, _) => clientName == g.name && s.records[g.id].status == E.Pending
        case DoFinish(id, _, _, _, _) => id == g.id
        case _ => false
      }
    case Deliver(_, loaded) => loaded.pendingCsr != Some(g.csr)
    case AgentActs(action) =>
      match action {
        case Issue(_, _) => s.agent.serverCert.None?
        case Guess(_, _, _, _, _) => P.AnswerTo(s.agent, action).Started?
        case Reset => true
        case _ => false
      }
    case _ => false
  }

  // ---------- The invariant ----------

  /** The token is in time, and free or bound to this agent and request. */
  predicate TokenReady(s: System, g: Goal) {
    && g.id in s.records && s.now <= s.records[g.id].expiresAt
    && s.records[g.id].clientName == g.name && 1 <= s.records[g.id].agentPort <= 65535
    && (|| s.records[g.id].status == E.Pending
        || ((s.records[g.id].status == E.Processing || s.records[g.id].status == E.Paired)
            && E.SameAgent(s.records[g.id], g.agentId, Some(g.csr))))
  }

  /** The client exists and belongs to no other agent. */
  ghost predicate ClientReady(s: System, g: Goal) {
    && C.IsValid(s.clients) && g.name in C.NamesOf(s.clients)
    && C.AgentOf(s.clients, g.name) in {None, Some(g.agentId)} && !C.IsBlank(g.agentId)
  }

  /** The agent waits with its saved request, or serves with the key of that request. */
  predicate AgentReady(s: System, g: Goal) {
    && s.agent.agentId == g.agentId && CanSign(g.csr, g.agentId) && P.PairedSoundly(s.agent)
    && if s.agent.serverCert.Some? then s.agent.serverKey == Some(g.csr.key)
       else s.agent.pendingCsr == Some(g.csr) && s.agent.pendingKey == Some(g.csr.key)
  }

  /** A request in flight belongs to the agent if it is for this token or this client, and has left its marks. */
  ghost predicate HandlerFits(s: System, g: Goal, h: Handler)
    requires g.id in s.records
  {
    && h.id in s.records
    && (s.records[h.id].clientName == g.name ==> h.agentId == g.agentId)
    && (h.id == g.id ==>
          && h.csr == g.csr && s.records[g.id].status != E.Pending
          && (h.stage != Claimed ==> C.AgentOf(s.clients, g.name) == Some(g.agentId))
          && (h.stage == Completed ==>
                s.records[g.id].status == E.Paired && s.records[g.id].agentId == Some(g.agentId)))
  }

  ghost predicate Ready(s: System, g: Goal) {
    && TokenReady(s, g) && ClientReady(s, g) && AgentReady(s, g)
    && forall k | k in s.handlers :: HandlerFits(s, g, s.handlers[k])
  }

  // ---------- Every undisturbed move keeps it ----------

  /** A change of records that leaves this one alone and no other's client changed. */
  ghost predicate RecordsKept(s: System, records: E.Records, g: Goal) {
    && g.id in s.records && s.records.Keys <= records.Keys && records[g.id] == s.records[g.id]
    && forall id | id in s.records :: records[id].clientName == s.records[id].clientName
  }

  lemma RecordsKeepReady(s: System, records: E.Records, g: Goal)
    requires Ready(s, g) && RecordsKept(s, records, g)
    ensures Ready(s.(records := records), g)
  {
    var t := s.(records := records);
    forall k | k in t.handlers
      ensures HandlerFits(t, g, t.handlers[k])
    {
      assert HandlerFits(s, g, s.handlers[k]);
    }
  }

  /** A claim of the token itself: by this agent it is granted, by anyone else refused. */
  lemma OwnClaim(s: System, handler: nat, agentId: string, csr: Csr, g: Goal)
    requires Ready(s, g) && handler !in s.handlers
    requires s.records[g.id].status == E.Pending ==> agentId == g.agentId && csr == g.csr
    ensures var t := AfterBegin(s, handler, g.id, agentId, csr);
            && Ready(t, g)
            && (if agentId == g.agentId && csr == g.csr
                then t.handlers == s.handlers[handler := Handler(g.id, agentId, csr, Claimed)] else t == s)
  {
    var t := AfterBegin(s, handler, g.id, agentId, csr);
    assert g.agentId != "" by {
      assert !C.IsBlank(g.agentId);
    }
    if agentId != g.agentId || csr != g.csr {
      assert s.records[g.id := s.records[g.id]] == s.records;
    } else {
      forall k | k in t.handlers
        ensures HandlerFits(t, g, t.handlers[k])
      {
        if k != handler {
          assert HandlerFits(s, g, s.handlers[k]);
        }
      }
    }
  }

  lemma OtherClaim(s: System, handler: nat, id: string, agentId: string, csr: Csr, g: Goal)
    requires Ready(s, g) && handler !in s.handlers && id in s.records && id != g.id
    requires s.records[id].clientName == g.name ==> agentId == g.agentId
    ensures Ready(AfterBegin(s, handler, id, agentId, csr), g)
  {
    var t := AfterBegin(s, handler, id, agentId, csr);
    RecordsKeepReady(s, t.records, g);
    forall k | k in t.handlers
      ensures HandlerFits(t, g, t.handlers[k])
    {
      if k in s.handlers {
        assert HandlerFits(s.(records := t.records), g, s.handlers[k]);
      }
    }
  }

  /** Storing this agent's pairing succeeds. */
  lemma OwnPersist(s: System, h: Handler, g: Goal, r: Result<seq<C.Client>>)
    requires Ready(s, g) && h.id == g.id && h.agentId == g.agentId && PersistStep(s, h, r)
    ensures r.Ok? && C.IsValid(r.value) && g.name in C.NamesOf(r.value) && C.AgentOf(r.value, g.name) == Some(g.agentId)
  {
    C.EnrollmentStoredIff(s.clients, g.name, g.agentId, s.records[g.id].agentPort);
    var j :| 0 <= j < |s.clients| && C.MayEnroll(s.clients[j].shutdown, g.agentId)
      && C.CanStore(s.clients, j, g.name, C.PairedWith(s.clients[j].shutdown, g.agentId, s.records[g.id].agentPort));
    assert CanPersist(s, h, j);
    var i :| 0 <= i < |s.clients| && CanPersist(s, h, i)
      && r == Ok(C.WithShutdown(s.clients, i,
          C.PairedWith(s.clients[i].shutdown, h.agentId, s.records[h.id].agentPort)));
    PersistedClients(s, h, i, g);
    assert r.value[i].name == g.name;
  }

  /** What a stored pairing means for the client of the goal. */
  lemma PersistedClients(s: System, h: Handler, i: nat, g: Goal)
    requires C.IsValid(s.clients) && h.id in s.records && CanPersist(s, h, i)
    ensures var after := C.WithShutdown(s.clients, i,
        C.PairedWith(s.clients[i].shutdown, h.agentId, s.records[h.id].agentPort));
            && C.IsValid(after) && C.NamesOf(after) == C.NamesOf(s.clients)
            && (s.records[h.id].clientName != g.name ==> C.AgentOf(after, g.name) == C.AgentOf(s.clients, g.name))
            && (s.records[h.id].clientName == g.name ==> C.AgentOf(after, g.name) == Some(h.agentId))
  {
    var paired := C.PairedWith(s.clients[i].shutdown, h.agentId, s.records[h.id].agentPort);
    var after := C.WithShutdown(s.clients, i, paired);
    C.WithShutdownFinds(s.clients, i, paired, g.name);
    assert C.IsValidClient(after[i]) && after[i].shutdown.agentId == Some(h.agentId);
    assert forall j | 0 <= j < |after| :: after[j].name == s.clients[j].name;
  }

  lemma PersistKeeps(s: System, handler: nat, r: Result<seq<C.Client>>, g: Goal)
    requires Ready(s, g) && handler in s.handlers && s.handlers[handler].id in s.records
    requires s.handlers[handler].stage == Claimed && PersistStep(s, s.handlers[handler], r)
    ensures Ready(AfterPersist(s, handler, r), g)
    ensures s.handlers[handler].id == g.id ==> r.Ok?
  {
    var h := s.handlers[handler];
    var t := AfterPersist(s, handler, r);
    assert HandlerFits(s, g, h);
    if h.id == g.id {
      OwnPersist(s, h, g, r);
    } else if r.Ok? {
      var i :| 0 <= i < |s.clients| && CanPersist(s, h, i)
        && r == Ok(C.WithShutdown(s.clients, i,
            C.PairedWith(s.clients[i].shutdown, h.agentId, s.records[h.id].agentPort)));
      PersistedClients(s, h, i, g);
    } else {
      RecordsKeepReady(s, FailedRecords(s, h.id), g);
    }
    forall k | k in t.handlers
      ensures HandlerFits(t, g, t.handlers[k])
    {
      assert HandlerFits(s, g, s.handlers[k]);
    }
  }

  lemma CompleteKeeps(s: System, handler: nat, t: System, g: Goal)
    requires Ready(s, g) && handler in s.handlers && s.handlers[handler].id in s.records
    requires s.handlers[handler].stage == Persisted && AdvanceStep(s, handler, t)
    ensures Ready(t, g)
  {
    assert HandlerFits(s, g, s.handlers[handler]);
    forall k | k in t.handlers
      ensures HandlerFits(t, g, t.handlers[k])
    {
      assert HandlerFits(s, g, s.handlers[k]);
    }
  }

  /** The answer to the agent's own request is one it accepts. */
  lemma DeliverKeeps(c: Controller, s: System, loaded: P.Agent, h: Handler, g: Goal)
    requires IsController(c) && Ready(s, g) && h.agentId == s.agent.agentId
    requires loaded.agentId == s.agent.agentId && loaded.serverCert.None? && P.PendingSoundly(loaded)
    requires loaded.pendingCsr == Some(g.csr)
    ensures var agent := P.Act(s.agent, P.Finish(loaded, ReplyOf(c, h)));
            && Ready(s.(agent := agent), g)
            && (h.id == g.id && h.csr == g.csr ==> agent.serverCert.Some?)
  {
    var t := s.(agent := P.Act(s.agent, P.Finish(loaded, ReplyOf(c, h))));
    assert P.IsController(Some(c.ca), Some(c.client));
    if h.csr == g.csr {
      assert g.csr.identities[0] == IdentityOf(g.agentId);
    }
    forall k | k in t.handlers
      ensures HandlerFits(t, g, t.handlers[k])
    {
      assert HandlerFits(s, g, s.handlers[k]);
    }
  }

  /** A change of the configuration that keeps the client and its agent. */
  lemma ClientsKeepReady(s: System, clients: seq<C.Client>, g: Goal)
    requires Ready(s, g) && C.IsValid(clients) && g.name in C.NamesOf(clients)
    requires C.AgentOf(clients, g.name) in {C.AgentOf(s.clients, g.name), Some(g.agentId)}
    ensures Ready(s.(clients := clients), g)
  {
    var t := s.(clients := clients);
    forall k | k in t.handlers
      ensures HandlerFits(t, g, t.handlers[k])
    {
      assert HandlerFits(s, g, s.handlers[k]);
    }
  }

  lemma ConfigureKeeps(s: System, op: C.Op, clients: seq<C.Client>, g: Goal)
    requires Ready(s, g) && !op.Enroll? && !Disturbs(s, Configure(op), g) && C.Step(s.clients, op, clients)
    ensures Ready(s.(clients := clients), g)
  {
    if clients == s.clients {
      ClientsKeepReady(s, clients, g);
    } else if op.Save? {
      C.SaveKeepsPairings(s.clients, op.submitted, op.secure, g.name);
      ClientsKeepReady(s, clients, g);
    } else {
      var i, shutdown := C.StepStores(s.clients, op, clients);
      C.WithShutdownFinds(s.clients, i, shutdown, g.name);
      C.LookUpAt(s.clients, i);
      assert forall j | 0 <= j < |clients| :: clients[j].name == s.clients[j].name;
      ClientsKeepReady(s, clients, g);
    }
  }

  lemma ManageKeeps(s: System, change: E.Op, records: E.Records, g: Goal)
    requires Ready(s, g) && !change.DoClaim? && change.now == s.now && !Disturbs(s, Manage(change), g)
    requires E.Step(E.State(s.records, []), change, E.State(records, []))
    ensures Ready(s.(records := records), g)
  {
    RecordsKeepReady(s, records, g);
  }

  /** Wrong guesses, preparing again and even completing another exchange leave the agent ready. */
  lemma AgentKeeps(s: System, action: P.Action, g: Goal)
    requires Ready(s, g) && !action.Finish? && !Disturbs(s, AgentActs(action), g)
    ensures Ready(s.(agent := P.Act(s.agent, action)), g)
  {
    var t := s.(agent := P.Act(s.agent, action));
    assert AgentReady(t, g);
    forall k | k in t.handlers
      ensures HandlerFits(t, g, t.handlers[k])
    {
      assert HandlerFits(s, g, s.handlers[k]);
    }
  }

  lemma MoveKeeps(c: Controller, s: System, m: Move, t: System, g: Goal)
    requires IsController(c) && Ready(s, g) && IsMove(c, s, m, t) && !Disturbs(s, m, g)
    ensures Ready(t, g)
  {
    match m
    case Begin(handler, id, agentId, csr) =>
      if id == g.id {
        OwnClaim(s, handler, agentId, csr, g);
      } else {
        OtherClaim(s, handler, id, agentId, csr, g);
      }
    case Advance(handler) =>
      if s.handlers[handler].stage == Claimed {
        var r: Result<seq<C.Client>> :| PersistStep(s, s.handlers[handler], r) && t == AfterPersist(s, handler, r);
        PersistKeeps(s, handler, r, g);
      } else {
        CompleteKeeps(s, handler, t, g);
      }
    case Deliver(handler, loaded) => DeliverKeeps(c, s, loaded, s.handlers[handler], g);
    case Drop(handler) =>
      assert forall k | k in t.handlers :: HandlerFits(s, g, s.handlers[k]);
    case Tick(now) =>
      assert forall k | k in t.handlers :: HandlerFits(s, g, s.handlers[k]);
    case Configure(op) => ConfigureKeeps(s, op, t.clients, g);
    case Manage(change) => ManageKeeps(s, change, t.records, g);
    case AgentActs(action) => AgentKeeps(s, action, g);
  }

  // ---------- Runs ----------

  /** The agent is not paired, and saved its request for a certificate. */
  predicate AgentWaits(a: P.Agent, g: Goal) {
    && a.agentId == g.agentId && !C.IsBlank(a.agentId) && a.serverCert.None?
    && a.pendingKey == Some(g.csr.key) && a.pendingCsr == Some(g.csr) && g.csr == P.NewCsr(a, g.csr.key)
  }

  /** An enrollment is created for an unpaired client of a valid configuration and an agent that waits. */
  ghost predicate IsNewEnrollment(s: System, create: E.Op, t: System, g: Goal) {
    && create.DoCreate? && create.id == g.id && create.clientName == g.name && create.now == s.now
    && 1 <= create.agentPort <= 65535 && create.lifetime >= 0
    && E.Step(E.State(s.records, []), create, E.State(t.records, [])) && t == s.(records := t.records)
    && g.id in t.records
    && C.IsValid(s.clients) && g.name in C.NamesOf(s.clients) && C.AgentOf(s.clients, g.name) == None
    && AgentWaits(s.agent, g)
    && forall k | k in s.handlers :: s.handlers[k].id in s.records && s.records[s.handlers[k].id].clientName != g.name
  }

  /** Such an enrollment can succeed. */
  lemma NewIsReady(s: System, create: E.Op, t: System, g: Goal)
    requires IsNewEnrollment(s, create, t, g)
    ensures Ready(t, g)
  {}

  /** An agent in order that is not paired waits once it has prepared to enroll. */
  lemma PreparedWaits(a: P.Agent, key: Key, g: Goal)
    requires P.PendingSoundly(a) && a.serverCert.None? && a.agentId == g.agentId && !C.IsBlank(a.agentId)
    requires P.Act(a, P.Prepare(key)).pendingCsr == Some(g.csr)
    ensures AgentWaits(P.Act(a, P.Prepare(key)), g)
  {}

  /** A run that begins with creating the enrollment, and in which nothing disturbs it after that. */
  ghost predicate IsCalmRun(c: Controller, states: seq<System>, moves: seq<Move>, g: Goal) {
    && IsController(c) && |states| == |moves| + 1 && |moves| > 0
    && moves[0].Manage? && IsNewEnrollment(states[0], moves[0].change, states[1], g)
    && forall i | 0 < i < |moves| :: CalmMove(c, states[i], moves[i], states[i + 1], g)
  }

  ghost predicate CalmMove(c: Controller, s: System, m: Move, t: System, g: Goal) {
    IsMove(c, s, m, t) && (g.id in s.records ==> !Disturbs(s, m, g))
  }

  /** However many requests and answers are lost, and wherever handlers stop, the enrollment can still succeed. */
  lemma {:induction false} AlwaysReady(c: Controller, states: seq<System>, moves: seq<Move>, g: Goal, k: nat)
    requires IsCalmRun(c, states, moves, g) && 0 < k <= |moves|
    ensures Ready(states[k], g)
  {
    if k == 1 {
      NewIsReady(states[0], moves[0].change, states[1], g);
    } else {
      AlwaysReady(c, states, moves, g, k - 1);
      assert CalmMove(c, states[k - 1], moves[k - 1], states[k], g);
      MoveKeeps(c, states[k - 1], moves[k - 1], states[k], g);
    }
  }

  /** Every retry with the saved request is accepted. */
  lemma RetryIsAccepted(c: Controller, states: seq<System>, moves: seq<Move>, g: Goal, k: nat, handler: nat)
    requires IsCalmRun(c, states, moves, g) && k < |moves| && moves[k] == Begin(handler, g.id, g.agentId, g.csr)
    ensures handler in states[k + 1].handlers
    ensures states[k + 1].handlers[handler] == Handler(g.id, g.agentId, g.csr, Claimed)
  {
    AlwaysReady(c, states, moves, g, k);
    assert CalmMove(c, states[k], moves[k], states[k + 1], g);
    OwnClaim(states[k], handler, g.agentId, g.csr, g);
  }

  /** The move is one of this handler's own, or removes it. */
  predicate Concerns(m: Move, handler: nat) {
    match m
    case Begin(k, _, _, _) => k == handler
    case Advance(k) => k == handler
    case Drop(k) => k == handler
    case _ => false
  }

  /** A handler stands still while only others move. */
  lemma {:induction false} HandlerWaits(c: Controller, states: seq<System>, moves: seq<Move>, g: Goal, handler: nat,
      i: nat, k: nat)
    requires IsCalmRun(c, states, moves, g) && 0 < i <= k <= |moves| && handler in states[i].handlers
    requires forall m | i <= m < k :: !Concerns(moves[m], handler)
    ensures handler in states[k].handlers && states[k].handlers[handler] == states[i].handlers[handler]
    decreases k
  {
    if i < k {
      HandlerWaits(c, states, moves, g, handler, i, k - 1);
      assert CalmMove(c, states[k - 1], moves[k - 1], states[k], g);
    }
  }

  /** A handler of this enrollment reaches its next stage whenever it moves. */
  lemma HandlerAdvances(c: Controller, states: seq<System>, moves: seq<Move>, g: Goal, handler: nat, k: nat,
      stage: Stage)
    requires IsCalmRun(c, states, moves, g) && k < |moves| && moves[k] == Advance(handler)
    requires handler in states[k].handlers && states[k].handlers[handler] == Handler(g.id, g.agentId, g.csr, stage)
    ensures stage != Completed && handler in states[k + 1].handlers
    ensures states[k + 1].handlers[handler] == Handler(g.id, g.agentId, g.csr,
        if stage == Claimed then Persisted else Completed)
  {
    var s, t := states[k], states[k + 1];
    AlwaysReady(c, states, moves, g, k);
    assert CalmMove(c, s, moves[k], t, g);
    if stage == Claimed {
      var r: Result<seq<C.Client>> :| PersistStep(s, s.handlers[handler], r) && t == AfterPersist(s, handler, r);
      OwnPersist(s, s.handlers[handler], g, r);
    }
  }

  /** Nothing else happens to one handler between two of its moves. */
  ghost predicate Between(moves: seq<Move>, handler: nat, i: nat, k: nat)
    requires k <= |moves|
  {
    i < k && forall m | i < m < k :: !Concerns(moves[m], handler)
  }

  /**
   One exchange that runs to its end completes the enrollment, whatever was lost before and
   whatever else goes on: the record is paired, the configuration names exactly this agent,
   and the agent holds a certificate for the private key it kept.
   */
  lemma OneExchangeSuffices(c: Controller, states: seq<System>, moves: seq<Move>, g: Goal, handler: nat,
                            claim: nat, store: nat, complete: nat, deliver: nat)
    requires IsCalmRun(c, states, moves, g) && claim < store < complete < deliver < |moves|
    requires Between(moves, handler, claim, store) && Between(moves, handler, store, complete)
             && Between(moves, handler, complete, deliver)
    requires moves[claim] == Begin(handler, g.id, g.agentId, g.csr)
    requires moves[store] == moves[complete] == Advance(handler) && moves[deliver].Deliver?
    requires moves[deliver].handler == handler
    ensures var end := states[deliver + 1];
            && g.id in end.records && end.records[g.id].status == E.Paired
            && end.records[g.id].agentId == Some(g.agentId)
            && C.AgentOf(end.clients, g.name) == Some(g.agentId)
            && P.PairedSoundly(end.agent) && end.agent.serverCert.Some? && end.agent.serverKey == Some(g.csr.key)
  {
    RetryIsAccepted(c, states, moves, g, claim, handler);
    HandlerWaits(c, states, moves, g, handler, claim + 1, store);
    HandlerAdvances(c, states, moves, g, handler, store, Claimed);
    HandlerWaits(c, states, moves, g, handler, store + 1, complete);
    HandlerAdvances(c, states, moves, g, handler, complete, Persisted);
    HandlerWaits(c, states, moves, g, handler, complete + 1, deliver);
    var s, h := states[deliver], Handler(g.id, g.agentId, g.csr, Completed);
    assert s.handlers[handler] == h;
    AlwaysReady(c, states, moves, g, deliver);
    AlwaysReady(c, states, moves, g, deliver + 1);
    assert HandlerFits(s, g, h);
    assert CalmMove(c, s, moves[deliver], states[deliver + 1], g);
    DeliverKeeps(c, s, moves[deliver].loaded, h, g);
  }

  /** Once stored, the pairing with this agent stays for the rest of the run. */
  lemma {:induction false} PairingStays(c: Controller, states: seq<System>, moves: seq<Move>, g: Goal, i: nat, k: nat)
    requires IsCalmRun(c, states, moves, g) && 0 < i <= k <= |moves|
    requires C.AgentOf(states[i].clients, g.name) == Some(g.agentId)
    ensures C.AgentOf(states[k].clients, g.name) == Some(g.agentId)
    decreases k
  {
    if i < k {
      PairingStays(c, states, moves, g, i, k - 1);
      AlwaysReady(c, states, moves, g, k - 1);
      var s, m, t := states[k - 1], moves[k - 1], states[k];
      assert CalmMove(c, s, m, t, g);
      match m
      case Advance(handler) =>
        if s.handlers[handler].stage == Claimed {
          StoredForGoal(s, handler, t, g);
        }
      case Configure(op) => ConfiguredForGoal(s, op, t.clients, g);
      case _ =>
    }
  }

  lemma StoredForGoal(s: System, handler: nat, t: System, g: Goal)
    requires Ready(s, g) && handler in s.handlers && s.handlers[handler].id in s.records
    requires s.handlers[handler].stage == Claimed && AdvanceStep(s, handler, t)
    requires C.AgentOf(s.clients, g.name) == Some(g.agentId)
    ensures C.AgentOf(t.clients, g.name) == Some(g.agentId)
  {
    var h := s.handlers[handler];
    assert HandlerFits(s, g, h);
    var r: Result<seq<C.Client>> :| PersistStep(s, h, r) && t == AfterPersist(s, handler, r);
    if r.Ok? {
      var i :| 0 <= i < |s.clients| && CanPersist(s, h, i)
        && r == Ok(C.WithShutdown(s.clients, i,
            C.PairedWith(s.clients[i].shutdown, h.agentId, s.records[h.id].agentPort)));
      PersistedClients(s, h, i, g);
    }
  }

  lemma ConfiguredForGoal(s: System, op: C.Op, clients: seq<C.Client>, g: Goal)
    requires Ready(s, g) && !op.Enroll? && !Disturbs(s, Configure(op), g) && C.Step(s.clients, op, clients)
    ensures C.AgentOf(clients, g.name) in {C.AgentOf(s.clients, g.name), Some(g.agentId)}
  {
    if clients != s.clients && op.Save? {
      C.SaveKeepsPairings(s.clients, op.submitted, op.secure, g.name);
    } else if clients != s.clients {
      var i, shutdown := C.StepStores(s.clients, op, clients);
      C.WithShutdownFinds(s.clients, i, shutdown, g.name);
      C.LookUpAt(s.clients, i);
    }
  }

  /** No stage of any enrollment, anywhere, takes a client from an agent it is paired with. */
  lemma HandlersNeverReplace(c: Controller, s: System, m: Move, t: System, name: string)
    requires C.IsValid(s.clients) && IsMove(c, s, m, t) && (m.Begin? || m.Advance? || m.Deliver? || m.Drop?)
    requires C.AgentOf(s.clients, name).Some?
    ensures C.AgentOf(t.clients, name) == C.AgentOf(s.clients, name)
  {
    if m.Advance? && s.handlers[m.handler].stage == Claimed {
      var h := s.handlers[m.handler];
      var r: Result<seq<C.Client>> :| PersistStep(s, h, r) && t == AfterPersist(s, m.handler, r);
      if r.Ok? {
        var i :| 0 <= i < |s.clients| && CanPersist(s, h, i)
          && r == Ok(C.WithShutdown(s.clients, i,
              C.PairedWith(s.clients[i].shutdown, h.agentId, s.records[h.id].agentPort)));
        C.WithShutdownFinds(s.clients, i, C.PairedWith(s.clients[i].shutdown, h.agentId, s.records[h.id].agentPort),
            name);
        C.LookUpAt(s.clients, i);
      }
    }
  }

  /** The request names exactly the agent that sends it. */
  predicate NamesItself(agentId: string, csr: Csr) {
    |csr.identities| == 1 && csr.identities[0] == "urn:wolnut:agent:" + agentId
  }

  /** Every handler past the claim works on a request that names exactly its agent: nothing else is ever signed. */
  lemma OnlyOwnNames(c: Controller, s: System, m: Move, t: System)
    requires IsMove(c, s, m, t)
    requires forall k | k in s.handlers :: NamesItself(s.handlers[k].agentId, s.handlers[k].csr)
    ensures forall k | k in t.handlers :: NamesItself(t.handlers[k].agentId, t.handlers[k].csr)
  {
    if m.Begin? {
      SignsOwn(m.csr, m.agentId);
    }
  }

  lemma SignsOwn(csr: Csr, agentId: string)
    ensures CanSign(csr, agentId) <==> NamesItself(agentId, csr)
  {
    var own := [IdentityOf(agentId)];
    assert own[0] == IdentityOf(agentId);
    if NamesItself(agentId, csr) {
      assert csr.identities == own;
    }
  }

  /** A granted claim with a request that names anyone else, or more, fails the enrollment. */
  lemma ForeignNamesFail(s: System, handler: nat, id: string, agentId: string, csr: Csr)
    requires handler !in s.handlers && id in s.records && !NamesItself(agentId, csr)
    ensures var (record, answer) := E.ClaimRecord(s.records[id], s.now, agentId, Some(csr));
            var t := AfterBegin(s, handler, id, agentId, csr);
            && t.handlers == s.handlers && t.clients == s.clients && t.agent == s.agent
            && id in t.records && (answer.Ok? ==> t.records[id].status == E.Failed)
  {
    SignsOwn(csr, agentId);
  }
}
