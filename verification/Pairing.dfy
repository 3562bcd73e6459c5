/**
 The agent's side of pairing: issuing a code, the two pairing requests, enrolling with a
 token, and forgetting everything. Each handler is one atomic step; random values are parameters.
 */
module Pairing {
  import opened Wrappers
  import opened Crypto

  datatype Agent = Agent(
    agentId: string,
    controllerCa: Option<Certificate>,
    controllerCert: Option<Certificate>,
    serverCert: Option<Certificate>,
    serverKey: Option<Key>,
    pendingCsr: Option<Csr>,
    pendingKey: Option<Key>,
    codeHash: Option<Hash>,
    codeExpiresAt: int,
    failures: nat,
    tokenHash: Option<Hash>,
    tokenExpiresAt: int,
    processed: map<string, int>)

  /** A pairing request; a certificate that does not parse is none. */
  datatype PairRequest = PairRequest(code: string, ca: Option<Certificate>, controller: Option<Certificate>)

  /** The answers to a pairing request; Wrong and the ones after it compared the code. */
  datatype PairReply =
    | AlreadyPaired
    | CodeExpired
    | Wrong
    | BadCertificates
    | NotSaved
    | Started(csr: Csr, token: string)

  /** The controller's answer to an enrollment. */
  datatype EnrollmentReply = EnrollmentReply(
    status: string, protocolVersion: int, agentId: string,
    ca: Option<Certificate>, controller: Option<Certificate>, server: Option<Certificate>)

  function NewAgent(agentId: string): Agent {
    Agent(agentId, None, None, None, None, None, None, None, 0, 0, None, 0, map[])
  }

  function Forgotten(a: Agent): Agent { NewAgent(a.agentId) }

  function NewCsr(a: Agent, key: Key): Csr { Csr(key, [IdentityOf(a.agentId)]) }

  predicate IsController(ca: Option<Certificate>, controller: Option<Certificate>) {
    && ca.Some? && ca.value.isCa
    && controller.Some? && controller.value.forClients && Verifies(controller.value, ca.value)
  }

  /** The certificate can serve for this agent under a controller and a private key. */
  predicate IsServerCertificate(a: Agent, server: Option<Certificate>, ca: Certificate, key: Key) {
    && server.Some? && server.value.forServers && Verifies(server.value, ca)
    && IdentityOf(a.agentId) in server.value.identities && server.value.key == key
  }

  // ---------- What the handlers do ----------

  function Issued(a: Agent, code: string, now: int): Agent {
    a.(controllerCa := None, controllerCert := None, pendingCsr := None, pendingKey := None,
       tokenHash := None, tokenExpiresAt := 0,
       codeHash := Some(HashOf(code)), codeExpiresAt := now + 600, failures := 0)
  }

  function PairAnswer(a: Agent, request: PairRequest, now: int, key: Key, token: string, writable: bool): PairReply {
    if a.serverCert.Some? then AlreadyPaired
    else if a.failures >= 5 || now > a.codeExpiresAt then CodeExpired
    else if Some(HashOf(request.code)) != a.codeHash then Wrong
    else if !IsController(request.ca, request.controller) then BadCertificates
    else if !writable then NotSaved
    else Started(NewCsr(a, key), token)
  }

  function AfterPair(a: Agent, request: PairRequest, now: int, key: Key, token: string, writable: bool): Agent {
    match PairAnswer(a, request, now, key, token, writable)
    case Wrong => if writable then a.(failures := a.failures + 1) else a
    case Started(csr, _) =>
      a.(controllerCa := request.ca, controllerCert := request.controller,
         pendingCsr := Some(csr), pendingKey := Some(key),
         codeHash := None, codeExpiresAt := 0,
         tokenHash := Some(HashOf(token)), tokenExpiresAt := now + 120)
    case _ => a
  }

  /** The completion request is in order: a pending key, the token in time, and a certificate for that key. */
  predicate MayComplete(a: Agent, token: string, server: Option<Certificate>, now: int) {
    && a.pendingKey.Some?
    && a.tokenHash.Some? && now <= a.tokenExpiresAt && a.tokenHash == Some(HashOf(token))
    && a.controllerCa.Some? && IsServerCertificate(a, server, a.controllerCa.value, a.pendingKey.value)
  }

  function Completed(a: Agent, server: Certificate): Agent {
    a.(serverCert := Some(server), serverKey := a.pendingKey, pendingCsr := None, pendingKey := None,
       codeHash := None, codeExpiresAt := 0, failures := 0, tokenHash := None, tokenExpiresAt := 0)
  }

  /** Enrolling first makes sure that a request for a certificate is saved. */
  function WithPending(a: Agent, key: Key): Agent {
    if a.pendingCsr.Some? && a.pendingKey.Some? then a
    else a.(pendingCsr := Some(NewCsr(a, key)), pendingKey := Some(key))
  }

  predicate MayEnroll(a: Agent, reply: EnrollmentReply) {
    && a.serverCert.None? && a.pendingKey.Some?
    && reply.status == "paired" && reply.protocolVersion == 1 && reply.agentId == a.agentId
    && IsController(reply.ca, reply.controller)
    && IsServerCertificate(a, reply.server, reply.ca.value, a.pendingKey.value)
  }

  function Enrolled(a: Agent, reply: EnrollmentReply): Agent {
    a.(controllerCa := reply.ca, controllerCert := reply.controller, serverCert := reply.server,
       serverKey := a.pendingKey, pendingCsr := None, pendingKey := None)
  }

  // ---------- The handlers ----------

  class AgentService {
    /** The state file. */
    var file: Agent

    constructor (agentId: string)
      ensures file == NewAgent(agentId)
    {
      file := NewAgent(agentId);
    }

    method IssueCode(code: string, now: int, writable: bool) returns (ok: bool)
      modifies this
      ensures ok <==> old(file).serverCert.None? && writable
      ensures file == if ok then Issued(old(file), code, now) else old(file)
    {
      var state := file;
      if state.serverCert.Some? {
        return false;
      }
      state := state.(controllerCa := None, controllerCert := None);
      state := state.(pendingCsr := None, pendingKey := None);
      state := state.(tokenHash := None, tokenExpiresAt := 0);
      state := state.(codeHash := Some(HashOf(code)), codeExpiresAt := now + 600, failures := 0);
      if writable {
        file := state;
      }
      return writable;
    }

    /** Checks a code; a wrong one is counted as far as it can be saved. */
    method ValidateCode(code: string, now: int, writable: bool) returns (failure: Option<PairReply>)
      modifies this
      ensures failure == if old(file).serverCert.Some? then Some(AlreadyPaired)
                         else if old(file).failures >= 5 || now > old(file).codeExpiresAt then Some(CodeExpired)
                         else if Some(HashOf(code)) != old(file).codeHash then Some(Wrong)
                         else None
      ensures file == if failure == Some(Wrong) && writable then old(file).(failures := old(file).failures + 1)
                      else old(file)
    {
      if file.serverCert.Some? {
        return Some(AlreadyPaired);
      }
      if file.failures >= 5 || now > file.codeExpiresAt {
        return Some(CodeExpired);
      }
      if Some(HashOf(code)) != file.codeHash {
        var state := file.(failures := file.failures + 1);
        if writable {
          file := state;
        }
        return Some(Wrong);
      }
      return None;
    }

    method HandlePair(request: PairRequest, now: int, key: Key, token: string, writable: bool)
      returns (reply: PairReply)
      modifies this
      ensures reply == PairAnswer(old(file), request, now, key, token, writable)
      ensures file == AfterPair(old(file), request, now, key, token, writable)
    {
      var failure := ValidateCode(request.code, now, writable);
      if failure.Some? {
        return failure.value;
      }
      if request.ca.None? || !request.ca.value.isCa {
        return BadCertificates;
      }
      if request.controller.None? || !request.controller.value.forClients {
        return BadCertificates;
      }
      if !Verifies(request.controller.value, request.ca.value) {
        return BadCertificates;
      }
      var csr := NewCsr(file, key);
      var state := file.(controllerCa := request.ca, controllerCert := request.controller,
                         pendingCsr := Some(csr), pendingKey := Some(key));
      state := state.(codeHash := None, codeExpiresAt := 0);
      state := state.(tokenHash := Some(HashOf(token)), tokenExpiresAt := now + 120);
      if !writable {
        return NotSaved;
      }
      file := state;
      return Started(csr, token);
    }

    method HandleComplete(token: string, server: Option<Certificate>, now: int, writable: bool) returns (ok: bool)
      modifies this
      ensures ok <==> MayComplete(old(file), token, server, now) && writable
      ensures file == if ok then Completed(old(file), server.value) else old(file)
    {
      var state := file;
      if state.pendingKey.None? {
        return false;
      }
      if state.tokenHash.None? || now > state.tokenExpiresAt || state.tokenHash != Some(HashOf(token)) {
        return false;
      }
      if server.None? || state.controllerCa.None? || !server.value.forServers {
        return false;
      }
      if !Verifies(server.value, state.controllerCa.value) || IdentityOf(state.agentId) !in server.value.identities {
        return false;
      }
      if server.value.key != state.pendingKey.value {
        return false;
      }
      state := state.(serverCert := server, serverKey := state.pendingKey);
      state := state.(pendingCsr := None, pendingKey := None);
      state := state.(codeHash := None, codeExpiresAt := 0, failures := 0);
      state := state.(tokenHash := None, tokenExpiresAt := 0);
      if writable {
        file := state;
      }
      return writable;
    }

    /** The part of enrolling before the request is sent; it reports the state to go on with, if anything is sent. */
    method PrepareEnrollment(key: Key, writable: bool) returns (loaded: Option<Agent>)
      modifies this
      ensures file == if old(file).serverCert.None? && writable then WithPending(old(file), key) else old(file)
      ensures loaded == if old(file).serverCert.Some? then None
                        else if writable || WithPending(old(file), key) == old(file)
                        then Some(WithPending(old(file), key))
                        else None
    {
      var state := file;
      if state.serverCert.Some? {
        return None;
      }
      if state.pendingCsr.None? || state.pendingKey.None? {
        state := state.(pendingCsr := Some(NewCsr(state, key)), pendingKey := Some(key));
        if !writable {
          return None;
        }
        file := state;
      }
      return Some(state);
    }

    /**
     The part of enrolling after an answer arrived: it saves the state it had loaded, over whatever was
     saved since.
     */
    method FinishEnrollment(loaded: Agent, reply: EnrollmentReply, writable: bool) returns (ok: bool)
      requires loaded.serverCert.None? && loaded.pendingKey.Some?
      modifies this
      ensures ok <==> MayEnroll(loaded, reply) && writable
      ensures file == if ok then Enrolled(loaded, reply) else old(file)
    {
      var state := loaded;
      if reply.status != "paired" || reply.protocolVersion != 1 || reply.agentId != state.agentId {
        return false;
      }
      if reply.ca.None? || !reply.ca.value.isCa {
        return false;
      }
      if reply.controller.None? || !reply.controller.value.forClients {
        return false;
      }
      if reply.server.None? || !reply.server.value.forServers {
        return false;
      }
      if !Verifies(reply.controller.value, reply.ca.value) || !Verifies(reply.server.value, reply.ca.value) {
        return false;
      }
      if IdentityOf(state.agentId) !in reply.server.value.identities
        || reply.server.value.key != state.pendingKey.value {
        return false;
      }
      state := state.(controllerCa := reply.ca, controllerCert := reply.controller, serverCert := reply.server);
      state := state.(serverKey := state.pendingKey, pendingCsr := None, pendingKey := None);
      if writable {
        file := state;
      }
      return writable;
    }

    /** Unpairing on request of the controller, and resetting on the device. */
    method Forget(writable: bool) returns (ok: bool)
      modifies this
      ensures ok == writable
      ensures file == if ok then Forgotten(old(file)) else old(file)
    {
      var state := file;
      state := state.(controllerCa := None, controllerCert := None, serverCert := None, serverKey := None);
      state := state.(pendingCsr := None, pendingKey := None, codeHash := None, codeExpiresAt := 0, failures := 0);
      state := state.(tokenHash := None, tokenExpiresAt := 0, processed := map[]);
      if writable {
        file := state;
      }
      return writable;
    }
  }

  // ---------- Runs ----------

  datatype Action =
    | Issue(code: string, now: int)
    | Guess(request: PairRequest, now: int, key: Key, token: string, writable: bool)
    | Complete(token: string, server: Option<Certificate>, now: int)
    | Prepare(key: Key)
    /** An answer arrives for an enrollment that had loaded this state before it sent its request. */
    | Finish(loaded: Agent, reply: EnrollmentReply)
    | Reset

  /** The agent after one action that was saved, or after a request that may not have been. */
  function Act(a: Agent, action: Action): Agent {
    match action
    case Issue(code, now) => if a.serverCert.None? then Issued(a, code, now) else a
    case Guess(request, now, key, token, writable) => AfterPair(a, request, now, key, token, writable)
    case Complete(token, server, now) => if MayComplete(a, token, server, now) then Completed(a, server.value) else a
    case Prepare(key) => if a.serverCert.None? then WithPending(a, key) else a
    case Finish(loaded, reply) => if MayEnroll(loaded, reply) then Enrolled(loaded, reply) else a
    case Reset => Forgotten(a)
  }

  /** The agent was in this state at some step up to i. */
  ghost predicate WasThere(agents: seq<Agent>, loaded: Agent, i: nat)
    requires i < |agents|
  {
    exists m | 0 <= m <= i :: agents[m] == loaded
  }

  ghost predicate IsRun(agents: seq<Agent>, actions: seq<Action>) {
    && |agents| == |actions| + 1
    && (exists agentId :: agents[0] == NewAgent(agentId))
    && (forall i | 0 <= i < |actions| :: agents[i + 1] == Act(agents[i], actions[i]))
    && (forall i | 0 <= i < |actions| && actions[i].Finish? :: WasThere(agents, actions[i].loaded, i))
  }

  /** A stored server certificate fits its key, the stored controller and the agent, and nothing is pending. */
  predicate PairedSoundly(a: Agent) {
    a.serverCert.Some? ==>
      && a.controllerCa.Some? && a.serverKey == Some(a.serverCert.value.key)
      && Verifies(a.serverCert.value, a.controllerCa.value)
      && IdentityOf(a.agentId) in a.serverCert.value.identities
      && a.pendingKey.None? && a.pendingCsr.None?
  }

  /** A pending request is for the pending key and names the agent. */
  predicate PendingSoundly(a: Agent) {
    && (a.pendingKey.Some? <==> a.pendingCsr.Some?)
    && (a.pendingCsr.Some? ==> a.pendingCsr.value == NewCsr(a, a.pendingKey.value))
  }

  /** A live code can still be guessed; a dead one is refused as expired. */
  predicate CodeSoundly(a: Agent) {
    a.failures <= 5 && (a.codeHash.None? ==> a.codeExpiresAt == 0)
  }

  lemma ActSound(a: Agent, action: Action)
    requires PairedSoundly(a) && PendingSoundly(a) && CodeSoundly(a)
    requires action.Finish? ==> CodeSoundly(action.loaded) && action.loaded.agentId == a.agentId
    ensures var b := Act(a, action); PairedSoundly(b) && PendingSoundly(b) && CodeSoundly(b) && b.agentId == a.agentId
  {}

  /** At every moment of every run, a stored certificate is one the agent can serve with. */
  lemma {:induction false} AlwaysSound(agents: seq<Agent>, actions: seq<Action>, k: nat)
    requires IsRun(agents, actions) && k <= |actions|
    ensures PairedSoundly(agents[k]) && PendingSoundly(agents[k]) && CodeSoundly(agents[k])
    ensures agents[k].agentId == agents[0].agentId
  {
    if k > 0 {
      AlwaysSound(agents, actions, k - 1);
      if actions[k - 1].Finish? {
        var m := LoadedAt(agents, actions, k - 1);
        AlwaysSound(agents, actions, m);
      }
      ActSound(agents[k - 1], actions[k - 1]);
    }
  }

  function AnswerTo(a: Agent, action: Action): PairReply
    requires action.Guess?
  {
    PairAnswer(a, action.request, action.now, action.key, action.token, action.writable)
  }

  /** How many actions from i up to k compared a wrong code; counting all, or only those that were not saved. */
  function WrongGuesses(agents: seq<Agent>, actions: seq<Action>, i: nat, k: nat, unsavedOnly: bool): nat
    requires i <= k <= |actions| < |agents|
  {
    if k == i then 0 else
      var last := actions[k - 1];
      WrongGuesses(agents, actions, i, k - 1, unsavedOnly)
        + if last.Guess? && AnswerTo(agents[k - 1], last) == Wrong && !(unsavedOnly && last.writable) then 1 else 0
  }

  function Successes(agents: seq<Agent>, actions: seq<Action>, i: nat, k: nat): nat
    requires i <= k <= |actions| < |agents|
  {
    if k == i then 0 else
      Successes(agents, actions, i, k - 1)
        + if actions[k - 1].Guess? && AnswerTo(agents[k - 1], actions[k - 1]).Started? then 1 else 0
  }

  /** Times are after the epoch. */
  predicate IsTimed(action: Action) { action.Guess? || action.Complete? || action.Issue? ==> action.now > 0 }

  /** The account of one issued code: the wrong guesses that were saved, and whether it was used. */
  ghost predicate CodeAccount(a: Agent, saved: int, successes: nat) {
    && saved <= 5 && successes <= 1
    && (a.serverCert.None? && a.codeExpiresAt != 0 ==> a.failures == saved && successes == 0)
  }

  lemma {:induction false} CodeGuesses(agents: seq<Agent>, actions: seq<Action>, i: nat, k: nat)
    requires IsRun(agents, actions) && i < k <= |actions|
    requires actions[i].Issue? && agents[i].serverCert.None?
    requires forall m | i < m < k :: !(actions[m].Issue? && agents[m].serverCert.None?)
    requires forall m | i <= m < k :: IsTimed(actions[m])
    ensures CodeAccount(agents[k],
              WrongGuesses(agents, actions, i + 1, k, false) - WrongGuesses(agents, actions, i + 1, k, true),
              Successes(agents, actions, i + 1, k))
    decreases k
  {
    if k > i + 1 {
      CodeGuesses(agents, actions, i, k - 1);
      AlwaysSound(agents, actions, k - 1);
    }
  }

  /**
   Of one issued code, at most five wrong guesses are compared, not counting any whose count
   could not be saved, and at most one right guess starts pairing.
   */
  lemma GuessesAreLimited(agents: seq<Agent>, actions: seq<Action>, i: nat, k: nat)
    requires IsRun(agents, actions) && i < k <= |actions|
    requires actions[i].Issue? && agents[i].serverCert.None?
    requires forall m | i < m < k :: !(actions[m].Issue? && agents[m].serverCert.None?)
    requires forall m | i <= m < k :: IsTimed(actions[m])
    ensures WrongGuesses(agents, actions, i + 1, k, false) <= 5 + WrongGuesses(agents, actions, i + 1, k, true)
    ensures Successes(agents, actions, i + 1, k) <= 1
  {
    CodeGuesses(agents, actions, i, k);
  }

  /** The request got as far as having its code compared. */
  predicate Compares(a: Agent, action: Action) {
    action.Guess? && AnswerTo(a, action) != AlreadyPaired && AnswerTo(a, action) != CodeExpired
  }

  /** As long as pairing is only tried: how the code stands. */
  lemma {:induction false} CodeWhileGuessing(agents: seq<Agent>, actions: seq<Action>, i: nat, k: nat)
    requires IsRun(agents, actions) && i < k <= |actions|
    requires actions[i].Issue? && agents[i].serverCert.None?
    requires forall m | i < m < k :: actions[m].Guess? || actions[m].Prepare?
    requires forall m | i <= m < k :: IsTimed(actions[m])
    ensures agents[k].serverCert.None?
    ensures agents[k].codeExpiresAt == if Successes(agents, actions, i + 1, k) == 0 then actions[i].now + 600 else 0
    decreases k
  {
    if k > i + 1 {
      CodeWhileGuessing(agents, actions, i, k - 1);
    }
  }

  /**
   A guess is compared exactly when it comes within ten minutes, the code was not used, and fewer
   than five wrong guesses before it were saved: guesses that cannot be counted are unlimited.
   */
  lemma ComparedExactly(agents: seq<Agent>, actions: seq<Action>, i: nat, k: nat)
    requires IsRun(agents, actions) && i < k < |actions|
    requires actions[i].Issue? && agents[i].serverCert.None? && actions[k].Guess?
    requires forall m | i < m < k :: actions[m].Guess? || actions[m].Prepare?
    requires forall m | i <= m <= k :: IsTimed(actions[m])
    ensures Compares(agents[k], actions[k]) <==>
            && actions[k].now <= actions[i].now + 600
            && Successes(agents, actions, i + 1, k) == 0
            && WrongGuesses(agents, actions, i + 1, k, false) - WrongGuesses(agents, actions, i + 1, k, true) < 5
  {
    CodeGuesses(agents, actions, i, k);
    CodeWhileGuessing(agents, actions, i, k);
  }

  /** With a file that cannot be written, a sixth wrong guess is compared like the first. */
  lemma SixWrongGuesses()
    ensures exists agents: seq<Agent>, actions: seq<Action> ::
              && IsRun(agents, actions) && |actions| == 7
              && actions[0].Issue? && WrongGuesses(agents, actions, 1, 7, false) == 6
  {
    var a := NewAgent("agent");
    var b := Issued(a, "AAAA-BBBB", 1);
    var guess := Guess(PairRequest("CCCC-DDDD", None, None), 2, 0, "token", false);
    var agents, actions := [a, b, b, b, b, b, b, b], [Issue("AAAA-BBBB", 1), guess, guess, guess, guess, guess, guess];
    assert agents[0] == NewAgent("agent");
    SameWrongGuess(agents, actions, b, guess, 7);
    assert IsRun(agents, actions);
  }

  lemma {:induction false} SameWrongGuess(agents: seq<Agent>, actions: seq<Action>, a: Agent, guess: Action, k: nat)
    requires 1 <= k <= |actions| < |agents| && guess.Guess? && AnswerTo(a, guess) == Wrong
    requires forall m | 1 <= m < k :: agents[m] == a && actions[m] == guess
    ensures WrongGuesses(agents, actions, 1, k, false) == k - 1
  {
    if k > 1 {
      SameWrongGuess(agents, actions, a, guess, k - 1);
    }
  }

  // ---------- Where a completed pairing comes from ----------

  /** The code was issued at step j. */
  ghost predicate IssuedAt(agents: seq<Agent>, actions: seq<Action>, j: nat, codeHash: Hash, expiresAt: int)
    requires j < |actions| < |agents|
  {
    && actions[j].Issue? && agents[j].serverCert.None?
    && codeHash == HashOf(actions[j].code) && expiresAt == actions[j].now + 600
  }

  /** Step i is a right guess that started pairing and handed out the token. */
  ghost predicate StartedAt(agents: seq<Agent>, actions: seq<Action>, i: nat, tokenHash: Hash, expiresAt: int)
    requires i < |actions| < |agents|
  {
    && actions[i].Guess? && AnswerTo(agents[i], actions[i]).Started?
    && tokenHash == HashOf(actions[i].token) && expiresAt == actions[i].now + 120
  }

  lemma LoadedAt(agents: seq<Agent>, actions: seq<Action>, i: nat) returns (m: nat)
    requires IsRun(agents, actions) && i < |actions| && actions[i].Finish?
    ensures m <= i && agents[m] == actions[i].loaded
  {
    assert WasThere(agents, actions[i].loaded, i);
    m :| 0 <= m <= i && agents[m] == actions[i].loaded;
  }

  lemma {:induction false} CodeOrigin(agents: seq<Agent>, actions: seq<Action>, k: nat)
    requires IsRun(agents, actions) && k <= |actions| && agents[k].codeHash.Some?
    ensures exists j | 0 <= j < k :: IssuedAt(agents, actions, j, agents[k].codeHash.value, agents[k].codeExpiresAt)
  {
    var before, action := agents[k - 1], actions[k - 1];
    assert agents[k] == Act(before, action);
    if action.Issue? && before.serverCert.None? {
      assert IssuedAt(agents, actions, k - 1, agents[k].codeHash.value, agents[k].codeExpiresAt);
    } else if action.Finish? && MayEnroll(action.loaded, action.reply) {
      var m := LoadedAt(agents, actions, k - 1);
      CodeOrigin(agents, actions, m);
    } else {
      CodeOrigin(agents, actions, k - 1);
    }
  }

  lemma {:induction false} TokenOrigin(agents: seq<Agent>, actions: seq<Action>, k: nat)
    requires IsRun(agents, actions) && k <= |actions| && agents[k].tokenHash.Some?
    ensures agents[k].serverCert.None? ==> agents[k].pendingKey.Some?
    ensures exists i | 0 <= i < k ::
              && StartedAt(agents, actions, i, agents[k].tokenHash.value, agents[k].tokenExpiresAt)
              && (agents[k].pendingKey.Some? ==>
                    agents[k].pendingKey == Some(actions[i].key) && agents[k].controllerCa == actions[i].request.ca)
  {
    var before, action := agents[k - 1], actions[k - 1];
    assert agents[k] == Act(before, action);
    AlwaysSound(agents, actions, k - 1);
    if action.Guess? && AnswerTo(before, action).Started? {
      assert StartedAt(agents, actions, k - 1, agents[k].tokenHash.value, agents[k].tokenExpiresAt);
    } else if action.Finish? && MayEnroll(action.loaded, action.reply) {
      var m := LoadedAt(agents, actions, k - 1);
      TokenOrigin(agents, actions, m);
    } else {
      TokenOrigin(agents, actions, k - 1);
    }
  }

  /**
   Pairing by hand completes only for who presented a code issued within ten minutes before and
   comes back within two minutes with the token it was given then, with a certificate for the key
   made then under the controller authority sent then.
   */
  lemma CompletionHasOrigin(agents: seq<Agent>, actions: seq<Action>, k: nat)
    requires IsRun(agents, actions) && k < |actions| && actions[k].Complete?
    requires MayComplete(agents[k], actions[k].token, actions[k].server, actions[k].now)
    ensures exists j, i | 0 <= j < i < k ::
              && actions[j].Issue? && actions[i].Guess? && AnswerTo(agents[i], actions[i]).Started?
              && actions[i].request.code == actions[j].code && actions[i].now <= actions[j].now + 600
              && actions[k].token == actions[i].token && actions[k].now <= actions[i].now + 120
              && actions[k].server.value.key == actions[i].key
              && IsController(actions[i].request.ca, actions[i].request.controller)
              && Verifies(actions[k].server.value, actions[i].request.ca.value)
  {
    TokenOrigin(agents, actions, k);
    var a := agents[k];
    var i :| 0 <= i < k && StartedAt(agents, actions, i, a.tokenHash.value, a.tokenExpiresAt)
      && a.pendingKey == Some(actions[i].key) && a.controllerCa == actions[i].request.ca;
    CodeOrigin(agents, actions, i);
    var j :| 0 <= j < i && IssuedAt(agents, actions, j, agents[i].codeHash.value, agents[i].codeExpiresAt);
    assert actions[i].request.code == actions[j].code;
  }

  // ---------- Pairing succeeds ----------

  /** Different agents have different identities. */
  lemma IdentityInjective(a: string, b: string)
    requires IdentityOf(a) == IdentityOf(b)
    ensures a == b
  {
    var n := |"urn:wolnut:agent:"|;
    assert IdentityOf(a)[n..] == a && IdentityOf(b)[n..] == b;
  }

  /** A certificate made for another agent is refused, by hand and when enrolling. */
  lemma OtherAgentRefused(a: Agent, other: string, token: string, server: Certificate, now: int, reply: EnrollmentReply)
    requires other != a.agentId && server.identities == [IdentityOf(other)]
    ensures !MayComplete(a, token, Some(server), now)
    ensures reply.server == Some(server) ==> !MayEnroll(a, reply)
  {
    if IdentityOf(a.agentId) in server.identities {
      IdentityInjective(a.agentId, other);
    }
  }

  /** Whatever is taken over was signed by the authority it came with, or that is on record. */
  lemma TakenOverIsSigned(a: Agent, token: string, server: Option<Certificate>, now: int, reply: EnrollmentReply,
      guess: Action)
    ensures MayComplete(a, token, server, now) ==>
              a.controllerCa.Some? && server.Some? && server.value.signer == a.controllerCa.value.key
    ensures MayEnroll(a, reply) ==>
              && reply.ca.Some? && reply.server.Some? && reply.server.value.signer == reply.ca.value.key
              && reply.controller.Some? && reply.controller.value.signer == reply.ca.value.key
    ensures guess.Guess? && AnswerTo(a, guess).Started? ==>
              && guess.request.ca.Some? && guess.request.controller.Some?
              && guess.request.controller.value.signer == guess.request.ca.value.key
  {}

  /** A certificate authority with a client certificate, and what it signs for a request. */
  predicate IsAuthority(ca: Certificate, client: Certificate) {
    ca.isCa && client.forClients && client.signer == ca.key
  }

  function Signed(ca: Certificate, csr: Csr): Certificate {
    Certificate(csr.key, csr.identities, ca.key, false, false, true)
  }

  /**
   Whatever state an agent is in, once it is reset it can be paired by hand: a new code, used within
   ten minutes, and the certificate signed for the request it answers with, within two more.
   */
  lemma PairsAfterReset(a: Agent, code: string, issued: int, ca: Certificate, client: Certificate, guessed: int,
      key: Key,
                        token: string, completed: int)
    requires IsAuthority(ca, client) && issued <= guessed <= issued + 600 && completed <= guessed + 120
    ensures var a1 := Act(a, Reset);
            var a2 := Act(a1, Issue(code, issued));
            var guess := Guess(PairRequest(code, Some(ca), Some(client)), guessed, key, token, true);
            var a3 := Act(a2, guess);
            var csr := Csr(key, [IdentityOf(a.agentId)]);
            var a4 := Act(a3, Complete(token, Some(Signed(ca, csr)), completed));
            && a1 == NewAgent(a.agentId)
            && AnswerTo(a2, guess) == Started(csr, token)
            && a4.serverCert == Some(Signed(ca, csr)) && a4.serverKey == Some(key)
            && a4.controllerCa == Some(ca) && a4.controllerCert == Some(client) && PairedSoundly(a4)
  {
    assert [IdentityOf(a.agentId)][0] == IdentityOf(a.agentId);
  }

  /** And it can enroll: the request it saves, answered with a certificate for it, pairs it. */
  lemma EnrollsAfterReset(a: Agent, key: Key, ca: Certificate, client: Certificate)
    requires IsAuthority(ca, client)
    ensures var a1 := Act(Act(a, Reset), Prepare(key));
            var csr := Csr(key, [IdentityOf(a.agentId)]);
            var reply := EnrollmentReply("paired", 1, a.agentId, Some(ca), Some(client), Some(Signed(ca, csr)));
            var a2 := Act(a1, Finish(a1, reply));
            && a1.pendingCsr == Some(csr)
            && a2.serverCert == Some(Signed(ca, csr)) && a2.serverKey == Some(key)
            && a2.controllerCa == Some(ca) && a2.controllerCert == Some(client) && PairedSoundly(a2)
  {
    assert [IdentityOf(a.agentId)][0] == IdentityOf(a.agentId);
  }

  /** A paired agent is left alone by codes, guesses and new enrollments until it is reset. */
  lemma PairedStaysPaired(a: Agent, action: Action)
    requires a.serverCert.Some? && PairedSoundly(a) && !action.Finish? && action != Reset
    ensures Act(a, action) == a
    ensures action.Guess? ==> AnswerTo(a, action) == AlreadyPaired
  {}
}
