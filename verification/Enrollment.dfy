/**
 One-time enrollment tokens of the controller: creating, claiming, completing and reporting
 on them. Random tokens and identifiers are parameters that are new when used.
 */
module Enrollment {
  import opened Wrappers
  import opened Crypto

  datatype Status = Pending | Processing | Paired | Failed | Expired | Superseded

  datatype Record = Record(
    clientName: string,
    agentPort: int,
    tokenHash: Hash,
    createdAt: int,
    expiresAt: int,
    status: Status,
    agentId: Option<string>,
    lastError: Option<string>,
    claimedAgentId: Option<string>,
    /** The request it was claimed with: its ideal hash is the request itself. */
    claimedCsr: Option<Csr>,
    completedAt: int)

  type Records = map<string, Record>

  /** What a claim returns: the enrollment and its record. */
  datatype Claimed = Claimed(id: string, record: Record)

  const INVALID := "Enrollment token is invalid"
  const EXPIRED := "Enrollment token has expired"
  const USED := "Enrollment token has already been used"
  const IN_PROGRESS := "An agent enrollment is already in progress for this client"
  const NOT_FOUND := "Enrollment session was not found"

  predicate IsActive(r: Record) { r.status == Pending || r.status == Processing }

  // ---------- One record ----------

  /** A running enrollment of the client stops a new one. */
  predicate Blocks(r: Record, clientName: string, now: int) {
    r.clientName == clientName && r.status == Processing && r.expiresAt >= now
  }

  /** What creating an enrollment does to an older record. */
  function MakeWay(r: Record, clientName: string, now: int): Record {
    if r.clientName != clientName then r
    else if r.expiresAt < now && IsActive(r) then r.(status := Expired)
    else if r.status == Pending then r.(status := Superseded)
    else r
  }

  function NewRecord(clientName: string, agentPort: int, token: string, now: int, lifetime: int): Record {
    Record(clientName, agentPort, HashOf(token), now, now + lifetime, Pending, None, None, None, None, 0)
  }

  function NonEmpty(s: string): Option<string> { if s == "" then None else Some(s) }

  predicate SameAgent(r: Record, agentId: string, csr: Option<Csr>) {
    agentId != "" && csr.Some? && r.claimedAgentId == Some(agentId) && r.claimedCsr == csr
  }

  /** Claiming a record: what becomes of it, and whether the claim is granted. */
  function ClaimRecord(r: Record, now: int, agentId: string, csr: Option<Csr>): (Record, Result<()>) {
    if now > r.expiresAt then (r.(status := Expired), Err(EXPIRED))
    else if r.status != Pending then
      (r, if (r.status == Processing || r.status == Paired) && SameAgent(r, agentId, csr) then Ok(()) else Err(USED))
    else (r.(status := Processing, claimedAgentId := NonEmpty(agentId), claimedCsr := csr), Ok(()))
  }

  function BootstrapRecord(r: Record, now: int): (Record, Result<()>) {
    if now > r.expiresAt then (r.(status := Expired), Err(EXPIRED))
    else (r, if r.status == Pending then Ok(()) else Err(USED))
  }

  function Finished(r: Record, status: Status, agentId: Option<string>, error: Option<string>, now: int): Record {
    r.(status := status, agentId := agentId, lastError := error, completedAt := now)
  }

  function Reported(r: Record, now: int): Status {
    if IsActive(r) && now > r.expiresAt then Expired else r.status
  }

  /** The interface shows an enrollment as pending exactly when a claim at that instant would start processing it. */
  lemma ReportedPendingIff(r: Record, now: int, agentId: string, csr: Option<Csr>)
    ensures Reported(r, now) == Pending <==>
            var (record, answer) := ClaimRecord(r, now, agentId, csr);
            r.status != Processing && answer.Ok? && record.status == Processing
  {}

  // ---------- The store ----------

  /** Different records belong to different tokens. */
  ghost predicate DistinctTokens(records: Records) {
    forall a, b | a in records && b in records && a != b :: records[a].tokenHash != records[b].tokenHash
  }

  ghost predicate HasToken(records: Records, token: string) {
    exists id :: id in records && records[id].tokenHash == HashOf(token)
  }

  function AllMakeWay(records: Records, clientName: string, now: int): Records {
    map id | id in records :: MakeWay(records[id], clientName, now)
  }

  class EnrollmentStore {
    var records: Records

    constructor ()
      ensures records == map[]
    {
      records := map[];
    }

    method Create(clientName: string, agentPort: int, now: int, lifetime: int, id: string, token: string)
      returns (r: Result<int>)
      modifies this
      ensures r.Err? <==> exists other :: other in old(records) && Blocks(old(records)[other], clientName, now)
      ensures r.Err? ==> records == old(records)
      ensures r.Ok? ==> r.value == now + lifetime
      ensures var created := NewRecord(clientName, agentPort, token, now, lifetime);
              r.Ok? ==> records == AllMakeWay(old(records), clientName, now)[id := created]
    {
      var updated := records;
      var rest := records.Keys;
      while rest != {}
        invariant rest <= records.Keys == updated.Keys && records == old(records)
        invariant forall other | other in records && other !in rest ::
            !Blocks(records[other], clientName, now) && updated[other] == MakeWay(records[other], clientName, now)
        invariant forall other | other in rest :: updated[other] == records[other]
        decreases rest
      {
        var other :| other in rest;
        rest := rest - {other};
        var record := updated[other];
        if record.clientName != clientName {
          continue;
        }
        if record.expiresAt < now && (record.status == Pending || record.status == Processing) {
          record := record.(status := Expired);
        } else if record.status == Processing {
          return Err(IN_PROGRESS);
        } else if record.status == Pending {
          record := record.(status := Superseded);
        }
        updated := updated[other := record];
      }
      assert updated == AllMakeWay(records, clientName, now);
      records := updated[id := NewRecord(clientName, agentPort, token, now, lifetime)];
      return Ok(now + lifetime);
    }

    /** Looks for the record of a token, one record at a time. */
    method Find(token: string) returns (found: Option<string>)
      ensures found == None <==> !HasToken(records, token)
      ensures found.Some? ==> found.value in records && records[found.value].tokenHash == HashOf(token)
    {
      var rest := records.Keys;
      while rest != {}
        invariant rest <= records.Keys
        invariant forall id | id in records && id !in rest :: records[id].tokenHash != HashOf(token)
        decreases rest
      {
        var id :| id in rest;
        if records[id].tokenHash == HashOf(token) {
          return Some(id);
        }
        rest := rest - {id};
      }
      return None;
    }

    /** Claims a record of the token; where several had the same one, the first that is found. */
    method Claim(token: string, agentId: string, csr: Option<Csr>, now: int) returns (r: Result<Claimed>)
      modifies this
      ensures !HasToken(old(records), token) ==> r == Err(INVALID) && records == old(records)
      ensures HasToken(old(records), token) ==>
                exists id | id in old(records) && old(records)[id].tokenHash == HashOf(token) ::
                  var (record, answer) := ClaimRecord(old(records)[id], now, agentId, csr);
                  && records == old(records)[id := record]
                  && (if answer.Ok? then r == Ok(Claimed(id, record)) else r == Err(answer.message))
    {
      var found := Find(token);
      if found == None {
        return Err(INVALID);
      }
      var id := found.value;
      var record := records[id];
      if now > record.expiresAt {
        records := records[id := record.(status := Expired)];
        return Err(EXPIRED);
      }
      if record.status != Pending {
        assert records == records[id := record];
        if (record.status == Processing || record.status == Paired) && SameAgent(record, agentId, csr) {
          return Ok(Claimed(id, record));
        }
        return Err(USED);
      }
      record := record.(status := Processing, claimedAgentId := NonEmpty(agentId), claimedCsr := csr);
      records := records[id := record];
      return Ok(Claimed(id, record));
    }

    /** Looks up a record of the token; where several had the same one, the first that is found. */
    method Bootstrap(token: string, now: int) returns (r: Result<Record>)
      modifies this
      ensures !HasToken(old(records), token) ==> r == Err(INVALID) && records == old(records)
      ensures HasToken(old(records), token) ==>
                exists id | id in old(records) && old(records)[id].tokenHash == HashOf(token) ::
                  var (record, answer) := BootstrapRecord(old(records)[id], now);
                  && records == old(records)[id := record]
                  && (if answer.Ok? then r == Ok(record) else r == Err(answer.message))
    {
      var found := Find(token);
      if found == None {
        return Err(INVALID);
      }
      var record := records[found.value];
      assert records == records[found.value := record];
      if now > record.expiresAt {
        records := records[found.value := record.(status := Expired)];
        return Err(EXPIRED);
      }
      if record.status != Pending {
        return Err(USED);
      }
      return Ok(record);
    }

    method SetResult(id: string, status: Status, agentId: Option<string>, error: Option<string>, now: int)
      returns (r: Result<()>)
      modifies this
      ensures r.Ok? <==> id in old(records)
      ensures records == if r.Ok? then old(records)[id := Finished(old(records)[id], status, agentId, error, now)]
                         else old(records)
    {
      if id !in records {
        return Err(NOT_FOUND);
      }
      var record := records[id];
      record := record.(status := status, agentId := agentId, lastError := error);
      record := record.(completedAt := now);
      records := records[id := record];
      return Ok(());
    }

    method StatusOf(id: string, now: int) returns (r: Result<Status>)
      ensures r == if id in records then Ok(Reported(records[id], now)) else Err(NOT_FOUND)
    {
      if id !in records {
        return Err(NOT_FOUND);
      }
      var status := records[id].status;
      if (status == Pending || status == Processing) && now > records[id].expiresAt {
        status := Expired;
      }
      return Ok(status);
    }
  }

  // ---------- Runs ----------

  /** A claim that was granted. */
  datatype Grant = Grant(id: string, agentId: string, csr: Option<Csr>, at: int)

  /** The store and every claim granted so far. */
  datatype State = State(records: Records, grants: seq<Grant>)

  datatype Op =
    | DoCreate(clientName: string, agentPort: int, now: int, lifetime: int, id: string, token: string)
    | DoClaim(id: string, agentId: string, csr: Option<Csr>, now: int)
    | DoBootstrap(id: string, now: int)
    | DoFinish(id: string, status: Status, pairedWith: Option<string>, error: Option<string>, now: int)

  /** A claim or look-up acts on the record of its token; one without a record changes nothing. */
  ghost predicate Step(s: State, op: Op, t: State) {
    match op
    case DoCreate(clientName, agentPort, now, lifetime, id, token) =>
      && id !in s.records && !HasToken(s.records, token)
      && (if exists other :: other in s.records && Blocks(s.records[other], clientName, now) then t == s
          else
            var created := NewRecord(clientName, agentPort, token, now, lifetime);
            t == s.(records := AllMakeWay(s.records, clientName, now)[id := created]))
    case DoClaim(id, agentId, csr, now) =>
      && id in s.records
      && var (record, answer) := ClaimRecord(s.records[id], now, agentId, csr);
         t == State(s.records[id := record], if answer.Ok? then s.grants + [Grant(id, agentId, csr, now)] else s.grants)
    case DoBootstrap(id, now) =>
      id in s.records && t == s.(records := s.records[id := BootstrapRecord(s.records[id], now).0])
    case DoFinish(id, status, agentId, error, now) =>
      && id in s.records && (status == Paired || status == Failed)
      && t == s.(records := s.records[id := Finished(s.records[id], status, agentId, error, now)])
  }

  ghost predicate IsRun(states: seq<State>, ops: seq<Op>) {
    && |states| == |ops| + 1 && states[0] == State(map[], [])
    && forall i | 0 <= i < |ops| :: Step(states[i], ops[i], states[i + 1])
  }

  /** At most one enrollment of a client is pending or processing. */
  ghost predicate OneActivePerClient(records: Records) {
    forall a, b | a in records && b in records && a != b && records[a].clientName == records[b].clientName ::
      !(IsActive(records[a]) && IsActive(records[b]))
  }

  /** A granted claim is the one the record was first claimed with, and it was in time. */
  ghost predicate GrantFits(records: Records, g: Grant) {
    && g.id in records && records[g.id].status != Pending
    && records[g.id].claimedAgentId == NonEmpty(g.agentId) && records[g.id].claimedCsr == g.csr
    && g.at <= records[g.id].expiresAt
  }

  ghost predicate Inv(s: State) {
    && DistinctTokens(s.records) && OneActivePerClient(s.records)
    && forall g | g in s.grants :: GrantFits(s.records, g)
  }

  /** What a record may become in one step. */
  predicate MayBecome(r: Record, q: Record) {
    && q.clientName == r.clientName && q.tokenHash == r.tokenHash && q.expiresAt == r.expiresAt
    && (q.status == Pending ==> r.status == Pending)
    && (r.status != Pending ==> q.claimedAgentId == r.claimedAgentId && q.claimedCsr == r.claimedCsr)
    && (IsActive(q) ==> IsActive(r))
  }

  lemma StepKeepsRecords(s: State, op: Op, t: State)
    requires Step(s, op, t)
    ensures forall id | id in s.records :: id in t.records && MayBecome(s.records[id], t.records[id])
    ensures forall g | g in s.grants :: g in t.grants
  {}

  /** Replacing one record by something it may become. */
  lemma ReplaceKeepsInv(s: State, id: string, q: Record)
    requires Inv(s) && id in s.records && MayBecome(s.records[id], q)
    ensures Inv(s.(records := s.records[id := q]))
  {
    var t := s.(records := s.records[id := q]);
    forall g | g in t.grants
      ensures GrantFits(t.records, g)
    {
      assert GrantFits(s.records, g);
    }
  }

  lemma CreateKeepsInv(s: State, clientName: string, now: int, id: string, r: Record)
    requires Inv(s) && id !in s.records && r.clientName == clientName
    requires forall other | other in s.records :: s.records[other].tokenHash != r.tokenHash
    requires forall other | other in s.records :: !Blocks(s.records[other], clientName, now)
    ensures Inv(s.(records := AllMakeWay(s.records, clientName, now)[id := r]))
  {
    var t := s.(records := AllMakeWay(s.records, clientName, now)[id := r]);
    MakeWayKeeps(s.records, clientName, now);
    forall a, b | a in t.records && b in t.records && a != b && t.records[a].clientName == t.records[b].clientName
      ensures !(IsActive(t.records[a]) && IsActive(t.records[b]))
    {
      if a in s.records && b in s.records {
        assert MayBecome(s.records[a], t.records[a]) && MayBecome(s.records[b], t.records[b]);
      }
    }
    forall g | g in t.grants
      ensures GrantFits(t.records, g)
    {
      assert GrantFits(s.records, g);
    }
  }

  /** Making way for a client leaves none of its records active, if nothing blocks. */
  lemma MakeWayKeeps(records: Records, clientName: string, now: int)
    requires forall other | other in records :: !Blocks(records[other], clientName, now)
    ensures forall other | other in records ::
              var after := AllMakeWay(records, clientName, now)[other];
              && MayBecome(records[other], after)
              && (records[other].clientName == clientName ==> !IsActive(after))
  {}

  lemma StepKeepsInv(s: State, op: Op, t: State)
    requires Inv(s) && Step(s, op, t)
    ensures Inv(t)
  {
    StepKeepsRecords(s, op, t);
    match op
    case DoCreate(clientName, agentPort, now, lifetime, id, token) =>
      if t != s {
        CreateKeepsInv(s, clientName, now, id, NewRecord(clientName, agentPort, token, now, lifetime));
      }
    case DoClaim(id, agentId, csr, now) =>
      ReplaceKeepsInv(s, id, t.records[id]);
      forall g | g in t.grants
        ensures GrantFits(t.records, g)
      {
        if g in s.grants {
          assert GrantFits(s.records[id := t.records[id]], g);
        }
      }
    case DoBootstrap(id, now) => ReplaceKeepsInv(s, id, t.records[id]);
    case DoFinish(id, status, agent, error, now) => ReplaceKeepsInv(s, id, t.records[id]);
  }

  lemma {:induction false} RunInv(states: seq<State>, ops: seq<Op>, k: nat)
    requires IsRun(states, ops) && k <= |ops|
    ensures Inv(states[k])
  {
    if k > 0 {
      RunInv(states, ops, k - 1);
      StepKeepsInv(states[k - 1], ops[k - 1], states[k]);
    }
  }

  /** All granted claims of one token come from one agent with one request, none after the token expired. */
  lemma GrantsAgree(states: seq<State>, ops: seq<Op>, k: nat, g: Grant, h: Grant)
    requires IsRun(states, ops) && k <= |ops| && g in states[k].grants && h in states[k].grants && g.id == h.id
    ensures g.agentId == h.agentId && g.csr == h.csr
    ensures g.id in states[k].records && g.at <= states[k].records[g.id].expiresAt
  {
    RunInv(states, ops, k);
    assert GrantFits(states[k].records, g) && GrantFits(states[k].records, h);
  }

  /** No record returns to pending, changes its client, token or expiry, or disappears. */
  lemma {:induction false} NeverPendingAgain(states: seq<State>, ops: seq<Op>, i: nat, j: nat, id: string)
    requires IsRun(states, ops) && i <= j <= |ops| && id in states[i].records
    ensures id in states[j].records
    ensures var r, q := states[i].records[id], states[j].records[id];
            && q.clientName == r.clientName && q.tokenHash == r.tokenHash && q.expiresAt == r.expiresAt
            && (r.status != Pending ==> q.status != Pending)
    decreases j
  {
    if i < j {
      NeverPendingAgain(states, ops, i, j - 1, id);
      StepKeepsRecords(states[j - 1], ops[j - 1], states[j]);
    }
  }

  // ---------- How long a pairing stays on record ----------

  /** A claim or look-up that comes too late, or a failure. */
  predicate Spoils(op: Op, id: string, expiresAt: int) {
    match op
    case DoClaim(other, _, _, now) => other == id && now > expiresAt
    case DoBootstrap(other, now) => other == id && now > expiresAt
    case DoFinish(other, status, _, _, _) => other == id && status == Failed
    case _ => false
  }

  predicate Restores(op: Op, id: string) { op.DoFinish? && op.id == id && op.status == Paired }

  ghost predicate AllRestored(ops: seq<Op>, id: string, expiresAt: int, i: nat, j: nat)
    requires j <= |ops|
  {
    forall m | i <= m < j && Spoils(ops[m], id, expiresAt) :: exists n | m < n < j :: Restores(ops[n], id)
  }

  /** One step and one record: who makes it paired, and who makes it something else. */
  lemma StepOnPaired(s: State, op: Op, t: State, id: string)
    requires Step(s, op, t) && id in s.records
    ensures id in t.records && t.records[id].expiresAt == s.records[id].expiresAt
    ensures Restores(op, id) ==> t.records[id].status == Paired
    ensures Spoils(op, id, s.records[id].expiresAt) ==> t.records[id].status != Paired
    ensures !Restores(op, id) && !Spoils(op, id, s.records[id].expiresAt) ==>
              (t.records[id].status == Paired <==> s.records[id].status == Paired)
  {}

  /**
   Statuses are not final: a paired record is still paired exactly if every late claim or look-up
   of it and every failure since was followed by another completion.
   */
  lemma {:induction false} PairedStaysExactly(states: seq<State>, ops: seq<Op>, i: nat, j: nat, id: string)
    requires IsRun(states, ops) && i <= j <= |ops| && id in states[i].records && states[i].records[id].status == Paired
    ensures id in states[j].records && states[j].records[id].expiresAt == states[i].records[id].expiresAt
    ensures states[j].records[id].status == Paired <==> AllRestored(ops, id, states[i].records[id].expiresAt, i, j)
    decreases j
  {
    if i < j {
      var expiresAt := states[i].records[id].expiresAt;
      PairedStaysExactly(states, ops, i, j - 1, id);
      assert Step(states[j - 1], ops[j - 1], states[j]);
      StepOnPaired(states[j - 1], ops[j - 1], states[j], id);
      RestoredGrows(ops, id, expiresAt, i, j);
    }
  }

  lemma RestoredGrows(ops: seq<Op>, id: string, expiresAt: int, i: nat, j: nat)
    requires i < j <= |ops|
    ensures AllRestored(ops, id, expiresAt, i, j) <==>
            || Restores(ops[j - 1], id)
            || (AllRestored(ops, id, expiresAt, i, j - 1) && !Spoils(ops[j - 1], id, expiresAt))
  {
    if AllRestored(ops, id, expiresAt, i, j) && !Restores(ops[j - 1], id) {
      forall m | i <= m < j - 1 && Spoils(ops[m], id, expiresAt)
        ensures exists n | m < n < j - 1 :: Restores(ops[n], id)
      {
        var n :| m < n < j && Restores(ops[n], id);
      }
    }
  }

  /** An enrollment is created, claimed and completed; the same claim repeated after its expiry makes it expired. */
  lemma PairedExpires(csr: Csr)
    ensures exists states: seq<State>, ops: seq<Op> ::
              && IsRun(states, ops) && |ops| == 4
              && "e" in states[3].records && states[3].records["e"].status == Paired
              && "e" in states[4].records && states[4].records["e"].status == Expired
  {
    var create, claim := DoCreate("client", 8184, 0, 600, "e", "token"), DoClaim("e", "agent", Some(csr), 1);
    var finish, late := DoFinish("e", Paired, Some("agent"), None, 2), DoClaim("e", "agent", Some(csr), 601);
    var pending := NewRecord("client", 8184, "token", 0, 600);
    var processing := ClaimRecord(pending, 1, "agent", Some(csr)).0;
    var paired := Finished(processing, Paired, Some("agent"), None, 2);
    var grants := [Grant("e", "agent", Some(csr), 1)];
    var states := [State(map[], []), State(map["e" := pending], []), State(map["e" := processing], grants),
                   State(map["e" := paired], grants), State(map["e" := paired.(status := Expired)], grants)];
    var ops := [create, claim, finish, late];
    assert AllMakeWay(map[], "client", 0) == map[];
    assert Step(states[0], create, states[1]);
    assert Step(states[1], claim, states[2]);
    assert Step(states[2], finish, states[3]);
    assert Step(states[3], late, states[4]);
    assert IsRun(states, ops);
  }

  // ---------- Each operation, exactly ----------

  /** What becomes of an older record of the client when a new enrollment is created. */
  function Retired(status: Status, expiresAt: int, now: int): Status {
    match status
    case Pending => if expiresAt < now then Expired else Superseded
    case Processing => Expired
    case other => other
  }

  /**
   Creating an enrollment succeeds exactly unless one of the client is processing and in time. Then
   the new record is pending and bound to nobody, the client's pending and processing ones are
   retired, and nothing else changes.
   */
  lemma CreatedExactly(s: State, clientName: string, agentPort: int, now: int, lifetime: int, id: string,
      token: string, t: State)
    requires Step(s, DoCreate(clientName, agentPort, now, lifetime, id, token), t)
    ensures id in t.records <==>
            forall other | other in s.records && s.records[other].clientName == clientName ::
              s.records[other].status == Processing ==> s.records[other].expiresAt < now
    ensures id !in t.records ==> t == s
    ensures id in t.records ==>
              && t.records.Keys == s.records.Keys + {id} && t.grants == s.grants
              && t.records[id] == Record(clientName, agentPort, HashOf(token), now, now + lifetime, Pending,
                                         None, None, None, None, 0)
              && forall other | other in s.records ::
                   t.records[other] ==
                   if s.records[other].clientName != clientName then s.records[other]
                   else s.records[other].(status := Retired(s.records[other].status, s.records[other].expiresAt, now))
  {}

  /** A claim is granted exactly in time, for a free token, or for one bound to this agent and this request. */
  lemma GrantedExactly(r: Record, now: int, agentId: string, csr: Option<Csr>)
    ensures ClaimRecord(r, now, agentId, csr).1.Ok? <==>
            && now <= r.expiresAt
            && (|| r.status == Pending
                || (&& r.status in {Processing, Paired} && agentId != "" && csr.Some?
                    && r.claimedAgentId == Some(agentId) && r.claimedCsr == csr))
    ensures var (q, answer) := ClaimRecord(r, now, agentId, csr);
            q == if now > r.expiresAt then r.(status := Expired)
                 else if r.status != Pending then r
                 else r.(status := Processing, claimedCsr := csr,
                         claimedAgentId := if agentId == "" then None else Some(agentId))
  {}

  /** A look-up answers exactly for a record that is shown as pending, and never consumes it. */
  lemma LookedUpExactly(r: Record, now: int)
    ensures BootstrapRecord(r, now).1.Ok? <==> r.status == Pending && now <= r.expiresAt
    ensures BootstrapRecord(r, now).1.Ok? <==> Reported(r, now) == Pending
    ensures BootstrapRecord(r, now).0 == if now > r.expiresAt then r.(status := Expired) else r
  {}

  /** A new enrollment can be looked up and claimed by any agent with any request as long as it lives, and not after. */
  lemma CreatedIsClaimable(s: State, clientName: string, agentPort: int, now: int, lifetime: int, id: string,
      token: string,
                           t: State, at: int, agentId: string, csr: Csr)
    requires Step(s, DoCreate(clientName, agentPort, now, lifetime, id, token), t) && id in t.records
    ensures ClaimRecord(t.records[id], at, agentId, Some(csr)).1.Ok? <==> at <= now + lifetime
    ensures BootstrapRecord(t.records[id], at).1.Ok? <==> at <= now + lifetime
  {
    CreatedExactly(s, clientName, agentPort, now, lifetime, id, token, t);
    GrantedExactly(t.records[id], at, agentId, Some(csr));
    LookedUpExactly(t.records[id], at);
  }
}
