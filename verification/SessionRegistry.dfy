/** The session store: session objects updated in place under their ids. */
module SessionRegistry {
  import opened Collections
  import opened Players
  import opened Sessions

  type Registry = map<string, SessionState>

  // ------------------------------------------------------------------
  // The store as a value
  // ------------------------------------------------------------------

  datatype Op =
    | Create(sid: string, playerIds: seq<string>)
    | Record(sid: string, sub: Submission)

  function Reply(reg: Registry, sid: string, sub: Submission): Outcome {
    if sid in reg then Check(reg[sid], sub) else SessionNotFound
  }

  /** A session created under an id in use takes its place. */
  function After(reg: Registry, op: Op): Registry {
    match op
    case Create(sid, ids) => reg[sid := NewSession(ids)]
    case Record(sid, sub) => if sid in reg then reg[sid := Submitted(reg[sid], sub)] else reg
  }

  function AfterOps(ops: seq<Op>): Registry {
    if ops == [] then map[] else After(AfterOps(ops[..|ops| - 1]), ops[|ops| - 1])
  }

  function Active(reg: Registry): set<string> {
    set sid | sid in reg && !reg[sid].finalized
  }

  /** What a run of operations did to the number of active sessions. */
  datatype Ledger = Ledger(created: nat, finalized: nat, replaced: nat)

  function Booked(l: Ledger, reg: Registry, op: Op): Ledger {
    match op
    case Create(sid, _) =>
      Ledger(l.created + 1, l.finalized, l.replaced + if sid in Active(reg) then 1 else 0)
    case Record(sid, sub) =>
      if sid in Active(reg) && Submitted(reg[sid], sub).finalized then Ledger(l.created, l.finalized + 1, l.replaced) else l
  }

  function LedgerOf(ops: seq<Op>): Ledger {
    if ops == [] then Ledger(0, 0, 0)
    else Booked(LedgerOf(ops[..|ops| - 1]), AfterOps(ops[..|ops| - 1]), ops[|ops| - 1])
  }

  lemma ActiveAfter(reg: Registry, op: Op)
    ensures Active(After(reg, op)) ==
            if op.Create? then Active(reg) + {op.sid}
            else if op.sid in Active(reg) && Submitted(reg[op.sid], op.sub).finalized then Active(reg) - {op.sid}
            else Active(reg)
  {
    if op.Record? && op.sid in reg {
      ResultsAreWriteOnce(reg[op.sid], [op.sub]);
      assert [op.sub][..0] == [];
    }
  }

  /** Active sessions are those created less those finalized, once the active ones
      that were replaced under their own id are set aside. */
  lemma {:induction false} ActiveIsCreatedLessFinalized(ops: seq<Op>)
    ensures |Active(AfterOps(ops))| + LedgerOf(ops).finalized + LedgerOf(ops).replaced == LedgerOf(ops).created
  {
    if ops == [] {
      assert Active(map[]) == {};
    } else {
      ActiveIsCreatedLessFinalized(ops[..|ops| - 1]);
      StepBalances(AfterOps(ops[..|ops| - 1]), LedgerOf(ops[..|ops| - 1]), ops[|ops| - 1]);
    }
  }

  lemma StepBalances(reg: Registry, l: Ledger, op: Op)
    requires |Active(reg)| + l.finalized + l.replaced == l.created
    ensures var l' := Booked(l, reg, op);
            |Active(After(reg, op))| + l'.finalized + l'.replaced == l'.created
  {
    ActiveAfter(reg, op);
    hide After, Submitted, NewSession;
    var a := Active(reg);
    assert op.sid in a ==> a + {op.sid} == a;
  }

  function CreatedIds(ops: seq<Op>): set<string> {
    set op | op in ops && op.Create? :: op.sid
  }

  /** Every session was created with its own fresh id. */
  ghost predicate FreshIds(ops: seq<Op>) {
    forall i, j | 0 <= i < j < |ops| && ops[i].Create? && ops[j].Create? :: ops[i].sid != ops[j].sid
  }

  /** With fresh ids nothing is replaced, and every session is what its own
      submissions made of it. */
  lemma {:induction false} FreshIdsReplaceNothing(ops: seq<Op>)
    requires FreshIds(ops)
    ensures AfterOps(ops).Keys == CreatedIds(ops)
    ensures LedgerOf(ops).replaced == 0
    ensures |Active(AfterOps(ops))| == LedgerOf(ops).created - LedgerOf(ops).finalized
  {
    hide FreshIds;
    ActiveIsCreatedLessFinalized(ops);
    if ops == [] {
      assert CreatedIds(ops) == {};
    } else {
      var before, op := ops[..|ops| - 1], ops[|ops| - 1];
      assert ops == before + [op];
      LastCreation(before, op);
      FreshIdsReplaceNothing(before);
      FreshStep(AfterOps(before), LedgerOf(before), op);
    }
  }

  lemma FreshStep(reg: Registry, l: Ledger, op: Op)
    requires op.Create? ==> op.sid !in reg
    ensures After(reg, op).Keys == reg.Keys + if op.Create? then {op.sid} else {}
    ensures Booked(l, reg, op).replaced == l.replaced
  {
  }

  lemma LastCreation(ops: seq<Op>, op: Op)
    requires FreshIds(ops + [op])
    ensures FreshIds(ops)
    ensures CreatedIds(ops + [op]) == CreatedIds(ops) + if op.Create? then {op.sid} else {}
    ensures op.Create? ==> op.sid !in CreatedIds(ops)
  {
    var all := ops + [op];
    forall i, j | 0 <= i < j < |ops| && ops[i].Create? && ops[j].Create? ensures ops[i].sid != ops[j].sid {
      assert all[i] == ops[i] && all[j] == ops[j];
    }
    assert op in all && forall o :: o in all <==> o in ops || o == op;
    if op.Create? {
      forall i | 0 <= i < |ops| && ops[i].Create? ensures ops[i].sid != op.sid {
        assert all[i] == ops[i] && all[|ops|] == op;
      }
    }
  }

  /** Submissions made to one session, in order. */
  function SubsFor(ops: seq<Op>, sid: string): seq<Submission> {
    if ops == [] then []
    else
      var op := ops[|ops| - 1];
      if op.sid != sid then SubsFor(ops[..|ops| - 1], sid)
      else if op.Create? then []
      else SubsFor(ops[..|ops| - 1], sid) + [op.sub]
  }

  /** Sessions do not interfere: each is its last creation followed by the submissions
      made to it since. */
  lemma {:induction false} SessionsAreSeparate(ops: seq<Op>, sid: string) returns (ids: seq<string>)
    requires sid in AfterOps(ops)
    ensures Create(sid, ids) in ops
    ensures AfterOps(ops)[sid] == AfterAll(NewSession(ids), SubsFor(ops, sid))
  {
    var n := |ops| - 1;
    var op := ops[n];
    if op.sid == sid && op.Create? {
      ids := op.playerIds;
    } else {
      ids := SessionsAreSeparate(ops[..n], sid);
      if op.sid == sid {
        var subs := SubsFor(ops[..n], sid);
        assert (subs + [op.sub])[..|subs|] == subs;
      }
    }
  }

  // ------------------------------------------------------------------
  // The store as objects
  // ------------------------------------------------------------------

  class Session {
    const playerIds: seq<string>
    var results: map<string, ResultEntry>
    var finalized: bool

    ghost function State(): SessionState
      reads this
    {
      SessionState(playerIds, results, finalized)
    }

    constructor (ids: seq<string>)
      ensures State() == NewSession(ids)
    {
      playerIds, results, finalized := ids, map[], false;
    }

    /** The membership loop of a submission. */
    method Includes(playerId: string) returns (found: bool)
      ensures found <==> playerId in playerIds
    {
      found := false;
      var i := 0;
      while i < |playerIds|
        invariant 0 <= i <= |playerIds|
        invariant playerId !in playerIds[..i]
      {
        if playerIds[i] == playerId {
          found := true;
          break;
        }
        i := i + 1;
      }
    }

    method Submit(playerId: string, result: int32, score: int32) returns (r: Outcome)
      modifies this
      ensures r == Check(old(State()), Submission(playerId, result, score))
      ensures r == PlayerNotInSession <==> playerId !in playerIds
      ensures r == DuplicateSubmission <==> playerId in playerIds && playerId in old(results)
      ensures r == InvalidResult <==> playerId in playerIds && playerId !in old(results) && !(1 <= result <= 3)
      ensures r.Recorded? ==>
                Awarded(result, r.delta) && results == old(results)[playerId := ResultEntry(playerId, result, score, r.delta)]
      ensures !r.Recorded? ==> results == old(results)
      ensures State() == Submitted(old(State()), Submission(playerId, result, score))
    {
      var found := Includes(playerId);
      if !found {
        return PlayerNotInSession;
      }
      if playerId in results {
        return DuplicateSubmission;
      }
      var delta: int32;
      match result {
        case 1 => delta := MMR_WIN_DELTA;
        case 2 => delta := MMR_LOSS_DELTA;
        case 3 => delta := MMR_DRAW_DELTA;
        case _ => return InvalidResult;
      }
      results := results[playerId := ResultEntry(playerId, result, score, delta)];
      if |results| == |playerIds| {
        finalized := true;
      }
      r := Recorded(delta);
    }
  }

  class SessionStore {
    var sessions: map<string, Session>

    /** No object is stored under two ids. */
    ghost predicate Valid()
      reads this
    {
      forall i, j | i in sessions && j in sessions && i != j :: sessions[i] != sessions[j]
    }

    ghost function Contents(): Registry
      reads this, sessions.Values
    {
      map sid | sid in sessions :: sessions[sid].State()
    }

    constructor ()
      ensures Valid() && Contents() == map[]
    {
      sessions := map[];
    }

    method CreateSession(sid: string, playerIds: seq<string>)
      requires Valid()
      modifies this
      ensures Valid()
      ensures Contents() == After(old(Contents()), Create(sid, playerIds))
      ensures forall i | i in sessions :: if i == sid then fresh(sessions[i]) else i in old(sessions) && sessions[i] == old(sessions)[i]
    {
      var session := new Session(playerIds);
      sessions := sessions[sid := session];
    }

    method RecordResult(sid: string, playerId: string, result: int32, score: int32) returns (r: Outcome)
      requires Valid()
      modifies sessions.Values
      ensures Valid() && sessions == old(sessions)
      ensures r == Reply(old(Contents()), sid, Submission(playerId, result, score))
      ensures r == SessionNotFound <==> sid !in sessions
      ensures sid in sessions ==>
                && (r == PlayerNotInSession <==> playerId !in sessions[sid].playerIds)
                && (r == DuplicateSubmission <==> playerId in sessions[sid].playerIds && playerId in old(sessions[sid].results))
                && (r == InvalidResult <==> playerId in sessions[sid].playerIds && playerId !in old(sessions[sid].results)
                                            && !(1 <= result <= 3))
                && (r.Recorded? ==>
                      && Awarded(result, r.delta)
                      && sessions[sid].results ==
                         old(sessions[sid].results)[playerId := ResultEntry(playerId, result, score, r.delta)])
                && (!r.Recorded? ==> sessions[sid].results == old(sessions[sid].results))
      ensures Contents() == After(old(Contents()), Record(sid, Submission(playerId, result, score)))
    {
      if sid !in sessions {
        return SessionNotFound;
      }
      r := sessions[sid].Submit(playerId, result, score);
    }

    method ActiveCount() returns (count: nat)
      ensures count == |Active(Contents())|
    {
      count := 0;
      var rest := sessions.Keys;
      ghost var active := Active(Contents());
      assert forall sid | sid in sessions :: sid in active <==> !sessions[sid].finalized;
      while rest != {}
        invariant rest <= sessions.Keys
        invariant count == |active - rest|
        decreases rest
      {
        var sid := AnyKey(rest);
        CountOne(active, rest, sid);
        rest := rest - {sid};
        if !sessions[sid].finalized {
          count := count + 1;
        }
      }
      assert active - {} == active;
    }
  }

  lemma CountOne(active: set<string>, rest: set<string>, sid: string)
    requires sid in rest
    ensures |active - (rest - {sid})| == |active - rest| + if sid in active then 1 else 0
  {
    assert active - (rest - {sid}) == (active - rest) + if sid in active then {sid} else {};
  }
}
