/** Session records: who plays, what each player submitted, when it is final. */
module Sessions {
  import opened Collections
  import opened Players

  const MMR_WIN_DELTA := 25
  const MMR_LOSS_DELTA := -25
  const MMR_DRAW_DELTA := 0

  datatype ResultEntry = ResultEntry(playerId: string, result: int32, score: int32, mmrDelta: int32)

  /** A session as a value. */
  datatype SessionState = SessionState(playerIds: seq<string>, results: map<string, ResultEntry>, finalized: bool)

  datatype Submission = Submission(playerId: string, result: int32, score: int32)

  datatype Outcome =
    | Recorded(delta: int32)
    | SessionNotFound
    | PlayerNotInSession
    | DuplicateSubmission
    | InvalidResult

  function Delta(result: int32): Option<int32> {
    if result == 1 then Some(MMR_WIN_DELTA)
    else if result == 2 then Some(MMR_LOSS_DELTA)
    else if result == 3 then Some(MMR_DRAW_DELTA)
    else None
  }

  /** What a result is worth; no other result is worth anything. */
  predicate Awarded(result: int32, delta: int32) {
    (result == 1 && delta == 25) || (result == 2 && delta == -25) || (result == 3 && delta == 0)
  }

  lemma DeltaIs(result: int32)
    ensures Delta(result).Some? <==> 1 <= result <= 3
    ensures forall d: int32 :: Delta(result) == Some(d) <==> Awarded(result, d)
  {
  }

  function NewSession(playerIds: seq<string>): SessionState {
    SessionState(playerIds, map[], false)
  }

  function Check(st: SessionState, sub: Submission): Outcome {
    if sub.playerId !in st.playerIds then PlayerNotInSession
    else if sub.playerId in st.results then DuplicateSubmission
    else match Delta(sub.result)
      case None => InvalidResult
      case Some(d) => Recorded(d)
  }

  function Submitted(st: SessionState, sub: Submission): SessionState {
    match Check(st, sub)
    case Recorded(d) =>
      var results := st.results[sub.playerId := ResultEntry(sub.playerId, sub.result, sub.score, d)];
      SessionState(st.playerIds, results, |results| == |st.playerIds| || st.finalized)
    case _ => st
  }

  /** A session after any submissions, accepted or not. */
  function AfterAll(st: SessionState, subs: seq<Submission>): SessionState
    decreases |subs|
  {
    if subs == [] then st else Submitted(AfterAll(st, subs[..|subs| - 1]), subs[|subs| - 1])
  }

  /** How a submission is answered, and what it leaves. */
  lemma AnswerIs(st: SessionState, sub: Submission)
    ensures Check(st, sub) == PlayerNotInSession <==> sub.playerId !in st.playerIds
    ensures Check(st, sub) == DuplicateSubmission <==> sub.playerId in st.playerIds && sub.playerId in st.results
    ensures Check(st, sub) == InvalidResult <==>
              sub.playerId in st.playerIds && sub.playerId !in st.results && !(1 <= sub.result <= 3)
    ensures forall d :: Check(st, sub) == Recorded(d) <==>
              sub.playerId in st.playerIds && sub.playerId !in st.results && Awarded(sub.result, d)
    ensures Check(st, sub) != SessionNotFound
    ensures !Check(st, sub).Recorded? ==> Submitted(st, sub) == st
    ensures forall d | Check(st, sub) == Recorded(d) ::
              && Submitted(st, sub).playerIds == st.playerIds
              && Submitted(st, sub).results == st.results[sub.playerId := ResultEntry(sub.playerId, sub.result, sub.score, d)]
  {
  }

  // ------------------------------------------------------------------
  // Finalization
  // ------------------------------------------------------------------

  /** Every entry belongs to a player of the session and carries the delta of its
      result; the session is final when there are as many entries as ids. */
  ghost predicate EntriesOk(st: SessionState) {
    && (forall id | id in st.results ::
          && id in st.playerIds && st.results[id].playerId == id
          && Awarded(st.results[id].result, st.results[id].mmrDelta))
    && (st.finalized <==> st.results != map[] && |st.results| == |st.playerIds|)
  }

  /** As many entries as ids: the ids are distinct and each has its entry. */
  lemma EntriesFit(st: SessionState)
    requires EntriesOk(st)
    ensures |st.results| == |st.playerIds| <==> Distinct(st.playerIds) && st.results.Keys == Elements(st.playerIds)
  {
    ElementsCount(st.playerIds);
    hide Distinct;
    var absent := Elements(st.playerIds) - st.results.Keys;
    assert Elements(st.playerIds) == st.results.Keys + absent;
    assert |Elements(st.playerIds)| == |st.results| + |absent|;
  }

  lemma SubmittedOk(st: SessionState, sub: Submission)
    requires EntriesOk(st)
    ensures EntriesOk(Submitted(st, sub))
  {
    EntriesFit(st);
    hide Distinct;
    assert sub.playerId in st.playerIds ==> sub.playerId in Elements(st.playerIds);
    assert Check(st, sub).Recorded? ==> !st.finalized;
  }

  lemma {:induction false} AfterAllOk(playerIds: seq<string>, subs: seq<Submission>)
    ensures EntriesOk(AfterAll(NewSession(playerIds), subs)) && AfterAll(NewSession(playerIds), subs).playerIds == playerIds
    decreases |subs|
  {
    hide EntriesOk;
    if subs == [] {
      NewSessionOk(playerIds);
    } else {
      AfterAllOk(playerIds, subs[..|subs| - 1]);
      SubmittedOk(AfterAll(NewSession(playerIds), subs[..|subs| - 1]), subs[|subs| - 1]);
    }
  }

  lemma NewSessionOk(playerIds: seq<string>)
    ensures EntriesOk(NewSession(playerIds))
  {
  }

  /** A submission of the player with a result that counts: win, loss or draw. */
  ghost predicate SubmittedBy(subs: seq<Submission>, id: string) {
    exists sub :: sub in subs && sub.playerId == id && 1 <= sub.result <= 3
  }

  lemma LastSubmittedBy(before: seq<Submission>, last: Submission, id: string)
    ensures SubmittedBy(before + [last], id) <==> SubmittedBy(before, id) || (last.playerId == id && 1 <= last.result <= 3)
  {
    assert last in before + [last];
    if SubmittedBy(before, id) {
      var sub :| sub in before && sub.playerId == id && 1 <= sub.result <= 3;
      assert sub in before + [last];
    }
  }

  /** A player of the session has an entry exactly when it made a valid submission,
      whatever else was submitted before, between and after. */
  lemma {:induction false} EntryMeansSubmitted(playerIds: seq<string>, subs: seq<Submission>, id: string)
    requires id in playerIds
    ensures id in AfterAll(NewSession(playerIds), subs).results <==> SubmittedBy(subs, id)
    decreases |subs|
  {
    hide SubmittedBy;
    if subs == [] {
      NothingSubmitted(id);
    } else {
      var before, last := subs[..|subs| - 1], subs[|subs| - 1];
      assert subs == before + [last];
      EntryMeansSubmitted(playerIds, before, id);
      AfterAllOk(playerIds, before);
      LastSubmittedBy(before, last, id);
      hide EntriesOk;
    }
  }

  lemma NothingSubmitted(id: string)
    ensures !SubmittedBy([], id)
  {
  }

  /** After any submissions whatever, a session is final exactly when its ids are
      distinct, there is one, and every player has made a valid submission. */
  lemma FinalExactlyWhenAllSubmitted(playerIds: seq<string>, subs: seq<Submission>)
    ensures AfterAll(NewSession(playerIds), subs).finalized <==>
            playerIds != [] && Distinct(playerIds) && forall id | id in playerIds :: SubmittedBy(subs, id)
  {
    hide EntriesOk, SubmittedBy, Distinct;
    AfterAllOk(playerIds, subs);
    AllHaveEntries(AfterAll(NewSession(playerIds), subs));
    forall id | id in playerIds
      ensures id in AfterAll(NewSession(playerIds), subs).results <==> SubmittedBy(subs, id)
    {
      EntryMeansSubmitted(playerIds, subs, id);
    }
    hide AfterAll;
  }

  lemma AllHaveEntries(st: SessionState)
    requires EntriesOk(st)
    ensures st.finalized <==> st.playerIds != [] && Distinct(st.playerIds) && forall id | id in st.playerIds :: id in st.results
  {
    EntriesFit(st);
    hide Distinct;
    var ids := st.playerIds;
    if ids != [] {
      assert ids[0] in ids;
    }
    assert (forall id | id in ids :: id in st.results) <==> st.results.Keys == Elements(ids) by {
      assert forall id :: id in ids <==> id in Elements(ids);
    }
  }

  /** Results are written once, and a final session stays final. */
  lemma {:induction false} ResultsAreWriteOnce(st: SessionState, subs: seq<Submission>)
    ensures AfterAll(st, subs).playerIds == st.playerIds
    ensures forall id | id in st.results :: id in AfterAll(st, subs).results && AfterAll(st, subs).results[id] == st.results[id]
    ensures st.finalized ==> AfterAll(st, subs).finalized
    decreases |subs|
  {
    if subs != [] {
      ResultsAreWriteOnce(st, subs[..|subs| - 1]);
    }
  }

  // ------------------------------------------------------------------
  // Order of submissions
  // ------------------------------------------------------------------

  /** Every submission is accepted in turn. */
  ghost predicate AllRecorded(st: SessionState, subs: seq<Submission>)
    decreases |subs|
  {
    subs == [] || (AllRecorded(st, subs[..|subs| - 1]) && Check(AfterAll(st, subs[..|subs| - 1]), subs[|subs| - 1]).Recorded?)
  }

  ghost predicate Welcome(st: SessionState, sub: Submission) {
    sub.playerId in st.playerIds && sub.playerId !in st.results && 1 <= sub.result <= 3
  }

  predicate DifferentPlayers(subs: seq<Submission>) {
    forall i, j | 0 <= i < j < |subs| :: subs[i].playerId != subs[j].playerId
  }

  /** The same thing said without running them. */
  ghost predicate Acceptable(st: SessionState, subs: seq<Submission>) {
    (forall sub | sub in subs :: Welcome(st, sub)) && DifferentPlayers(subs)
  }

  predicate Writes(sub: Submission, entry: ResultEntry) {
    && entry.playerId == sub.playerId && entry.result == sub.result && entry.score == sub.score
    && Awarded(sub.result, entry.mmrDelta)
  }

  /** An entry written for one of the submissions. */
  ghost predicate WrittenFor(subs: seq<Submission>, entry: ResultEntry) {
    exists sub :: sub in subs && Writes(sub, entry)
  }

  /** The results afterwards: what was there, and an entry per submission. */
  ghost predicate RecordsExactly(st: SessionState, subs: seq<Submission>, results: map<string, ResultEntry>) {
    && results.Keys == st.results.Keys + Submitters(subs)
    && (forall id | id in st.results :: results[id] == st.results[id])
    && (forall id | id in Submitters(subs) :: results[id].playerId == id && WrittenFor(subs, results[id]))
  }

  function Submitters(subs: seq<Submission>): set<string> {
    set sub | sub in subs :: sub.playerId
  }

  lemma OneMore(subs: seq<Submission>, sub: Submission)
    ensures Submitters(subs + [sub]) == Submitters(subs) + {sub.playerId}
    ensures DifferentPlayers(subs + [sub]) <==> DifferentPlayers(subs) && sub.playerId !in Submitters(subs)
    ensures forall e: ResultEntry :: WrittenFor(subs, e) ==> WrittenFor(subs + [sub], e)
  {
    var all := subs + [sub];
    if DifferentPlayers(all) {
      forall i, j | 0 <= i < j < |subs| ensures subs[i].playerId != subs[j].playerId {
        assert all[i].playerId != all[j].playerId;
      }
      forall i | 0 <= i < |subs| ensures subs[i].playerId != sub.playerId {
        assert all[i].playerId != all[|subs|].playerId;
      }
    }
  }

  /** What is there after acceptable submissions is theirs and nothing else. */
  lemma {:induction false} AcceptableAreAccepted(st: SessionState, subs: seq<Submission>)
    requires Acceptable(st, subs)
    ensures AllRecorded(st, subs) && RecordsExactly(st, subs, AfterAll(st, subs).results) && AfterAll(st, subs).playerIds == st.playerIds
    decreases |subs|
  {
    hide Acceptable, RecordsExactly, Submitted, Check, Welcome;
    if subs == [] {
      NothingHolds(st);
    } else {
      var before, last := subs[..|subs| - 1], subs[|subs| - 1];
      assert subs == before + [last];
      LastAcceptable(st, before, last);
      AcceptableAreAccepted(st, before);
      NextEntry(st, before, last, AfterAll(st, before));
    }
  }

  lemma NothingHolds(st: SessionState)
    ensures RecordsExactly(st, [], st.results)
  {
  }

  lemma LastAcceptable(st: SessionState, before: seq<Submission>, last: Submission)
    ensures Acceptable(st, before + [last]) <==> Acceptable(st, before) && Welcome(st, last) && last.playerId !in Submitters(before)
  {
    OneMore(before, last);
    hide Welcome, DifferentPlayers;
    assert forall sub :: sub in before + [last] <==> sub in before || sub == last;
  }

  lemma NextEntry(st: SessionState, before: seq<Submission>, last: Submission, mid: SessionState)
    requires RecordsExactly(st, before, mid.results) && mid.playerIds == st.playerIds
    requires Welcome(st, last) && last.playerId !in Submitters(before)
    ensures Check(mid, last).Recorded? && Submitted(mid, last).playerIds == st.playerIds
    ensures RecordsExactly(st, before + [last], Submitted(mid, last).results)
  {
    var entry := ResultEntry(last.playerId, last.result, last.score, Delta(last.result).value);
    assert Submitted(mid, last).results == mid.results[last.playerId := entry];
    EntryHolds(st, before, last, mid.results, entry);
  }

  lemma EntryHolds(
    st: SessionState, before: seq<Submission>, last: Submission, m: map<string, ResultEntry>, entry: ResultEntry)
    requires RecordsExactly(st, before, m) && Writes(last, entry) && last.playerId !in m
    ensures RecordsExactly(st, before + [last], m[last.playerId := entry])
  {
    hide Writes, DifferentPlayers;
    OneMore(before, last);
    assert last in before + [last];
    assert WrittenFor(before + [last], entry);
    assert entry.playerId == last.playerId by { WritesItsPlayer(last, entry); }
    hide WrittenFor;
  }

  lemma WritesItsPlayer(sub: Submission, entry: ResultEntry)
    requires Writes(sub, entry)
    ensures entry.playerId == sub.playerId
  {
  }

  lemma {:induction false} AcceptedWereAcceptable(st: SessionState, subs: seq<Submission>)
    requires AllRecorded(st, subs)
    ensures Acceptable(st, subs)
    decreases |subs|
  {
    hide Acceptable, RecordsExactly, Submitted, Welcome;
    if subs == [] {
      NoneAcceptable(st);
    } else {
      var before, last := subs[..|subs| - 1], subs[|subs| - 1];
      assert subs == before + [last];
      AcceptedWereAcceptable(st, before);
      AcceptableAreAccepted(st, before);
      RecordedWasWelcome(st, before, last, AfterAll(st, before));
      LastAcceptable(st, before, last);
    }
  }

  lemma NoneAcceptable(st: SessionState)
    ensures Acceptable(st, [])
  {
  }

  lemma RecordedWasWelcome(st: SessionState, before: seq<Submission>, last: Submission, mid: SessionState)
    requires RecordsExactly(st, before, mid.results) && mid.playerIds == st.playerIds && Check(mid, last).Recorded?
    ensures Welcome(st, last) && last.playerId !in Submitters(before)
  {
  }

  /** Accepted submissions may come in any order: a reordering is accepted as well and
      ends with the same results and the same flag. */
  lemma OrderDoesNotMatter(playerIds: seq<string>, a: seq<Submission>, b: seq<Submission>)
    requires AllRecorded(NewSession(playerIds), a) && multiset(a) == multiset(b)
    ensures AllRecorded(NewSession(playerIds), b)
    ensures AfterAll(NewSession(playerIds), b) == AfterAll(NewSession(playerIds), a)
  {
    hide Acceptable, RecordsExactly, AllRecorded;
    var st := NewSession(playerIds);
    AcceptedWereAcceptable(st, a);
    SameSubmissions(st, a, b);
    AcceptableAreAccepted(st, a);
    AcceptableAreAccepted(st, b);
    SameResults(st, a, b, AfterAll(st, a).results, AfterAll(st, b).results);
    AfterAllOk(playerIds, a);
    AfterAllOk(playerIds, b);
  }

  lemma SameSubmissions(st: SessionState, a: seq<Submission>, b: seq<Submission>)
    requires Acceptable(st, a) && multiset(a) == multiset(b)
    ensures Acceptable(st, b) && DifferentPlayers(a) && forall sub :: sub in a <==> sub in b
  {
    hide Welcome;
    forall sub ensures sub in a <==> sub in b {
      assert sub in multiset(a) <==> sub in multiset(b);
    }
    forall i, j | 0 <= i < j < |b| ensures b[i].playerId != b[j].playerId {
      assert b[i] in b && b[j] in b;
      if b[i].playerId == b[j].playerId {
        OncePerPlayer(a, b[i], b[j]);
        TwiceCounted(b, i, j);
        OnceEach(a, b[i]);
        assert false;
      }
    }
  }

  lemma OncePerPlayer(a: seq<Submission>, x: Submission, y: Submission)
    requires DifferentPlayers(a) && x in a && y in a && x.playerId == y.playerId
    ensures x == y
  {
  }

  lemma {:induction false} OnceEach(a: seq<Submission>, sub: Submission)
    requires DifferentPlayers(a)
    ensures multiset(a)[sub] <= 1
  {
    if a != [] {
      var n := |a| - 1;
      assert a == a[..n] + [a[n]];
      OnceEach(a[..n], sub);
      assert a[n] !in a[..n];
    }
  }

  lemma WritesOne(sub: Submission, e: ResultEntry, f: ResultEntry)
    requires Writes(sub, e) && Writes(sub, f)
    ensures e == f
  {
  }

  lemma SameResults(
    st: SessionState, a: seq<Submission>, b: seq<Submission>, m: map<string, ResultEntry>, n: map<string, ResultEntry>)
    requires RecordsExactly(st, a, m) && RecordsExactly(st, b, n) && DifferentPlayers(a)
    requires forall sub :: sub in a <==> sub in b
    ensures m == n
  {
    hide Writes, DifferentPlayers;
    assert Submitters(a) == Submitters(b);
    forall id | id in m ensures m[id] == n[id] {
      if id in Submitters(a) {
        var x :| x in a && Writes(x, m[id]);
        var y :| y in b && Writes(y, n[id]);
        WritesItsPlayer(x, m[id]);
        WritesItsPlayer(y, n[id]);
        OncePerPlayer(a, x, y);
        WritesOne(x, m[id], n[id]);
      }
    }
  }

  // ------------------------------------------------------------------
  // Deltas
  // ------------------------------------------------------------------

  /** Total of the deltas handed out to the given ids. */
  function TotalDelta(ids: seq<string>, results: map<string, ResultEntry>): int {
    if ids == [] then 0
    else TotalDelta(ids[1..], results) + if ids[0] in results then results[ids[0]].mmrDelta else 0
  }

  function CountOf(ids: seq<string>, results: map<string, ResultEntry>, result: int32): nat {
    if ids == [] then 0
    else CountOf(ids[1..], results, result) + if ids[0] in results && results[ids[0]].result == result then 1 else 0
  }

  /** The deltas handed out add up to 25 for each win less 25 for each loss. */
  lemma {:induction false} DeltasBalance(st: SessionState, ids: seq<string>)
    requires EntriesOk(st)
    ensures TotalDelta(ids, st.results) == 25 * (CountOf(ids, st.results, 1) - CountOf(ids, st.results, 2))
  {
    if ids != [] {
      DeltasBalance(st, ids[1..]);
    }
  }
}
