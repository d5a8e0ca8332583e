/** The status messages a gateway attempts to send, and the order they come in. */
module StatusStream {

  datatype Status =
    | WAITING
    | READY_CHECK(session: nat)
    | IN_GAME(session: nat)
    | CANCELLED

  /** Where a stream stands after the messages sent so far. */
  datatype Progress = Silent | Searching | Asked(session: nat) | Over | Broken

  function Advance(p: Progress, m: Status): Progress {
    match (p, m)
    case (Silent, WAITING) => Searching
    case (Searching, WAITING) => Searching
    case (Searching, READY_CHECK(x)) => Asked(x)
    case (Searching, CANCELLED) => Over
    case (Asked(x), WAITING) => Searching
    case (Asked(x), IN_GAME(y)) => if x == y then Over else Broken
    case (Asked(x), CANCELLED) => Over
    case _ => Broken
  }

  function Read(sent: seq<Status>): Progress {
    if sent == [] then Silent else Advance(Read(sent[..|sent| - 1]), sent[|sent| - 1])
  }

  /** The stream language, as a grammar: WAITING, any number of rounds, one ending. */
  ghost predicate Round(s: seq<Status>) {
    s == [WAITING] || exists x :: s == [READY_CHECK(x), WAITING]
  }

  ghost predicate Ending(s: seq<Status>) {
    || s == [CANCELLED]
    || (exists x :: s == [READY_CHECK(x), IN_GAME(x)])
    || (exists x :: s == [READY_CHECK(x), CANCELLED])
  }

  function Concat(rounds: seq<seq<Status>>): seq<Status> {
    if rounds == [] then [] else Concat(rounds[..|rounds| - 1]) + rounds[|rounds| - 1]
  }

  ghost predicate Rounds(rounds: seq<seq<Status>>) {
    forall r | r in rounds :: Round(r)
  }

  ghost predicate Complete(s: seq<Status>) {
    exists rounds, ending :: Rounds(rounds) && Ending(ending) && s == [WAITING] + Concat(rounds) + ending
  }

  ghost predicate PrefixOfComplete(s: seq<Status>) {
    exists rest :: Complete(s + rest)
  }

  /** A stream that never breaks the automaton is a prefix of a complete one. */
  lemma UnbrokenIsPrefix(s: seq<Status>)
    requires Read(s) != Broken
    ensures PrefixOfComplete(s)
  {
    match Read(s)
    case Silent =>
      SilentIsEmpty(s);
      Finish([], [CANCELLED]);
      assert s + [WAITING, CANCELLED] == [WAITING] + Concat([]) + [CANCELLED];
    case Searching =>
      var rounds := SearchingRounds(s);
      Finish(rounds, [CANCELLED]);
      assert s + [CANCELLED] == [WAITING] + Concat(rounds) + [CANCELLED];
    case Asked(x) =>
      var before := AskedShape(s);
      var rounds := SearchingRounds(before);
      Finish(rounds, [READY_CHECK(x), CANCELLED]);
      assert s + [CANCELLED] == [WAITING] + Concat(rounds) + [READY_CHECK(x), CANCELLED];
    case Over =>
      var rounds, ending := OverEnds(s);
      Finish(rounds, ending);
      assert s + [] == [WAITING] + Concat(rounds) + ending;
  }

  lemma Finish(rounds: seq<seq<Status>>, ending: seq<Status>)
    requires Rounds(rounds) && Ending(ending)
    ensures Complete([WAITING] + Concat(rounds) + ending)
  {
  }

  lemma SilentIsEmpty(s: seq<Status>)
    requires Read(s) == Silent
    ensures s == []
  {
  }

  lemma AskedShape(s: seq<Status>) returns (before: seq<Status>)
    requires Read(s).Asked?
    ensures s == before + [READY_CHECK(Read(s).session)] && Read(before) == Searching
  {
    before := s[..|s| - 1];
  }

  lemma SearchingShape(s: seq<Status>) returns (before: seq<Status>)
    requires Read(s) == Searching
    ensures s == before + [WAITING]
    ensures Read(before) == Silent || Read(before) == Searching || Read(before).Asked?
  {
    before := s[..|s| - 1];
  }

  lemma {:induction false} SearchingRounds(s: seq<Status>) returns (rounds: seq<seq<Status>>)
    requires Read(s) == Searching
    ensures Rounds(rounds) && s == [WAITING] + Concat(rounds)
    decreases |s|
  {
    var t := SearchingShape(s);
    match Read(t)
    case Silent =>
      SilentIsEmpty(t);
      rounds := [];
    case Searching =>
      var sofar := SearchingRounds(t);
      AddRound(sofar, [WAITING]);
      rounds := sofar + [[WAITING]];
    case Asked(x) =>
      var u := AskedShape(t);
      assert s == u + [READY_CHECK(x), WAITING];
      var sofar := SearchingRounds(u);
      AddRound(sofar, [READY_CHECK(x), WAITING]);
      rounds := sofar + [[READY_CHECK(x), WAITING]];
  }

  lemma AddRound(rounds: seq<seq<Status>>, r: seq<Status>)
    requires Rounds(rounds) && Round(r)
    ensures Rounds(rounds + [r]) && Concat(rounds + [r]) == Concat(rounds) + r
  {
    assert (rounds + [r])[..|rounds|] == rounds;
  }

  lemma OverEnds(s: seq<Status>) returns (rounds: seq<seq<Status>>, ending: seq<Status>)
    requires Read(s) == Over
    ensures Rounds(rounds) && Ending(ending) && s == [WAITING] + Concat(rounds) + ending
  {
    var t, last := s[..|s| - 1], s[|s| - 1];
    assert s == t + [last];
    if Read(t) == Searching {
      rounds := SearchingRounds(t);
      ending := [last];
    } else {
      var x := Read(t).session;
      var u := AskedShape(t);
      rounds := SearchingRounds(u);
      ending := [READY_CHECK(x), last];
    }
  }

  /** Conversely, the automaton never breaks on a prefix of a complete stream. */
  lemma PrefixIsUnbroken(s: seq<Status>)
    requires PrefixOfComplete(s)
    ensures Read(s) != Broken
  {
    var rest :| Complete(s + rest);
    var rounds, ending :| Rounds(rounds) && Ending(ending) && s + rest == [WAITING] + Concat(rounds) + ending;
    RoundsSearch(rounds);
    EndingIsOver([WAITING] + Concat(rounds), ending);
    BrokenStays(s, rest);
  }

  lemma EndingIsOver(t: seq<Status>, ending: seq<Status>)
    requires Read(t) == Searching && Ending(ending)
    ensures Read(t + ending) == Over
  {
    if ending == [CANCELLED] {
      assert (t + ending)[..|t|] == t;
    } else {
      assert (t + ending)[..|t| + 1] == t + ending[..1];
      assert (t + ending[..1])[..|t|] == t;
    }
  }

  lemma {:induction false} RoundsSearch(rounds: seq<seq<Status>>)
    requires Rounds(rounds)
    ensures Read([WAITING] + Concat(rounds)) == Searching
    decreases |rounds|
  {
    if rounds == [] {
      assert Read([WAITING][..0]) == Silent;
    } else {
      var n := |rounds| - 1;
      var r := rounds[n];
      RoundsSearch(rounds[..n]);
      var t := [WAITING] + Concat(rounds[..n]);
      assert [WAITING] + Concat(rounds) == t + r;
      assert Round(r);
      if r == [WAITING] {
        assert (t + r)[..|t|] == t;
      } else {
        assert (t + r)[..|t| + 1] == t + r[..1] && (t + r[..1])[..|t|] == t;
      }
    }
  }

  lemma {:induction false} BrokenStays(s: seq<Status>, rest: seq<Status>)
    requires Read(s + rest) != Broken
    ensures Read(s) != Broken
    decreases |rest|
  {
    if rest == [] {
      assert s + rest == s;
    } else {
      assert (s + rest)[..|s + rest| - 1] == s + rest[..|rest| - 1];
      BrokenStays(s, rest[..|rest| - 1]);
    }
  }
}
