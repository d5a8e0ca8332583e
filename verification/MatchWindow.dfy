/** The scored sliding window over the sorted candidates. */
module MatchWindow {
  import opened Collections
  import opened Players
  import opened Ordered

  /** Start value of the best score; a window must beat it to be chosen. */
  const SENTINEL := 100010.0 // (MAX_MMR + 1) * 10

  const PLAYERS_AS_REAL := 10.0

  function Wait(q: QueuedPlayer, now: real): real {
    now - q.enqueuedAt
  }

  function TotalWait(w: seq<QueuedPlayer>, now: real): real {
    if w == [] then 0.0 else TotalWait(w[..|w| - 1], now) + Wait(w[|w| - 1], now)
  }

  function AvgWait(w: seq<QueuedPlayer>, now: real): real {
    TotalWait(w, now) / PLAYERS_AS_REAL
  }

  /** The subtraction is done in 32 bits. */
  function Spread(w: seq<QueuedPlayer>): int
    requires w != []
  {
    Wrap32(w[|w| - 1].mmr - w[0].mmr)
  }

  function Score(w: seq<QueuedPlayer>, now: real): real
    requires w != []
  {
    Spread(w) as real - AvgWait(w, now) * WAIT_WEIGHT
  }

  predicate IsWindow(c: seq<QueuedPlayer>, i: int) {
    0 <= i <= |c| - PLAYERS_PER_MATCH
  }

  function Window(c: seq<QueuedPlayer>, i: int): (w: seq<QueuedPlayer>)
    requires IsWindow(c, i)
    ensures |w| == PLAYERS_PER_MATCH
  {
    c[i..i + PLAYERS_PER_MATCH]
  }

  /** `start` is the first window of least score, or 0 when none beats the sentinel. */
  ghost predicate IsChoice(c: seq<QueuedPlayer>, now: real, start: int)
    requires IsWindow(c, start)
  {
    var best := Score(Window(c, start), now);
    || (&& best < SENTINEL
        && (forall i | IsWindow(c, i) :: best <= Score(Window(c, i), now))
        && (forall i | 0 <= i < start :: best < Score(Window(c, i), now)))
    || (start == 0 && forall i | IsWindow(c, i) :: SENTINEL <= Score(Window(c, i), now))
  }

  method WindowScore(c: array<QueuedPlayer>, len: nat, now: real, i: nat) returns (score: real)
    requires len <= c.Length && IsWindow(c[..len], i)
    ensures score == Score(Window(c[..len], i), now)
  {
    var spread := Wrap32(c[i + PLAYERS_PER_MATCH - 1].mmr - c[i].mmr) as real;
    var totalWaitSec := 0.0;
    ghost var w := Window(c[..len], i);
    assert w[0] == c[i] && w[PLAYERS_PER_MATCH - 1] == c[i + PLAYERS_PER_MATCH - 1];
    assert spread == Spread(w) as real;
    var j := i;
    while j < i + PLAYERS_PER_MATCH
      invariant i <= j <= i + PLAYERS_PER_MATCH
      invariant totalWaitSec == TotalWait(w[..j - i], now)
    {
      assert w[..j - i + 1][..j - i] == w[..j - i];
      totalWaitSec := totalWaitSec + (now - c[j].enqueuedAt);
      j := j + 1;
    }
    assert w[..PLAYERS_PER_MATCH] == w;
    var avgWait := totalWaitSec / PLAYERS_AS_REAL;
    assert avgWait == AvgWait(w, now);
    score := spread - avgWait * WAIT_WEIGHT;
  }

  method ChooseWindow(c: array<QueuedPlayer>, len: nat, now: real) returns (bestStart: nat)
    requires PLAYERS_PER_MATCH <= len <= c.Length
    ensures IsWindow(c[..len], bestStart) && IsChoice(c[..len], now, bestStart)
  {
    ghost var s := c[..len];
    bestStart := 0;
    var bestScore := SENTINEL;
    var i := 0;
    while i <= len - PLAYERS_PER_MATCH
      invariant 0 <= i <= len - PLAYERS_PER_MATCH + 1
      invariant IsWindow(s, bestStart) && bestStart <= i
      invariant forall j | 0 <= j < i :: bestScore <= Score(Window(s, j), now)
      invariant forall j | 0 <= j < bestStart :: bestScore < Score(Window(s, j), now)
      invariant || (bestStart == 0 && bestScore == SENTINEL)
                || (bestStart < i && bestScore == Score(Window(s, bestStart), now) && bestScore < SENTINEL)
    {
      var score := WindowScore(c, len, now, i);
      if score < bestScore {
        bestScore := score;
        bestStart := i;
      }
      i := i + 1;
    }
  }

  // ------------------------------------------------------------------
  // What the choice guarantees
  // ------------------------------------------------------------------

  /** Candidates as an extraction sees them: sorted, rated from 0 up and within
      five brackets of each other, and enqueued before `now`. */
  ghost predicate Near(c: seq<QueuedPlayer>, now: real) {
    && Sorted(c)
    && (forall q | q in c :: 0 <= q.mmr && q.enqueuedAt <= now)
    && (forall p, q | p in c && q in c :: p.mmr - q.mmr <= MAX_SPREAD)
  }

  const MAX_SPREAD := (2 * MAX_BRACKET_EXPANSION + 1) * BRACKET_SIZE - 1

  lemma {:induction false} TotalWaitCovers(w: seq<QueuedPlayer>, now: real, q: QueuedPlayer)
    requires forall x | x in w :: x.enqueuedAt <= now
    ensures 0.0 <= TotalWait(w, now)
    ensures q in w ==> Wait(q, now) <= TotalWait(w, now)
  {
    if w != [] {
      var n := |w| - 1;
      assert w == w[..n] + [w[n]];
      TotalWaitCovers(w[..n], now, q);
    }
  }

  lemma WindowFacts(c: seq<QueuedPlayer>, now: real, i: int)
    requires Near(c, now) && IsWindow(c, i)
    ensures Spread(Window(c, i)) == c[i + PLAYERS_PER_MATCH - 1].mmr - c[i].mmr
    ensures 0 <= Spread(Window(c, i)) <= MAX_SPREAD
    ensures 0.0 <= AvgWait(Window(c, i), now)
    ensures Score(Window(c, i), now) <= Spread(Window(c, i)) as real
  {
    var w := Window(c, i);
    assert w[0] == c[i] && w[PLAYERS_PER_MATCH - 1] == c[i + PLAYERS_PER_MATCH - 1];
    assert c[i] in c && c[i + PLAYERS_PER_MATCH - 1] in c;
    TotalWaitCovers(w, now, w[0]);
  }

  /** The ten enqueue times of a window, added up. */
  function EnqueuedSum(w: seq<QueuedPlayer>): real
    requires |w| == PLAYERS_PER_MATCH
  {
    w[0].enqueuedAt + w[1].enqueuedAt + w[2].enqueuedAt + w[3].enqueuedAt + w[4].enqueuedAt
    + w[5].enqueuedAt + w[6].enqueuedAt + w[7].enqueuedAt + w[8].enqueuedAt + w[9].enqueuedAt
  }

  lemma OneMoreWait(w: seq<QueuedPlayer>, now: real, k: nat)
    requires k < |w|
    ensures TotalWait(w[..k + 1], now) == TotalWait(w[..k], now) + (now - w[k].enqueuedAt)
  {
    assert w[..k + 1][..k] == w[..k];
  }

  lemma FiveMoreWaits(w: seq<QueuedPlayer>, now: real, k: nat)
    requires k + 5 <= |w|
    ensures TotalWait(w[..k + 5], now) ==
            TotalWait(w[..k], now) + 5.0 * now
            - (w[k].enqueuedAt + w[k + 1].enqueuedAt + w[k + 2].enqueuedAt + w[k + 3].enqueuedAt + w[k + 4].enqueuedAt)
  {
    hide TotalWait;
    OneMoreWait(w, now, k);
    OneMoreWait(w, now, k + 1);
    OneMoreWait(w, now, k + 2);
    OneMoreWait(w, now, k + 3);
    OneMoreWait(w, now, k + 4);
  }

  lemma TotalWaitIs(w: seq<QueuedPlayer>, now: real)
    requires |w| == PLAYERS_PER_MATCH
    ensures TotalWait(w, now) == 10.0 * now - EnqueuedSum(w)
  {
    hide TotalWait;
    FiveMoreWaits(w, now, 0);
    FiveMoreWaits(w, now, 5);
    NoWait(now);
    assert w[..|w|] == w && w[..0] == [];
  }

  lemma NoWait(now: real)
    ensures TotalWait([], now) == 0.0
  {
  }

  /** The score in ratings and enqueue times alone: the spread, less half a point for
      each second the ten have waited between them. */
  lemma ScoreIs(c: seq<QueuedPlayer>, now: real, i: int)
    requires Near(c, now) && IsWindow(c, i)
    ensures 2.0 * Score(Window(c, i), now) ==
            2.0 * (c[i + 9].mmr - c[i].mmr) as real - (10.0 * now - EnqueuedSum(c[i..i + 10]))
  {
    TotalWaitIs(Window(c, i), now);
    WindowFacts(c, now, i);
    hide TotalWait, EnqueuedSum;
  }

  /** What the choice minimises, in ratings and enqueue times: against any other window
      every point of spread it gives up buys two seconds of waiting between the ten, and
      against an earlier one it gains something. */
  lemma ChoiceWeighs(c: seq<QueuedPlayer>, now: real, start: int, i: int)
    requires Near(c, now) && IsWindow(c, start) && IsChoice(c, now, start) && IsWindow(c, i)
    ensures 2.0 * ((c[start + 9].mmr - c[start].mmr) - (c[i + 9].mmr - c[i].mmr)) as real
            <= EnqueuedSum(c[i..i + 10]) - EnqueuedSum(c[start..start + 10])
    ensures i < start ==>
              2.0 * ((c[start + 9].mmr - c[start].mmr) - (c[i + 9].mmr - c[i].mmr)) as real
              < EnqueuedSum(c[i..i + 10]) - EnqueuedSum(c[start..start + 10])
  {
    ScoreIs(c, now, start);
    ScoreIs(c, now, i);
    ChoiceMinimises(c, now, start, i);
    hide Score, EnqueuedSum;
  }

  /** Any window beats the sentinel, so the choice is a true minimum. */
  lemma ChoiceMinimises(c: seq<QueuedPlayer>, now: real, start: int, i: int)
    requires Near(c, now) && IsWindow(c, start) && IsChoice(c, now, start) && IsWindow(c, i)
    ensures Score(Window(c, start), now) <= Score(Window(c, i), now)
    ensures Score(Window(c, start), now) < SENTINEL
  {
    WindowFacts(c, now, start);
  }

  /** The first position rated at least `lo`. */
  function FirstAtLeast(c: seq<QueuedPlayer>, lo: int): (k: nat)
    ensures k <= |c|
    ensures forall i | 0 <= i < k :: c[i].mmr < lo
    ensures k < |c| ==> lo <= c[k].mmr
  {
    if c == [] || lo <= c[0].mmr then 0 else 1 + FirstAtLeast(c[1..], lo)
  }

  /** Ten candidates rated within [lo, hi] leave room for a window that tight. */
  lemma TightWindow(c: seq<QueuedPlayer>, ten: set<QueuedPlayer>, lo: int, hi: int) returns (i: nat)
    requires Sorted(c) && |ten| == PLAYERS_PER_MATCH
    requires forall q | q in ten :: q in c && lo <= q.mmr <= hi
    ensures IsWindow(c, i) && lo <= c[i].mmr && c[i + PLAYERS_PER_MATCH - 1].mmr <= hi
  {
    i := FirstAtLeast(c, lo);
    var last := i + PLAYERS_PER_MATCH - 1;
    if |c| <= last || hi < c[last].mmr {
      var end := if |c| <= last then |c| else last;
      forall q | q in ten ensures q in Elements(c[i..end]) {
        var p :| 0 <= p < |c| && c[p] == q;
        assert i <= p < end;
        assert c[i..end][p - i] == q;
      }
      SubsetSize(ten, Elements(c[i..end]));
      ElementsCount(c[i..end]);
      assert false;
    }
  }

  /** The chosen score (spread, less half a point per second waited) is at most the spread
      of any ten candidates, and when all have waited equally long the chosen spread is. */
  lemma ChoiceBeatsAnyTen(c: seq<QueuedPlayer>, now: real, start: int, ten: set<QueuedPlayer>, lo: int, hi: int)
    requires Near(c, now) && IsWindow(c, start) && IsChoice(c, now, start)
    requires |ten| == PLAYERS_PER_MATCH
    requires forall q | q in ten :: q in c && lo <= q.mmr <= hi
    ensures 2.0 * (c[start + 9].mmr - c[start].mmr) as real - (10.0 * now - EnqueuedSum(c[start..start + 10]))
            <= 2.0 * (hi - lo) as real
    ensures (forall p, q | p in c && q in c :: p.enqueuedAt == q.enqueuedAt) ==> c[start + 9].mmr - c[start].mmr <= hi - lo
  {
    hide Score, EnqueuedSum, IsChoice;
    var i := TightWindow(c, ten, lo, hi);
    WindowFacts(c, now, start);
    WindowFacts(c, now, i);
    ScoreIs(c, now, start);
    ChoiceMinimises(c, now, start, i);
    if forall p, q | p in c && q in c :: p.enqueuedAt == q.enqueuedAt {
      EqualWaitsSettle(c, now, start, i);
    }
  }

  lemma EqualWaitsSettle(c: seq<QueuedPlayer>, now: real, start: int, i: int)
    requires IsWindow(c, start) && IsWindow(c, i) && Score(Window(c, start), now) <= Score(Window(c, i), now)
    requires forall p, q | p in c && q in c :: p.enqueuedAt == q.enqueuedAt
    ensures Spread(Window(c, start)) <= Spread(Window(c, i))
  {
    hide Spread, TotalWait;
    EqualWaits(Window(c, start), Window(c, i), now);
  }

  lemma {:induction false} EqualWaits(v: seq<QueuedPlayer>, w: seq<QueuedPlayer>, now: real)
    requires |v| == |w|
    requires forall p, q | p in v && q in w :: p.enqueuedAt == q.enqueuedAt
    ensures TotalWait(v, now) == TotalWait(w, now)
  {
    if w != [] {
      EqualWaits(v[..|v| - 1], w[..|w| - 1], now);
    }
  }

  /** Every candidate lies in some window. */
  lemma SomeWindowHolds(c: seq<QueuedPlayer>, q: QueuedPlayer) returns (i: nat)
    requires q in c && PLAYERS_PER_MATCH <= |c|
    ensures IsWindow(c, i) && q in Window(c, i)
  {
    var p :| 0 <= p < |c| && c[p] == q;
    i := if p + PLAYERS_PER_MATCH <= |c| then p else |c| - PLAYERS_PER_MATCH;
    assert Window(c, i)[p - i] == q;
  }

  /** Nobody starves: one candidate with a long wait lifts the average wait of the
      chosen ten. */
  lemma ChoiceHonoursWaits(c: seq<QueuedPlayer>, now: real, start: int, q: QueuedPlayer)
    requires Near(c, now) && IsWindow(c, start) && IsChoice(c, now, start) && q in c
    ensures (now - q.enqueuedAt) / 10.0 - 499.8 <= (10.0 * now - EnqueuedSum(c[start..start + 10])) / 10.0
  {
    hide EnqueuedSum, IsChoice, TotalWait, Spread;
    var i := SomeWindowHolds(c, q);
    var v, w := Window(c, start), Window(c, i);
    TotalWaitIs(v, now);
    TotalWaitCovers(w, now, q);
    WindowFacts(c, now, i);
    WindowFacts(c, now, start);
    ChoiceMinimises(c, now, start, i);
    hide Near;
    WeighWaits(Spread(v), AvgWait(v, now), Spread(w), TotalWait(w, now), Wait(q, now));
  }

  lemma WeighWaits(spread: int, avg: real, otherSpread: int, otherTotal: real, wait: real)
    requires 0 <= spread && otherSpread <= MAX_SPREAD && wait <= otherTotal
    requires spread as real - avg * 5.0 <= otherSpread as real - otherTotal / 10.0 * 5.0
    ensures wait / 10.0 - 499.8 <= avg
  {
  }
}
