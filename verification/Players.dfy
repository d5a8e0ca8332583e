/** The entities of the matchmaking pool and its tuning constants. */
module Players {

  const BRACKET_SIZE := 500
  const MAX_MMR := 10000
  const PLAYERS_PER_MATCH := 10
  const MAX_BRACKET_EXPANSION := 2
  const WAIT_WEIGHT := 5.0

  /** The highest bracket a rating accepted by the gateway can fall into. */
  const TOP_BRACKET := MAX_MMR / BRACKET_SIZE

  type int32 = x: int | -0x8000_0000 <= x < 0x8000_0000

  datatype Option<+T> = None | Some(value: T)

  /** Two's-complement truncation to 32 bits. */
  function Wrap32(x: int): (r: int32)
    ensures (x - r) % 0x1_0000_0000 == 0
  {
    (x + 0x8000_0000) % 0x1_0000_0000 - 0x8000_0000
  }

  /** A queued player. No field changes after `Enqueue` built it; `handle` is the
      identity of the object and of the MatchCh channel made with it. Times are
      exact seconds. */
  datatype QueuedPlayer = QueuedPlayer(handle: nat, id: string, name: string, mmr: int32, enqueuedAt: real)

  /** What a tick sends a player: which room (and session) it is in, and at which
      index, that is, which of the room's response and result channels are its own. */
  datatype Event = Event(room: nat, idx: nat)

  /** A MatchCh: buffered for one event, closed at most once. */
  datatype MatchCh = MatchCh(closed: bool, buf: Option<Event>)

  const READY := MatchCh(false, None)

  /** A non-blocking send: lost when the buffer is full. */
  function Buffered(ch: MatchCh, e: Event): MatchCh {
    if ch.buf.None? then ch.(buf := Some(e)) else ch
  }

  function BracketKey(mmr: int32): int {
    if mmr < 0 then 0 else mmr / BRACKET_SIZE
  }

  /** Brackets are 500 wide from 0 up; whatever is below goes to the lowest. */
  lemma BracketIs(mmr: int32)
    ensures 0 <= mmr ==> 500 * BracketKey(mmr) <= mmr < 500 * (BracketKey(mmr) + 1)
    ensures mmr < 500 ==> BracketKey(mmr) == 0
  {
  }

  /** The ratings the gateway lets into the pool. */
  predicate Rated(q: QueuedPlayer) {
    0 <= q.mmr <= MAX_MMR
  }
}
