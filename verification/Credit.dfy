/** typedStreamCredit, and what one critical section reports to its caller. */
module Credit {
  import opened Protocol

  /** The window limit is below 2^32, so no sum here can wrap. */
  class Credit {
    var remaining: nat

    ghost predicate Valid()
      reads this
    {
      remaining <= MAX_WINDOW
    }

    constructor (initial: nat)
      requires 0 < initial <= MAX_WINDOW
      ensures Valid() && remaining == initial
    {
      remaining := initial;
    }

    method Consume(bytes: nat) returns (ok: bool)
      requires Valid()
      modifies this
      ensures Valid()
      ensures ok <==> 0 < bytes <= old(remaining)
      ensures remaining == if ok then old(remaining) - bytes else old(remaining)
    {
      ok := bytes != 0 && bytes <= remaining;
      if ok {
        remaining := remaining - bytes;
      }
    }

    method Add(bytes: nat) returns (ok: bool)
      requires Valid()
      modifies this
      ensures Valid()
      ensures ok <==> ValidUpdate(bytes) && old(remaining) + bytes <= MAX_WINDOW
      ensures remaining == if ok then old(remaining) + bytes else old(remaining)
    {
      ok := bytes != 0 && bytes <= MAX_WINDOW && remaining <= MAX_WINDOW - bytes;
      if ok {
        remaining := remaining + bytes;
      }
    }
  }

  /** What a method made of its turn: it had to wait, it refused its frame, or it wrote frames. */
  datatype Verdict = Waits | Refuses | Wrote(frames: seq<Frame>)

  /** The method that turned `before` into `after` did what the machine says. */
  predicate Did<T(==)>(o: Outcome<T>, v: Verdict, before: T, after: T)
  {
    match o
    case Blocked => v == Waits && after == before
    case Refused => v == Refuses && after == before
    case Moves(next, emits) => v == Wrote(emits) && after == next
  }

  /** The channel after a method has had its turn. */
  function Sent(ch: seq<Frame>, v: Verdict): seq<Frame> { if v.Wrote? then ch + v.frames else ch }

  /** The session after `side` has had its turn. */
  function Ends(st: Status, v: Verdict, side: Status): Status { if v.Refuses? then side else st }
}
