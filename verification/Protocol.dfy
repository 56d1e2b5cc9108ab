/** Limits, frames and byte-stream helpers shared by both endpoints of the typed-stream
    multiplexer. A frame is modelled after its JSON payload has been decoded. */
module Protocol {

  type Byte = b: int | 0 <= b < 256

  const MIN_TYPED_STREAM_ID: nat := 2
  const MAX_CHUNK: nat := 0x1_0000       // MaxTypedStreamChunk, 64 KiB
  const MAX_WINDOW: nat := 0x10_0000     // MaxTypedStreamWindow, 1 MiB
  const RECEIVE_WINDOW: nat := 0x4_0000  // every endpoint's receive window, 256 KiB
  const OUTPUT_LIMIT: nat := 0x4_0000    // managedTerminalOutputLimit, 256 KiB
  const PTY_CHUNK: nat := 0x8000         // terminal reads and writes, 32 KiB

  datatype Reason = DownloadComplete | UploadComplete | PeerClose | ProcessExit | DrainTimeout | ClientClose

  datatype Frame =
    | Accepted(window: nat)
    | Data(payload: seq<Byte>)
    | WindowUpdate(bytes: nat)
    | Resize
    | Close(reason: Reason)
    | StreamError
  {
    predicate Last() { Close? || StreamError? }
  }

  /** What one critical section does: it cannot run yet, it refuses its frame (which ends the
      parent session), or it moves to a new endpoint state and writes frames to the peer. */
  datatype Outcome<T> = Blocked | Refused | Moves(next: T, emits: seq<Frame>)

  predicate ValidData(payload: seq<Byte>) { 0 < |payload| <= MAX_CHUNK }

  predicate ValidUpdate(bytes: nat) { 0 < bytes <= MAX_WINDOW }

  function Min(a: nat, b: nat): nat { if a < b then a else b }

  // ----- the byte stream carried by a channel or a queue -----

  function Payload(f: Frame): seq<Byte> { if f.Data? then f.payload else [] }

  function Granted(f: Frame): nat
  {
    match f
    case Accepted(w) => w
    case WindowUpdate(n) => n
    case _ => 0
  }

  function DataOf(ch: seq<Frame>): seq<Byte>
  {
    if ch == [] then [] else Payload(ch[0]) + DataOf(ch[1..])
  }

  function CreditOf(ch: seq<Frame>): nat
  {
    if ch == [] then 0 else Granted(ch[0]) + CreditOf(ch[1..])
  }

  lemma OneFrame(f: Frame)
    ensures DataOf([f]) == Payload(f) && CreditOf([f]) == Granted(f)
  {
    assert [f][1..] == [];
  }

  function Flatten(q: seq<seq<Byte>>): seq<Byte>
  {
    if q == [] then [] else q[0] + Flatten(q[1..])
  }

  lemma {:induction false} DataOfConcat(a: seq<Frame>, b: seq<Frame>)
    ensures DataOf(a + b) == DataOf(a) + DataOf(b)
  {
    if a == [] {
      assert a + b == b;
    } else {
      assert (a + b)[1..] == a[1..] + b;
      DataOfConcat(a[1..], b);
    }
  }

  /** Frames that carry exactly `data`, cut into valid chunks. */
  predicate Spells(frames: seq<Frame>, data: seq<Byte>)
  {
    && DataOf(frames) == data
    && forall i :: 0 <= i < |frames| ==> frames[i].Data? && ValidData(frames[i].payload)
  }

  lemma SpellsMore(frames: seq<Frame>, data: seq<Byte>, chunk: seq<Byte>)
    requires Spells(frames, data) && ValidData(chunk)
    ensures Spells(frames + [Data(chunk)], data + chunk)
  {
    DataOfConcat(frames, [Data(chunk)]);
    assert DataOf([Data(chunk)]) == chunk;
  }

  lemma {:induction false} CreditOfConcat(a: seq<Frame>, b: seq<Frame>)
    ensures CreditOf(a + b) == CreditOf(a) + CreditOf(b)
  {
    if a == [] {
      assert a + b == b;
    } else {
      assert (a + b)[1..] == a[1..] + b;
      CreditOfConcat(a[1..], b);
    }
  }

  lemma {:induction false} FlattenAppend(q: seq<seq<Byte>>, chunk: seq<Byte>)
    ensures Flatten(q + [chunk]) == Flatten(q) + chunk
  {
    if q == [] {
      assert q + [chunk] == [chunk];
    } else {
      assert (q + [chunk])[1..] == q[1..] + [chunk];
      FlattenAppend(q[1..], chunk);
    }
  }

  /** Reading `n` bytes off the front of the queue takes exactly the first `n` buffered bytes. */
  lemma TakeFlatten(q: seq<seq<Byte>>, n: nat)
    requires q != [] && n <= |q[0]|
    ensures n < |q[0]| ==> Flatten(q) == q[0][..n] + Flatten(q[0 := q[0][n..]])
    ensures n == |q[0]| ==> Flatten(q) == q[0][..n] + Flatten(q[1..])
  {
    assert q[0 := q[0][n..]][1..] == q[1..];
    assert q[0] == q[0][..n] + q[0][n..];
  }

  // ----- one stream seen from both ends -----

  datatype Status = Live | ClientRefused | ServerRefused

  /** The two ends of one stream and this stream's frames on the two FIFO channels:
      `up` towards the server, `down` towards the client. */
  datatype Link<C, S> = Link(client: C, server: S, up: seq<Frame>, down: seq<Frame>, status: Status)

  function AfterClient<C, S>(l: Link<C, S>, o: Outcome<C>): Link<C, S>
  {
    match o
    case Blocked => l
    case Refused => l.(status := ClientRefused)
    case Moves(c, emits) => l.(client := c, up := l.up + emits)
  }

  function AfterServer<C, S>(l: Link<C, S>, o: Outcome<S>): Link<C, S>
  {
    match o
    case Blocked => l
    case Refused => l.(status := ServerRefused)
    case Moves(s, emits) => l.(server := s, down := l.down + emits)
  }

  /** The client's monitor goroutine handles the oldest frame on `down`. */
  function ClientTakes<C, S>(l: Link<C, S>, o: Outcome<C>): Link<C, S>
    requires l.down != []
  {
    if o.Moves? then AfterClient(l.(down := l.down[1..]), o) else AfterClient(l, o)
  }

  /** The server's frame loop handles the oldest frame on `up`. */
  function ServerTakes<C, S>(l: Link<C, S>, o: Outcome<S>): Link<C, S>
    requires l.up != []
  {
    if o.Moves? then AfterServer(l.(up := l.up[1..]), o) else AfterServer(l, o)
  }
}
