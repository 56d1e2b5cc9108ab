/** The receive buffer of a client stream: the window, the queue of chunks and its notify token. */
module Buffer {
  import opened Protocol

  /** recvCredit, outputQueue, outputBytes, and whether outputNotify holds a value. */
  datatype Buffer = Buffer(recvCredit: nat, queue: seq<seq<Byte>>, outputBytes: nat, token: bool)

  function Empty(): Buffer { Buffer(RECEIVE_WINDOW, [], 0, false) }

  predicate CreditTest(b: Buffer, p: seq<Byte>) { |p| <= b.recvCredit }

  predicate QueueTest(b: Buffer, p: seq<Byte>) { |p| + b.outputBytes <= OUTPUT_LIMIT }

  function Enqueue(b: Buffer, p: seq<Byte>): Buffer
    requires CreditTest(b, p)
  {
    b.(recvCredit := b.recvCredit - |p|, queue := b.queue + [p], outputBytes := b.outputBytes + |p|)
  }

  /** The first at most `max` bytes of the front chunk. */
  function Front(b: Buffer, max: nat): seq<Byte>
    requires b.queue != []
  {
    b.queue[0][..Min(|b.queue[0]|, max)]
  }

  function Rest(b: Buffer, max: nat): Buffer
    requires b.queue != []
  {
    var n := |Front(b, max)|;
    b.(queue := if n == |b.queue[0]| then b.queue[1..] else b.queue[0 := b.queue[0][n..]],
       outputBytes := if n <= b.outputBytes then b.outputBytes - n else 0)
  }

  predicate Ok(b: Buffer)
  {
    b.outputBytes == |Flatten(b.queue)| && forall i :: 0 <= i < |b.queue| ==> b.queue[i] != []
  }

  lemma EnqueueOk(b: Buffer, p: seq<Byte>)
    requires Ok(b) && CreditTest(b, p) && p != []
    ensures Ok(Enqueue(b, p)) && Flatten(Enqueue(b, p).queue) == Flatten(b.queue) + p
  {
    FlattenAppend(b.queue, p);
  }

  lemma RestOk(b: Buffer, max: nat)
    requires Ok(b) && b.queue != [] && max > 0
    ensures Ok(Rest(b, max)) && Front(b, max) != [] && |Front(b, max)| <= max
    ensures Flatten(b.queue) == Front(b, max) + Flatten(Rest(b, max).queue)
    ensures Rest(b, max).outputBytes == b.outputBytes - |Front(b, max)|
    ensures Rest(b, max).outputBytes == 0 <==> Rest(b, max).queue == []
  {
    TakeFlatten(b.queue, |Front(b, max)|);
    var q := Rest(b, max).queue;
    assert q != [] ==> |Flatten(q)| >= |q[0]|;
  }

  /** The same as mutable fields of a client stream. */
  class ReceiveBuffer {
    var recvCredit: nat
    var outputQueue: seq<seq<Byte>>
    var outputBytes: nat
    var outputNotify: bool

    ghost function View(): Buffer
      reads this
    {
      Buffer(recvCredit, outputQueue, outputBytes, outputNotify)
    }

    constructor ()
      ensures View() == Empty()
    {
      recvCredit, outputQueue, outputBytes, outputNotify := RECEIVE_WINDOW, [], 0, false;
    }

    /** A chunk arrives; nothing changes unless it fits the credit and the queue. */
    method Put(payload: seq<Byte>) returns (ok: bool)
      modifies this`recvCredit, this`outputQueue, this`outputBytes
      ensures ok <==> old(CreditTest(View(), payload) && QueueTest(View(), payload))
      ensures View() == if ok then Enqueue(old(View()), payload) else old(View())
    {
      ok := |payload| <= recvCredit && |payload| <= OUTPUT_LIMIT - outputBytes;
      if ok {
        recvCredit := recvCredit - |payload|;
        outputQueue := outputQueue + [payload];
        outputBytes := outputBytes + |payload|;
      }
    }

    /** A read takes at most `max` bytes of the front chunk. */
    method Take(max: nat) returns (data: seq<Byte>)
      requires Ok(View()) && outputQueue != [] && max > 0
      modifies this`outputQueue, this`outputBytes
      ensures Ok(View()) && View() == Rest(old(View()), max) && data == Front(old(View()), max)
      ensures Flatten(old(outputQueue)) == data + Flatten(outputQueue)
    {
      RestOk(View(), max);
      var chunk := outputQueue[0];
      var n := if |chunk| > max then max else |chunk|;
      data := chunk[..n];
      if n == |chunk| {
        outputQueue := outputQueue[1..];
      } else {
        outputQueue := outputQueue[0 := chunk[n..]];
      }
      outputBytes := outputBytes - n;
    }
  }
}
