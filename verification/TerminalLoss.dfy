/** Input credit that a terminal loses for good: WriteTerminalStream spends its credit before it waits for
    the connection, and a context that ends in between gives nothing back. */
module TerminalLoss {
  import opened Common
  import Machine
  import opened Protocol
  import opened Terminal
  import opened TerminalProgress

  /** A context ends between the spending and the writing of a chunk. */
  predicate Drops(l: Stream, a: Action)
  {
    l.status.Live? && a == ClientDoes(Writes(DropChunk)) && l.client.keyboard.writer.Sending?
  }

  function Dropped(l: Stream, a: Action): nat { if Drops(l, a) then |l.client.keyboard.writer.chunk| else 0 }

  /** The bytes dropped in a run. */
  function AllDropped(schedule: seq<Action>): nat { Machine.Spent(Do, Dropped, Init(), schedule) }

  predicate DropsAt(schedule: seq<Action>, i: nat)
    requires i < |schedule|
  {
    Drops(Run(Init(), schedule[..i]), schedule[i])
  }

  lemma OnlyDropsLose(l: Stream, a: Action)
    requires Inv(l)
    ensures Do(l, a).client.keyboard.lost == l.client.keyboard.lost + Dropped(l, a)
    ensures Drops(l, a) <==> Dropped(l, a) > 0
  {
    if l.status.Live? {
      match a
      case ClientDoes(m) => ClientLoses(l.client, m);
      case ClientReceives => if l.down != [] { FramesLoseNothing(l.client, l.down[0]); }
      case _ =>
    }
  }

  lemma ClientLoses(c: Client, m: ClientMove)
    requires ClientOk(c)
    ensures ClientStep(c, m).Moves? ==>
      ClientStep(c, m).next.keyboard.lost ==
        c.keyboard.lost + if m == Writes(DropChunk) then |c.keyboard.writer.chunk| else 0
  {
  }

  lemma FramesLoseNothing(c: Client, f: Frame)
    ensures ClientReceive(c, f).Moves? ==> ClientReceive(c, f).next.keyboard.lost == c.keyboard.lost
  {
  }

  lemma LossAdds(schedule: seq<Action>)
    ensures Run(Init(), schedule).client.keyboard.lost == AllDropped(schedule)
  {
    InitHolds();
    forall l, a | Inv(l)
      ensures Inv(Do(l, a)) && Do(l, a).client.keyboard.lost == l.client.keyboard.lost + Dropped(l, a)
    {
      DoKeeps(l, a);
      OnlyDropsLose(l, a);
    }
    Machine.SpentAdds(Do, Dropped, l => Inv(l), (l: Stream) => l.client.keyboard.lost, Init(), schedule);
  }

  /** Over every run: the credit that is neither with the client nor with the server nor on its way is what
      was dropped, and there is any exactly when a context ended between the spending and the writing. */
  lemma LostExactlyWhenDropped(schedule: seq<Action>)
    ensures var l := Run(Init(), schedule);
      var v := l.client.keyboard;
      var missing := InOwed(l.server) - (v.sendCredit + |Unwritten(v.writer)| + |DataOf(l.up)| + CreditOf(l.down));
      && missing == v.lost == AllDropped(schedule)
      && (missing > 0 <==> exists i :: 0 <= i < |schedule| && DropsAt(schedule, i))
  {
    InputIsAccountedFor(schedule);
    LossAdds(schedule);
    Machine.SomeStepCosts(Do, Dropped, Init(), schedule);
    forall i | 0 <= i < |schedule|
      ensures DropsAt(schedule, i) <==> Machine.CostAt(Do, Dropped, Init(), schedule, i) > 0
    {
      Reachable(schedule[..i]);
      OnlyDropsLose(Run(Init(), schedule[..i]), schedule[i]);
    }
  }

  // ----- what is left of the window -----

  lemma NothingUsable(l: Stream)
    requires Inv(l) && Starved(l.client.keyboard)
    ensures l.client.keyboard.sendCredit == 0 && !l.client.keyboard.writer.Sending?
  {
  }

  lemma StarvedStep(l: Stream, a: Action)
    requires Inv(l) && Starved(l.client.keyboard)
    ensures Starved(Do(l, a).client.keyboard) && Do(l, a).client.keyboard.written == l.client.keyboard.written
  {
    OnlyDropsLose(l, a);
    NothingUsable(l);
    if l.status.Live? {
      match a
      case ClientDoes(m) => OnlyWritesWrite(l.client, m);
      case _ =>
    }
  }

  lemma OnlyWritesWrite(c: Client, m: ClientMove)
    requires !c.keyboard.writer.Sending?
    ensures ClientStep(c, m).Moves? ==> ClientStep(c, m).next.keyboard.written == c.keyboard.written
  {
  }

  /** Once a whole window has been dropped, no Write puts another byte on the wire, whatever happens. */
  lemma {:induction false} StarvedForEver(l: Stream, more: seq<Action>)
    requires Inv(l) && Starved(l.client.keyboard)
    ensures Run(l, more).client.keyboard.written == l.client.keyboard.written
    decreases |more|
  {
    if more != [] {
      StarvedStep(l, more[0]);
      DoKeeps(l, more[0]);
      StarvedForEver(Do(l, more[0]), more[1..]);
    }
  }

  /** A Write of `data` up to its first look for credit. */
  function Begun(l: Stream, data: seq<Byte>): Stream
  {
    Do(Do(l, ClientDoes(Writes(StartWrite(data)))), ClientDoes(Writes(SpendCredit)))
  }

  lemma BeginWrite(l: Stream, data: seq<Byte>)
    requires Inv(l) && l.status.Live? && Found(l.client) && l.client.keyboard.writer.Idle? && 1 <= |data| <= PTY_CHUNK
    ensures Inv(Begun(l, data))
    ensures var v := Begun(l, data).client.keyboard;
      && (v.writer.Asleep? <==> l.client.keyboard.sendCredit == 0)
      && v.lost == l.client.keyboard.lost && v.written == l.client.keyboard.written
  {
    DoKeeps(l, ClientDoes(Writes(StartWrite(data))));
    DoKeeps(Do(l, ClientDoes(Writes(StartWrite(data)))), ClientDoes(Writes(SpendCredit)));
    assert ClientStep(l.client, Writes(StartWrite(data))).Moves?;
  }

  lemma OpenRest(schedule: seq<Action>)
    requires var l := Run(Init(), schedule);
      l.status.Live? && Quiet(l) && l.server.closed.None? && !l.client.done
    ensures var l := Run(Init(), schedule);
      Inv(l) && Found(l.client) && l.client.keyboard.sendCredit + l.client.keyboard.lost == RECEIVE_WINDOW
  {
    Reachable(schedule);
    OnlyPeopleAreAwaited(schedule);
    QuietIsAtRest(Run(Init(), schedule));
  }

  /** On an open stream that has come to rest, a Write goes to sleep if and only if a whole window has been
      dropped before; and then it and every later one sleeps until its own context ends. */
  lemma WriteSleepsExactlyWhenStarved(schedule: seq<Action>, data: seq<Byte>, more: seq<Action>)
    requires 1 <= |data| <= PTY_CHUNK
    requires var l := Run(Init(), schedule);
      l.status.Live? && Quiet(l) && l.server.closed.None? && !l.client.done && l.client.keyboard.writer.Idle?
    ensures var l := Begun(Run(Init(), schedule), data);
      && (l.client.keyboard.writer.Asleep? <==> AllDropped(schedule) == RECEIVE_WINDOW)
      && (l.client.keyboard.writer.Asleep? ==>
            Run(l, more).client.keyboard.written == Run(Init(), schedule).client.keyboard.written)
  {
    var l := Run(Init(), schedule);
    OpenRest(schedule);
    LostExactlyWhenDropped(schedule);
    BeginWrite(l, data);
    if Starved(l.client.keyboard) {
      StarvedForEver(Begun(l, data), more);
    }
  }
}
