/** The client's StreamID allocator against the server's registry. Two open calls may write their
    StreamOpen frames in either order, so the frames can reach the registry out of order. */
module Allocator {
  import opened Protocol
  import Namespace
  import Sets

  /** nextStream, the number of IDs allocated, the keys of streams and the keys of files. */
  datatype Client = Client(next: nat, count: nat, live: set<nat>, files: set<nat>)

  function NewClient(): Client { Client(MIN_TYPED_STREAM_ID, 0, {}, {}) }

  /** The first ID from `id` upwards that no live child uses. */
  function FirstFree(live: set<nat>, id: nat): nat
    decreases |set k | k in live && k >= id|
  {
    if id !in live then id
    else
      assert (set k | k in live && k >= id + 1) == (set k | k in live && k >= id) - {id};
      FirstFree(live, id + 1)
  }

  function Pick(c: Client): nat
  {
    FirstFree(c.live, if c.next < MIN_TYPED_STREAM_ID then MIN_TYPED_STREAM_ID else c.next)
  }

  function Take(c: Client, file: bool): Client
  {
    var id := Pick(c);
    Client(id + 1, c.count + 1, c.live + {id}, if file then c.files + {id} else c.files)
  }

  predicate MayOpen(c: Client, file: bool)
  {
    && c.count < Namespace.MAX_IDS
    && (if file then |c.files| < Namespace.MAX_FILES else |c.live| < Namespace.MAX_CLIENT_STREAMS)
  }

  /** `unsent`: allocated, StreamOpen not yet written. `wire`: StreamOpen frames in flight. `refused`:
      the registry returned an error for an ID of this client. */
  datatype System = System(client: Client, unsent: set<nat>, wire: seq<(nat, Namespace.Kind)>,
                           records: Namespace.Records, refused: bool)

  datatype Action =
    | Allocate(file: bool)
    | Abandon(id: nat)                                // metadata rejected locally, nothing is written
    | WriteOpen(id: nat, kind: Namespace.Kind)
    | ServerReserves
    | ServerAccepts(id: nat) | ServerCloses(id: nat)  // the registry's later life of an ID
    | RemoveChild(id: nat)                            // the client forgets a child

  function Init(): System { System(NewClient(), {}, [], map[], false) }

  function Do(s: System, a: Action): System
  {
    match a
    case Allocate(file) =>
      if !MayOpen(s.client, file) then s
      else s.(client := Take(s.client, file), unsent := s.unsent + {Pick(s.client)})
    case Abandon(id) => if id in s.unsent then s.(unsent := s.unsent - {id}) else s
    case WriteOpen(id, kind) =>
      if id !in s.unsent || kind.NoKind? then s
      else s.(unsent := s.unsent - {id}, wire := s.wire + [(id, kind)])
    case ServerReserves =>
      if s.wire == [] then s
      else
        var (v, m) := Namespace.Reserve(s.records, s.wire[0].0, s.wire[0].1);
        s.(wire := s.wire[1..], records := m, refused := s.refused || !v.Ok?)
    case ServerAccepts(id) => s.(records := Namespace.Accept(s.records, id, Namespace.KindOf(s.records, id)).1)
    case ServerCloses(id) => s.(records := Namespace.CloseId(s.records, id, Namespace.KindOf(s.records, id)).1)
    case RemoveChild(id) => s.(client := s.client.(live := s.client.live - {id}, files := s.client.files - {id}))
  }

  function Run(s: System, schedule: seq<Action>): System
    decreases |schedule|
  {
    if schedule == [] then s else Run(Do(s, schedule[0]), schedule[1..])
  }

  predicate Issued(next: nat, id: nat) { MIN_TYPED_STREAM_ID <= id < next }

  /** The IDs handed out so far. */
  function UsedBelow(next: nat): set<nat> { set id: nat | id < next && Issued(next, id) }

  function Used(c: Client): set<nat> { UsedBelow(c.next) }

  predicate ClientOk(c: Client)
  {
    c.next == MIN_TYPED_STREAM_ID + c.count && c.count <= Namespace.MAX_IDS && c.live <= Used(c)
  }

  predicate Inv(s: System)
  {
    && ClientOk(s.client)
    && s.unsent <= Used(s.client)
    && s.records.Keys <= Used(s.client)
    && s.unsent !! s.records.Keys
    && (forall i :: 0 <= i < |s.wire| ==>
          && s.wire[i].0 in Used(s.client) && s.wire[i].0 !in s.unsent && s.wire[i].0 !in s.records
          && !s.wire[i].1.NoKind?)
    && (forall i, j :: 0 <= i < j < |s.wire| ==> s.wire[i].0 != s.wire[j].0)
    && !s.refused
  }

  lemma {:induction false} UsedSize(k: nat)
    ensures |UsedBelow(MIN_TYPED_STREAM_ID + k)| == k
  {
    var next := MIN_TYPED_STREAM_ID + k;
    if k == 0 {
      assert UsedBelow(next) == {};
    } else {
      UsedSize(k - 1);
      assert Issued(next, next - 1);
      assert forall id :: Issued(next - 1, id) ==> Issued(next, id);
      assert UsedBelow(next) == UsedBelow(next - 1) + {next - 1};
    }
  }

  lemma UsedGrows(next: nat)
    requires next >= MIN_TYPED_STREAM_ID
    ensures UsedBelow(next + 1) == UsedBelow(next) + {next}
  {
    assert forall id :: Issued(next, id) ==> Issued(next + 1, id);
    assert Issued(next + 1, next);
  }

  /** A live child never blocks the next ID, so the search loop stops where it starts. */
  lemma PickIsNext(c: Client)
    requires ClientOk(c)
    ensures Pick(c) == c.next
  {
    assert c.next !in c.live;
  }

  /** The registry has room and no record for an ID that is still on the wire. */
  lemma ReserveSucceeds(s: System)
    requires Inv(s) && s.wire != []
    ensures Namespace.Reserve(s.records, s.wire[0].0, s.wire[0].1).0.Ok?
  {
    var id := s.wire[0].0;
    UsedSize(s.client.count);
    assert |Used(s.client)| == s.client.count;
    Sets.SubsetSize(s.records.Keys, Used(s.client) - {id});
    assert |s.records| == |s.records.Keys|;
  }

  lemma ClientKeeps(s: System, a: Action)
    requires Inv(s) && (a.Allocate? || a.Abandon? || a.WriteOpen? || a.RemoveChild?)
    ensures Inv(Do(s, a)) && s.client.next <= Do(s, a).client.next
  {
    if a.Allocate? {
      PickIsNext(s.client);
    }
  }

  lemma ServerKeeps(s: System, a: Action)
    requires Inv(s) && (a.ServerReserves? || a.ServerAccepts? || a.ServerCloses?)
    ensures Inv(Do(s, a)) && s.client.next == Do(s, a).client.next
  {
    if a.ServerReserves? && s.wire != [] {
      ReserveSucceeds(s);
    }
  }

  lemma DoKeeps(s: System, a: Action)
    requires Inv(s)
    ensures Inv(Do(s, a))
    ensures s.client.next <= Do(s, a).client.next
  {
    if a.ServerReserves? || a.ServerAccepts? || a.ServerCloses? {
      ServerKeeps(s, a);
    } else {
      ClientKeeps(s, a);
    }
  }

  lemma {:induction false} RunKeeps(s: System, schedule: seq<Action>)
    requires Inv(s)
    ensures Inv(Run(s, schedule))
    ensures s.client.next <= Run(s, schedule).client.next
    decreases |schedule|
  {
    if schedule != [] {
      DoKeeps(s, schedule[0]);
      RunKeeps(Do(s, schedule[0]), schedule[1..]);
    }
  }

  /** Over every interleaving of opens, closes and frame handling, the registry never calls an ID of
      this client reserved, duplicate or exhausted, and at most 256 IDs are allocated. */
  lemma RegistryAgrees(schedule: seq<Action>)
    ensures var s := Run(Init(), schedule);
      && !s.refused
      && s.client.count <= Namespace.MAX_IDS
      && (s.wire != [] ==> Namespace.Reserve(s.records, s.wire[0].0, s.wire[0].1).0.Ok?)
  {
    RunKeeps(Init(), schedule);
    if Run(Init(), schedule).wire != [] {
      ReserveSucceeds(Run(Init(), schedule));
    }
  }

  /** Each ID is larger than every ID allocated earlier, whatever was closed in between. */
  lemma IdsStrictlyIncrease(first: seq<Action>, between: seq<Action>, f: bool)
    ensures var s := Run(Init(), first);
      var s' := Run(Do(s, Allocate(f)), between);
      MayOpen(s.client, f) ==> Pick(s.client) < Pick(s'.client) && Pick(s'.client) < 0x1_0000_0000
  {
    RunKeeps(Init(), first);
    var s := Run(Init(), first);
    DoKeeps(s, Allocate(f));
    RunKeeps(Do(s, Allocate(f)), between);
    PickIsNext(s.client);
    PickIsNext(Run(Do(s, Allocate(f)), between).client);
  }

  /** Taking an ID keeps the allocator in order and yields exactly the next one. */
  lemma TakeKeeps(c: Client, file: bool)
    requires ClientOk(c) && MayOpen(c, file)
    ensures ClientOk(Take(c, file)) && Pick(c) == c.next && Pick(c) !in c.live
  {
    PickIsNext(c);
  }

  /** The allocator fields of ManagedMultiplexTerminal and ManagedMultiplexSession. */
  class StreamAllocator {
    var nextStream: nat
    var count: nat
    var streams: set<nat>
    var files: set<nat>

    ghost function View(): Client
      reads this
    {
      Client(nextStream, count, streams, files)
    }

    constructor ()
      ensures View() == NewClient() && ClientOk(View())
    {
      nextStream, count, streams, files := MIN_TYPED_STREAM_ID, 0, {}, {};
    }

    /** The first ID at or after `start` that no live stream uses. */
    method Search(start: nat) returns (id: nat)
      ensures id == FirstFree(streams, start)
    {
      id := start;
      while id in streams
        invariant FirstFree(streams, id) == FirstFree(streams, start)
        decreases |set k | k in streams && k >= id|
      {
        assert (set k | k in streams && k >= id + 1) == (set k | k in streams && k >= id) - {id};
        id := id + 1;
      }
    }

    method Open(file: bool) returns (ok: bool, id: nat)
      modifies this
      ensures ok <==> MayOpen(old(View()), file)
      ensures ok ==> View() == Take(old(View()), file) && id == Pick(old(View()))
      ensures !ok ==> View() == old(View())
      ensures old(ClientOk(View())) ==> ClientOk(View()) && (ok ==> id == old(nextStream))
    {
      ghost var before := View();
      if ClientOk(before) && MayOpen(before, file) {
        TakeKeeps(before, file);
      }
      ok, id := false, 0;
      if count >= Namespace.MAX_IDS {
        return;
      }
      if file && |files| >= Namespace.MAX_FILES {
        return;
      }
      if !file && |streams| >= Namespace.MAX_CLIENT_STREAMS {
        return;
      }
      id := Search(if nextStream < MIN_TYPED_STREAM_ID then MIN_TYPED_STREAM_ID else nextStream);
      nextStream := id + 1;
      count := count + 1;
      streams := streams + {id};
      if file {
        files := files + {id};
      }
      ok := true;
    }

    method Remove(id: nat)
      modifies this
      ensures nextStream == old(nextStream) && count == old(count)
      ensures streams == old(streams) - {id} && files == old(files) - {id}
      ensures old(ClientOk(View())) ==> ClientOk(View())
    {
      streams := streams - {id};
      files := files - {id};
    }
  }
}
