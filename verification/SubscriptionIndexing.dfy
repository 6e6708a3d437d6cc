/** The per-client subscription sets, the reverse index from channels to clients, and their
    agreement over whole runs (ws/internal/server: connection.go, handlers_message.go,
    grpc_service.go, client_lifecycle.go). */
module SubscriptionIndexing {
  import opened Common

  type ClientId = int

  /** channel → the clients subscribed to it, in subscription order. */
  type Index = map<Channel, seq<ClientId>>

  // ----- The index as a value -----

  function Subscribers(m: Index, ch: Channel): seq<ClientId> {
    if ch in m then m[ch] else []
  }

  /** No channel is mapped to an empty list, and no list repeats a client. */
  ghost predicate WellFormedIndex(m: Index) {
    forall ch :: ch in m ==> m[ch] != [] && NoDuplicates(m[ch])
  }

  function Join(list: seq<ClientId>, c: ClientId): seq<ClientId> {
    if c in list then list else list + [c]
  }

  /** `list` without the first occurrence of `c`. */
  function Leave(list: seq<ClientId>, c: ClientId): seq<ClientId> {
    if list == [] then []
    else if list[0] == c then list[1..]
    else [list[0]] + Leave(list[1..], c)
  }

  function AddOne(m: Index, ch: Channel, c: ClientId): Index {
    m[ch := Join(Subscribers(m, ch), c)]
  }

  function RemoveOne(m: Index, ch: Channel, c: ClientId): Index {
    if c !in Subscribers(m, ch) then m
    else if Leave(m[ch], c) == [] then m - {ch}
    else m[ch := Leave(m[ch], c)]
  }

  function AddAll(m: Index, channels: seq<Channel>, c: ClientId): Index {
    if channels == [] then m
    else AddOne(AddAll(m, channels[..|channels| - 1], c), channels[|channels| - 1], c)
  }

  function RemoveAll(m: Index, channels: seq<Channel>, c: ClientId): Index {
    if channels == [] then m
    else RemoveOne(RemoveAll(m, channels[..|channels| - 1], c), channels[|channels| - 1], c)
  }

  lemma {:induction false} LeaveAt(list: seq<ClientId>, c: ClientId, i: nat)
    requires i < |list| && list[i] == c && c !in list[..i]
    ensures Leave(list, c) == list[..i] + list[i + 1..]
  {
    if i == 0 {
    } else {
      assert list[0] in list[..i];
      assert list[1..][..i - 1] == list[..i][1..];
      LeaveAt(list[1..], c, i - 1);
      assert list[..i] == [list[0]] + list[1..][..i - 1];
    }
  }

  /** Leaving removes exactly the client. */
  lemma {:induction false} LeaveMembers(list: seq<ClientId>, c: ClientId)
    requires NoDuplicates(list)
    ensures NoDuplicates(Leave(list, c))
    ensures forall x :: x in Leave(list, c) <==> x in list && x != c
  {
    if list == [] {
    } else {
      assert list == [list[0]] + list[1..];
      if list[0] != c {
        LeaveMembers(list[1..], c);
        var rest := Leave(list[1..], c);
        assert forall i :: 0 <= i < |rest| ==> rest[i] in rest;
      }
    }
  }

  lemma {:induction false} AddOneMembers(m: Index, ch: Channel, c: ClientId)
    requires WellFormedIndex(m)
    ensures WellFormedIndex(AddOne(m, ch, c))
    ensures forall d, x :: x in Subscribers(AddOne(m, ch, c), d) <==> x in Subscribers(m, d) || (x == c && d == ch)
  {
  }

  lemma {:induction false} RemoveOneMembers(m: Index, ch: Channel, c: ClientId)
    requires WellFormedIndex(m)
    ensures WellFormedIndex(RemoveOne(m, ch, c))
    ensures forall d, x :: x in Subscribers(RemoveOne(m, ch, c), d) <==> x in Subscribers(m, d) && !(x == c && d == ch)
  {
    if ch in m { LeaveMembers(m[ch], c); }
  }

  /** After `AddAll` the client is listed under its old channels and the given ones, everybody else
      as before. */
  lemma {:induction false} AddAllMembers(m: Index, channels: seq<Channel>, c: ClientId)
    requires WellFormedIndex(m)
    ensures WellFormedIndex(AddAll(m, channels, c))
    ensures forall d, x :: x in Subscribers(AddAll(m, channels, c), d) <==>
              x in Subscribers(m, d) || (x == c && d in channels)
  {
    if channels == [] {
    } else {
      var front, last := channels[..|channels| - 1], channels[|channels| - 1];
      assert channels == front + [last];
      AddAllMembers(m, front, c);
      AddOneMembers(AddAll(m, front, c), last, c);
    }
  }

  /** After `RemoveAll` the client is listed under none of the given channels, everybody else as
      before. */
  lemma {:induction false} RemoveAllMembers(m: Index, channels: seq<Channel>, c: ClientId)
    requires WellFormedIndex(m)
    ensures WellFormedIndex(RemoveAll(m, channels, c))
    ensures forall d, x :: x in Subscribers(RemoveAll(m, channels, c), d) <==>
              x in Subscribers(m, d) && !(x == c && d in channels)
  {
    if channels == [] {
    } else {
      var front, last := channels[..|channels| - 1], channels[|channels| - 1];
      assert channels == front + [last];
      RemoveAllMembers(m, front, c);
      RemoveOneMembers(RemoveAll(m, front, c), last, c);
    }
  }

  /** Unsubscribing undoes subscribing for a client that held none of the channels. */
  lemma {:induction false} RemoveUndoesAdd(m: Index, channels: seq<Channel>, c: ClientId)
    requires WellFormedIndex(m) && forall d :: d in channels ==> c !in Subscribers(m, d)
    ensures forall d, x :: x in Subscribers(RemoveAll(AddAll(m, channels, c), channels, c), d) <==> x in Subscribers(m, d)
  {
    AddAllMembers(m, channels, c);
    RemoveAllMembers(AddAll(m, channels, c), channels, c);
  }

  lemma {:induction false} PrefixSteps(channels: seq<Channel>, i: nat)
    requires i < |channels|
    ensures channels[..i + 1][..i] == channels[..i] && channels[..i + 1][i] == channels[i]
    ensures Elements(channels[..i + 1]) == Elements(channels[..i]) + {channels[i]}
  {
    assert channels[..i + 1] == channels[..i] + [channels[i]];
  }

  // ----- The mutable objects -----

  class SubscriptionSet {
    var channels: set<Channel>

    constructor ()
      ensures channels == {}
    {
      channels := {};
    }

    method Add(channel: Channel)
      modifies this
      ensures channels == old(channels) + {channel}
    {
      channels := channels + {channel};
    }

    method AddMultiple(chs: seq<Channel>)
      modifies this
      ensures channels == old(channels) + Elements(chs)
    {
      for i := 0 to |chs|
        invariant channels == old(channels) + Elements(chs[..i])
      {
        PrefixSteps(chs, i);
        channels := channels + {chs[i]};
      }
      assert chs[..|chs|] == chs;
    }

    method RemoveMultiple(chs: seq<Channel>)
      modifies this
      ensures channels == old(channels) - Elements(chs)
    {
      for i := 0 to |chs|
        invariant channels == old(channels) - Elements(chs[..i])
      {
        PrefixSteps(chs, i);
        channels := channels - {chs[i]};
      }
      assert chs[..|chs|] == chs;
    }

    /** A copy of the set as a list, in arbitrary order. */
    method List() returns (result: seq<Channel>)
      ensures NoDuplicates(result) && Elements(result) == channels
    {
      result := ListOf(channels);
    }

    method Clear()
      modifies this
      ensures channels == {}
    {
      channels := {};
    }
  }

  class SubscriptionIndex {
    var subscribers: Index

    constructor ()
      ensures subscribers == map[]
    {
      subscribers := map[];
    }

    method Add(channel: Channel, client: ClientId)
      modifies this
      ensures subscribers == AddOne(old(subscribers), channel, client)
    {
      var current: seq<ClientId> := [];
      if channel in subscribers {
        current := subscribers[channel];
      }
      if client in current {
        return;
      }
      subscribers := subscribers[channel := current + [client]];
    }

    method AddMultiple(channels: seq<Channel>, client: ClientId)
      modifies this
      ensures subscribers == AddAll(old(subscribers), channels, client)
    {
      for i := 0 to |channels|
        invariant subscribers == AddAll(old(subscribers), channels[..i], client)
      {
        PrefixSteps(channels, i);
        Add(channels[i], client);
      }
      assert channels[..|channels|] == channels;
    }

    method Remove(channel: Channel, client: ClientId)
      modifies this
      ensures subscribers == RemoveOne(old(subscribers), channel, client)
    {
      if channel !in subscribers {
        return;
      }
      var current := subscribers[channel];
      for i := 0 to |current|
        invariant client !in current[..i]
        invariant subscribers == old(subscribers)
      {
        if current[i] != client { continue; }
        LeaveAt(current, client, i);
        var without := current[..i] + current[i + 1..];
        if |without| == 0 {
          subscribers := subscribers - {channel};
        } else {
          subscribers := subscribers[channel := without];
        }
        return;
      }
      assert current[..|current|] == current;
    }

    method RemoveMultiple(channels: seq<Channel>, client: ClientId)
      modifies this
      ensures subscribers == RemoveAll(old(subscribers), channels, client)
    {
      for i := 0 to |channels|
        invariant subscribers == RemoveAll(old(subscribers), channels[..i], client)
      {
        PrefixSteps(channels, i);
        Remove(channels[i], client);
      }
      assert channels[..|channels|] == channels;
    }

    method Get(channel: Channel) returns (clients: seq<ClientId>)
      ensures clients == Subscribers(subscribers, channel)
    {
      clients := if channel in subscribers then subscribers[channel] else [];
    }
  }

  /** The positions of a request that name a channel not yet held. */
  function NewPositions(held: set<Channel>, channels: seq<Channel>): set<nat> {
    set i: nat | i < |channels| && channels[i] !in held
  }

  lemma {:induction false} NewPositionsNext(held: set<Channel>, front: seq<Channel>, last: Channel)
    ensures |NewPositions(held, front + [last])| == |NewPositions(held, front)| + One(last !in held)
  {
    var before, after := NewPositions(held, front), NewPositions(held, front + [last]);
    assert forall i :: 0 <= i < |front| ==> (front + [last])[i] == front[i];
    assert after == before + if last in held then {} else {|front|};
  }

  /** The subscribe branch: the limit counts the positions with a channel not yet held (a repeated one each time),
      which are at least as many as the request would add. */
  function CountNew(held: set<Channel>, channels: seq<Channel>): (n: nat)
    ensures n == |NewPositions(held, channels)|
    ensures |held + Elements(channels)| <= |held| + n
    ensures Elements(channels) <= held ==> n == 0
  {
    if channels == [] then
      assert held + Elements(channels) == held;
      assert NewPositions(held, channels) == {};
      0
    else
      var front, last := channels[..|channels| - 1], channels[|channels| - 1];
      assert channels == front + [last];
      assert Elements(channels) == Elements(front) + {last};
      assert held + Elements(channels) == (held + Elements(front)) + {last};
      assert last in held ==> held + Elements(channels) == held + Elements(front);
      NewPositionsNext(held, front, last);
      CountNew(held, front) + if last in held then 0 else 1
  }

  /** A subscribe request is accepted exactly when it names a channel and fits the limit; it then
      updates the client's set and the index alike, and otherwise changes nothing. */
  method Subscribe(subs: SubscriptionSet, index: SubscriptionIndex, client: ClientId, channels: seq<Channel>,
      maxChannels: int)
    returns (ok: bool)
    modifies subs, index
    ensures ok <==> channels != [] && |old(subs.channels)| + CountNew(old(subs.channels), channels) <= maxChannels
    ensures !ok ==> unchanged(subs) && unchanged(index)
    ensures ok ==> subs.channels == old(subs.channels) + Elements(channels)
    ensures ok ==> index.subscribers == AddAll(old(index.subscribers), channels, client)
    ensures ok ==> |subs.channels| <= maxChannels
  {
    if |channels| == 0 {
      return false;
    }
    var newChannels := 0;
    for i := 0 to |channels|
      invariant newChannels == CountNew(subs.channels, channels[..i])
      invariant unchanged(subs) && unchanged(index)
    {
      PrefixSteps(channels, i);
      if channels[i] !in subs.channels {
        newChannels := newChannels + 1;
      }
    }
    assert channels[..|channels|] == channels;
    if |subs.channels| + newChannels > maxChannels {
      return false;
    }
    subs.AddMultiple(channels);
    index.AddMultiple(channels, client);
    return true;
  }

  // ----- Agreement over whole runs -----

  /** What a client's own goroutine is in the middle of: its set is updated first, the index after. */
  datatype Task = Idle | Adding(channels: seq<Channel>) | Removing(channels: seq<Channel>) | Leaving

  /** One connected client: its subscription set and its current task. */
  datatype Lease = Lease(subs: set<Channel>, task: Task)

  datatype Shard = Shard(index: Index, clients: map<ClientId, Lease>)

  /** The operations of all clients, in any interleaving.  Subscribe and reconnect are `StartAdd` and
      `FinishAdd`; SSE registration is one such pair per channel; `Unlist` and `Return` are the two
      halves of a disconnect, after which the client object may be leased again. */
  datatype Label =
    | Connect(c: ClientId)
    | StartAdd(c: ClientId, channels: seq<Channel>)
    | FinishAdd(c: ClientId)
    | StartRemove(c: ClientId, channels: seq<Channel>)
    | FinishRemove(c: ClientId)
    | Unlist(c: ClientId, listed: seq<Channel>)
    | Return(c: ClientId)

  predicate Doing(s: Shard, c: ClientId, t: Task) {
    c in s.clients && s.clients[c].task == t
  }

  predicate Enabled(s: Shard, l: Label) {
    match l
    case Connect(c) => c !in s.clients
    case StartAdd(c, _) => Doing(s, c, Idle)
    case FinishAdd(c) => c in s.clients && s.clients[c].task.Adding?
    case StartRemove(c, _) => Doing(s, c, Idle)
    case FinishRemove(c) => c in s.clients && s.clients[c].task.Removing?
    case Unlist(c, listed) => Doing(s, c, Idle) && Elements(listed) == s.clients[c].subs
    case Return(c) => Doing(s, c, Leaving)
  }

  function With(s: Shard, c: ClientId, subs: set<Channel>, task: Task): Shard {
    s.(clients := s.clients[c := Lease(subs, task)])
  }

  function Apply(s: Shard, l: Label): Shard
    requires Enabled(s, l)
  {
    match l
    case Connect(c) => With(s, c, {}, Idle)
    case StartAdd(c, channels) => With(s, c, s.clients[c].subs + Elements(channels), Adding(channels))
    case FinishAdd(c) =>
      With(s.(index := AddAll(s.index, s.clients[c].task.channels, c)), c, s.clients[c].subs, Idle)
    case StartRemove(c, channels) => With(s, c, s.clients[c].subs - Elements(channels), Removing(channels))
    case FinishRemove(c) =>
      With(s.(index := RemoveAll(s.index, s.clients[c].task.channels, c)), c, s.clients[c].subs, Idle)
    case Unlist(c, listed) => With(s.(index := RemoveAll(s.index, listed, c)), c, s.clients[c].subs, Leaving)
    case Return(c) => s.(clients := s.clients - {c})
  }

  /** Is the client listed under the channel, as its set and its task say it should be? */
  ghost predicate ListedRight(index: Index, c: ClientId, lease: Lease, ch: Channel) {
    var listed := c in Subscribers(index, ch);
    match lease.task
    case Idle => listed <==> ch in lease.subs
    case Adding(channels) => ch in channels || (listed <==> ch in lease.subs)
    case Removing(channels) => ch in channels || (listed <==> ch in lease.subs)
    case Leaving => !listed
  }

  ghost predicate Agreement(s: Shard) {
    && WellFormedIndex(s.index)
    && (forall c, ch :: c in s.clients ==> ListedRight(s.index, c, s.clients[c], ch))
    && (forall c, ch :: c !in s.clients ==> c !in Subscribers(s.index, ch))
    && (forall c :: c in s.clients && s.clients[c].task.Adding? ==> Elements(s.clients[c].task.channels) <= s.clients[c].subs)
    && (forall c :: c in s.clients && s.clients[c].task.Removing? ==> Elements(s.clients[c].task.channels) !! s.clients[c].subs)
  }

  lemma {:induction false} AgreementStep(s: Shard, l: Label)
    requires Agreement(s) && Enabled(s, l)
    ensures Agreement(Apply(s, l))
  {
    match l {
      case FinishAdd(c) => AddAllMembers(s.index, s.clients[c].task.channels, c);
      case FinishRemove(c) => RemoveAllMembers(s.index, s.clients[c].task.channels, c);
      case Unlist(c, listed) => RemoveAllMembers(s.index, listed, c);
      case _ =>
    }
    var t := Apply(s, l);
    forall c, ch | c in t.clients ensures ListedRight(t.index, c, t.clients[c], ch) {
      assert c in s.clients ==> ListedRight(s.index, c, s.clients[c], ch);
    }
    forall c, ch | c !in t.clients ensures c !in Subscribers(t.index, ch) {
      assert c in s.clients ==> ListedRight(s.index, c, s.clients[c], ch);
    }
  }

  ghost predicate Runs(s: Shard, ls: seq<Label>, t: Shard)
    decreases |ls|
  {
    if ls == [] then s == t
    else Enabled(s, ls[0]) && Runs(Apply(s, ls[0]), ls[1..], t)
  }

  lemma {:induction false} RunsAgree(s: Shard, ls: seq<Label>, t: Shard)
    requires Agreement(s) && Runs(s, ls, t)
    ensures Agreement(t)
    decreases |ls|
  {
    if ls == [] {
    } else {
      AgreementStep(s, ls[0]);
      RunsAgree(Apply(s, ls[0]), ls[1..], t);
    }
  }

  /** The last request of the client that concerns the channel was to subscribe. */
  predicate LastSubscribes(past: seq<Label>, c: ClientId, ch: Channel) {
    past != [] &&
    var front, last := past[..|past| - 1], past[|past| - 1];
    match last
    case StartAdd(d, channels) => (d == c && ch in channels) || LastSubscribes(front, c, ch)
    case StartRemove(d, channels) => !(d == c && ch in channels) && LastSubscribes(front, c, ch)
    case Connect(d) => d != c && LastSubscribes(front, c, ch)
    case _ => LastSubscribes(front, c, ch)
  }

  lemma {:induction false} RunSubs(s: Shard, ls: seq<Label>, t: Shard, past: seq<Label>, c: ClientId, ch: Channel)
    requires Runs(s, ls, t) && (c in s.clients ==> (ch in s.clients[c].subs <==> LastSubscribes(past, c, ch)))
    ensures c in t.clients ==> (ch in t.clients[c].subs <==> LastSubscribes(past + ls, c, ch))
    decreases |ls|
  {
    if ls == [] {
      assert past + ls == past;
    } else {
      assert (past + [ls[0]])[..|past|] == past;
      RunSubs(Apply(s, ls[0]), ls[1..], t, past + [ls[0]], c, ch);
      assert past + [ls[0]] + ls[1..] == past + ls;
    }
  }

  /** In every run from an empty shard: lists are never empty and never repeat a client; between its
      operations a client is listed under exactly the channels of its set, which are those it last asked to
      subscribe to; a client that is gone or about to return to the pool is listed nowhere. */
  lemma {:induction false} IndexAgreesOverRuns(ls: seq<Label>, t: Shard, c: ClientId, ch: Channel)
    requires Runs(Shard(map[], map[]), ls, t)
    ensures WellFormedIndex(t.index)
    ensures Doing(t, c, Idle) ==> (c in Subscribers(t.index, ch) <==> ch in t.clients[c].subs)
    ensures Doing(t, c, Idle) ==> (c in Subscribers(t.index, ch) <==> LastSubscribes(ls, c, ch))
    ensures c !in t.clients || Doing(t, c, Leaving) ==> c !in Subscribers(t.index, ch)
  {
    RunsAgree(Shard(map[], map[]), ls, t);
    RunSubs(Shard(map[], map[]), ls, t, [], c, ch);
    assert [] + ls == ls;
    assert c in t.clients ==> ListedRight(t.index, c, t.clients[c], ch);
  }
}
