/** Authorization of a reconnect cursor (ws/internal/server/replay_shared.go).

    A returning client presents one position per channel.  The server decides which
    channels may be replayed and from where each Kafka partition has to be read. */
module CursorAuthorization {
  import opened Common

  /** One Kafka partition. */
  datatype Part = Part(topic: string, partition: int)

  /** A decoded position: the partition a record lies on and its offset there. */
  datatype Pos = Pos(partition: int, offset: nat)

  const MAX_INT64: int := 0x7FFF_FFFF_FFFF_FFFF
  const MIN_INT64: int := -0x8000_0000_0000_0000

  /** The offset after `offset`, in 64-bit arithmetic: the signed 64-bit value congruent to the successor,
      which for the largest offset is the smallest value. */
  function NextOffset(offset: nat): (r: int)
    ensures r <= offset + 1
    ensures offset <= MAX_INT64 ==> MIN_INT64 <= r <= MAX_INT64 && (offset + 1 - r) % 0x1_0000_0000_0000_0000 == 0
    ensures offset == MAX_INT64 ==> r == MIN_INT64
  {
    if offset == MAX_INT64 then MIN_INT64 else offset + 1
  }

  /** What the handler knows when it authorizes a cursor: the client's tenant and current
      subscriptions, the per-client channel limit, the position decoder and the mapping
      from channels to topics. */
  datatype Session = Session(
    tenant: string,
    held: set<Channel>,
    maxChannels: int,
    decode: string -> Option<Pos>,
    topicOf: Channel -> Option<string>)

  /** Tenant ownership: fails closed on an empty channel or tenant. */
  predicate OwnedByTenant(channel: Channel, tenant: string) {
    channel.name != "" && tenant != "" && tenant + "." <= channel.name
  }

  /** Where a channel would be replayed from: its partition and the first offset it lacks. */
  datatype Target = Target(part: Part, start: int)

  /** Every check on one cursor entry except the channel limit. */
  function Resolve(s: Session, channel: Channel, pos: string): Option<Target> {
    if !OwnedByTenant(channel, s.tenant) then None else
    var p := s.decode(pos);
    if p.None? then None else
    var topic := s.topicOf(channel);
    if topic.None? then None else
    Some(Target(Part(topic.value, p.value.partition), NextOffset(p.value.offset)))
  }

  /** The eligible channels of a cursor, with their targets. */
  ghost function Targets(s: Session, lastPos: map<Channel, string>): map<Channel, Target> {
    map ch | ch in lastPos && Resolve(s, ch, lastPos[ch]).Some? :: Resolve(s, ch, lastPos[ch]).value
  }

  /** A channel of the cursor is eligible exactly if its name is in the client's own tenant, its position decodes and
      it has a topic; it is then to be read on that topic and partition from the offset after its position. */
  lemma {:induction false} EligibleIff(s: Session, lastPos: map<Channel, string>, ch: Channel)
    ensures ch in Targets(s, lastPos) <==>
      && ch in lastPos && ch.name != "" && s.tenant != "" && s.tenant + "." <= ch.name
      && s.decode(lastPos[ch]).Some? && s.topicOf(ch).Some?
    ensures ch in Targets(s, lastPos) ==>
      var pos := s.decode(lastPos[ch]).value;
      Targets(s, lastPos)[ch] == Target(Part(s.topicOf(ch).value, pos.partition), NextOffset(pos.offset))
  {
  }

  type Positions = map<string, map<int, int>>

  /** Start offset requested for a partition, if any. */
  function Lookup(positions: Positions, p: Part): Option<int> {
    if p.topic in positions && p.partition in positions[p.topic]
    then Some(positions[p.topic][p.partition]) else None
  }

  /** Every partition is read from the smallest start of the authorized channels on it,
      and no other partition is read. */
  ghost predicate MinimalStarts(targets: map<Channel, Target>, positions: Positions, authorized: set<Channel>)
    requires authorized <= targets.Keys
  {
    && (forall ch :: ch in authorized ==>
        var start := Lookup(positions, targets[ch].part);
        start.Some? && start.value <= targets[ch].start)
    && (forall p: Part :: Lookup(positions, p).Some? ==>
        exists ch :: ch in authorized && targets[ch] == Target(p, Lookup(positions, p).value))
  }

  /** The channel may be replayed, and the partition it lies on is read from the record after its position or
      earlier. */
  predicate IsServed(s: Session, lastPos: map<Channel, string>, positions: Positions, ch: Channel) {
    && ch in lastPos && s.tenant != "" && s.tenant + "." <= ch.name
    && s.decode(lastPos[ch]).Some? && s.topicOf(ch).Some?
    && var pos := s.decode(lastPos[ch]).value;
       var start := Lookup(positions, Part(s.topicOf(ch).value, pos.partition));
       start.Some? && start.value <= NextOffset(pos.offset)
  }

  /** The start of a partition is the offset after the position of one of the channels. */
  ghost predicate IsSourced(s: Session, lastPos: map<Channel, string>, authorized: seq<Channel>, p: Part, start: int) {
    exists ch :: ch in authorized && ch in lastPos && s.topicOf(ch) == Some(p.topic) &&
      s.decode(lastPos[ch]).Some? && s.decode(lastPos[ch]).value.partition == p.partition &&
      start == NextOffset(s.decode(lastPos[ch]).value.offset)
  }

  lemma {:induction false} AuthorizedFacts(s: Session, lastPos: map<Channel, string>, positions: Positions,
      authorized: seq<Channel>)
    requires Elements(authorized) <= Targets(s, lastPos).Keys
    requires MinimalStarts(Targets(s, lastPos), positions, Elements(authorized))
    ensures forall ch :: ch in authorized ==> IsServed(s, lastPos, positions, ch)
    ensures forall p: Part :: Lookup(positions, p).Some? ==>
      IsSourced(s, lastPos, authorized, p, Lookup(positions, p).value)
  {
    var targets := Targets(s, lastPos);
    forall ch | ch in authorized ensures IsServed(s, lastPos, positions, ch) {
      assert ch in Elements(authorized);
      EligibleIff(s, lastPos, ch);
    }
    forall p: Part | Lookup(positions, p).Some? ensures IsSourced(s, lastPos, authorized, p, Lookup(positions, p).value) {
      var ch :| ch in Elements(authorized) && targets[ch] == Target(p, Lookup(positions, p).value);
      EligibleIff(s, lastPos, ch);
      assert ch in authorized;
    }
  }

  /** The channel limit: held channels are never refused, the resulting set stays within
      the limit, and a new channel is refused only once the limit is reached. */
  ghost predicate WithinLimit<T>(held: set<T>, maxChannels: int, eligible: set<T>, authorized: set<T>) {
    && eligible * held <= authorized <= eligible
    && |held + authorized| <= Max(|held|, maxChannels)
    && (authorized != eligible ==> |held + authorized| >= maxChannels)
  }

  /** Lower the start of one partition to `next`, creating the entry if it is missing. */
  function LowerStart(positions: Positions, p: Part, next: int): (r: Positions)
    ensures forall q: Part :: q != p ==> Lookup(r, q) == Lookup(positions, q)
    ensures var was := Lookup(positions, p);
            Lookup(r, p) == if was.None? || next < was.value then Some(next) else was
    ensures r != map[]
  {
    var row := if p.topic in positions then positions[p.topic] else map[];
    if p.partition !in row || next < row[p.partition]
    then positions[p.topic := row[p.partition := next]]
    else positions
  }

  /** What holds once every channel outside `todo` has been decided. */
  ghost predicate Decided(targets: map<Channel, Target>, held: set<Channel>, maxChannels: int, todo: set<Channel>,
                          positions: Positions, authorized: seq<Channel>, newChannels: int)
  {
    && NoDuplicates(authorized)
    && Elements(authorized) <= targets.Keys
    && MinimalStarts(targets, positions, Elements(authorized))
    && WithinLimit(held, maxChannels, targets.Keys - todo, Elements(authorized))
    && newChannels == |Elements(authorized) - held|
    && (positions == map[] <==> authorized == [])
  }

  /** Go's map iteration order is arbitrary; so is the choice of the next channel here. */
  method AuthorizeLastPos(s: Session, lastPos: map<Channel, string>)
    returns (positions: Positions, authorized: seq<Channel>)
    ensures NoDuplicates(authorized)
    ensures Elements(authorized) <= Targets(s, lastPos).Keys
    ensures MinimalStarts(Targets(s, lastPos), positions, Elements(authorized))
    ensures WithinLimit(s.held, s.maxChannels, Targets(s, lastPos).Keys, Elements(authorized))
    ensures positions == map[] <==> authorized == []
    ensures forall ch :: ch in authorized ==> IsServed(s, lastPos, positions, ch)
    ensures forall p: Part :: Lookup(positions, p).Some? ==>
      IsSourced(s, lastPos, authorized, p, Lookup(positions, p).value)
  {
    ghost var targets := Targets(s, lastPos);
    positions, authorized := map[], [];
    var newChannels := 0;
    var todo := lastPos.Keys;
    NothingDecided(targets, s.held, s.maxChannels, todo);
    while todo != {}
      invariant todo <= lastPos.Keys
      invariant Decided(targets, s.held, s.maxChannels, todo, positions, authorized, newChannels)
    {
      var channel :| channel in todo;
      DecideOne(targets, s.held, s.maxChannels, todo, positions, authorized, newChannels, channel);
      todo := todo - {channel};
      var target := Resolve(s, channel, lastPos[channel]);
      if target.None? { continue; }
      if channel !in s.held {
        if |s.held| + newChannels >= s.maxChannels { continue; }
        newChannels := newChannels + 1;
      }
      positions := LowerStart(positions, target.value.part, target.value.start);
      authorized := authorized + [channel];
    }
    assert targets.Keys - {} == targets.Keys;
    AuthorizedFacts(s, lastPos, positions, authorized);
  }

  lemma {:induction false} NothingDecided(targets: map<Channel, Target>, held: set<Channel>, maxChannels: int,
      todo: set<Channel>)
    requires targets.Keys <= todo
    ensures Decided(targets, held, maxChannels, todo, map[], [], 0)
  {
    assert targets.Keys - todo == {};
    assert held + {} == held;
    assert Elements<Channel>([]) == {};
  }

  /** Deciding one channel: an ineligible one changes nothing, an eligible one is accepted when it
      is held or still fits and is refused otherwise. */
  lemma {:induction false} DecideOne(targets: map<Channel, Target>, held: set<Channel>, maxChannels: int,
      todo: set<Channel>,
                  positions: Positions, authorized: seq<Channel>, newChannels: int, ch: Channel)
    requires Decided(targets, held, maxChannels, todo, positions, authorized, newChannels) && ch in todo
    ensures ch !in targets ==>
              Decided(targets, held, maxChannels, todo - {ch}, positions, authorized, newChannels)
    ensures ch in targets && ch !in held && |held| + newChannels >= maxChannels ==>
              Decided(targets, held, maxChannels, todo - {ch}, positions, authorized, newChannels)
    ensures ch in targets && (ch in held || |held| + newChannels < maxChannels) ==>
              Decided(targets, held, maxChannels, todo - {ch},
                      LowerStart(positions, targets[ch].part, targets[ch].start), authorized + [ch],
                      if ch in held then newChannels else newChannels + 1)
  {
    RemoveOne(targets.Keys, todo, ch);
    if ch in targets {
      LimitStep(held, maxChannels, targets.Keys - todo, Elements(authorized), ch);
      if ch in held || |held| + newChannels < maxChannels {
        AppendFresh(authorized, ch);
        LowerStartStaysMinimal(targets, positions, Elements(authorized), ch);
      }
    }
  }

  lemma {:induction false} RemoveOne<T>(eligible: set<T>, todo: set<T>, ch: T)
    requires ch in todo
    ensures eligible - (todo - {ch}) == (eligible - todo) + if ch in eligible then {ch} else {}
  {
  }

  /** Deciding one more eligible channel: accept it when it is held or still fits, else refuse it. */
  lemma {:induction false} LimitStep<T>(held: set<T>, maxChannels: int, known: set<T>, authorized: set<T>, ch: T)
    requires WithinLimit(held, maxChannels, known, authorized) && ch !in known
    ensures |authorized + {ch} - held| == |authorized - held| + if ch in held then 0 else 1
    ensures WithinLimit(held, maxChannels, known + {ch},
                        if ch in held || |held| + |authorized - held| < maxChannels then authorized + {ch} else authorized)
  {
    UnionSize(held, authorized);
    UnionSize(held, authorized + {ch});
    if ch in held {
      assert authorized + {ch} - held == authorized - held;
    } else {
      assert authorized + {ch} - held == (authorized - held) + {ch};
    }
  }

  lemma {:induction false} UnionSize<T>(a: set<T>, b: set<T>)
    ensures |a + b| == |a| + |b - a|
  {
    assert a + b == a + (b - a);
  }

  /** One more channel: only its own partition's start may move, and only downwards. */
  lemma {:induction false} LowerStartStaysMinimal(targets: map<Channel, Target>, before: Positions,
      authorized: set<Channel>, ch: Channel)
    requires authorized <= targets.Keys && ch in targets
    requires MinimalStarts(targets, before, authorized)
    ensures MinimalStarts(targets, LowerStart(before, targets[ch].part, targets[ch].start), authorized + {ch})
  {
    var after := LowerStart(before, targets[ch].part, targets[ch].start);
    forall p: Part | Lookup(after, p).Some?
      ensures exists x :: x in authorized + {ch} && targets[x] == Target(p, Lookup(after, p).value)
    {
      if targets[ch] == Target(p, Lookup(after, p).value) {
        assert ch in authorized + {ch};
      } else {
        var x :| x in authorized && targets[x] == Target(p, Lookup(before, p).value);
        assert x in authorized + {ch};
      }
    }
  }
}
