/** Reconnect recovery on a ws-server shard: registration of live delivery, the Kafka replay and the
    recovery verdict, interleaved with producers, the broadcast loop and the write pump
    (ws/internal/server: replay_shared.go, handlers_message.go, grpc_service.go, broadcast.go,
    kafka/consumer.go).

    One client is followed.  Every step another goroutine could observe is a separate label, and a
    run is any sequence of enabled labels. */
module ReconnectRecovery {
  import opened Common
  import opened CursorAuthorization
  import opened RecoveryVerdict
  import opened SendQueue
  import SseCursor

  // ----- Data model -----

  /** A record of the log: its partition and offset. */
  datatype RecId = RecId(part: Part, offset: nat)

  /** The Kafka partitions; a record is represented by the channel it carries. */
  type Log = map<Part, seq<Channel>>

  /** What travels on the client's send queue. */
  datatype Frame =
    | Live(rec: RecId, seqNo: nat)
    | Replayed(rec: RecId, seqNo: nat)
    | NoReplay(channels: seq<Channel>)
    | ReplayTruncated(count: nat)
    | RecoveryComplete
    | OtherFrame

  /** The fixed part of one reconnect: the channels registered for live delivery before the replay
      (the requested ones on SSE, the authorized ones on WebSocket), the authorized cursor and the
      replay cap. */
  datatype Request = Request(
    requested: seq<Channel>,
    live: set<Channel>,
    authorized: set<Channel>,
    starts: map<Part, int>,
    cursor: map<Channel, RecId>,
    maxMessages: int)

  /** Producers, broadcast and the client's queue. */
  datatype World = World(
    log: Log,
    index: set<Channel>,        // channels under which the client is in the subscription index
    missed: set<RecId>,         // broadcast while the client was not registered
    inflight: set<RecId>,       // broadcast found the client; its send attempt is still to come
    attempted: set<RecId>,      // broadcast made its send attempt to the client
    seqNo: nat,                 // last sequence number taken from the client's generator
    send: Fifo<Frame>)

  /** The replay goroutine's local state. */
  datatype Replay = Replay(
    registered: set<Channel>,   // channels registered so far
    ends: map<Part, nat>,       // captured log ends
    pos: map<Part, nat>,        // next offset the replay consumer fetches
    pending: set<Part>,         // partitions not yet caught up to their captured end
    batch: seq<RecId>,          // fetched, not yet processed
    msgs: seq<RecId>,           // the replay result
    sent: nat,                  // results handled so far
    count: nat,                 // results enqueued so far
    skipped: bool,              // a result could not be serialized
    expired: bool)              // the replay context ran out

  datatype Outcome = Undecided | Errored | Finished(truncated: bool)

  datatype Phase = Registering | Capturing | Fetching | Sending | Reporting(stage: nat)

  datatype State = State(w: World, x: Replay, phase: Phase, outcome: Outcome, cancelled: bool)

  datatype Label =
    | Append(p: Part, ch: Channel)   // a producer writes a record
    | Find(r: RecId)                 // Broadcast reads the index for a record
    | Attempt(r: RecId)              // Broadcast's non-blocking send to the client
    | Drain                          // the write pump takes one frame
    | PushOther                      // any other frame is enqueued
    | Register(ch: Channel)          // the client joins the index under one channel
    | BeginReplay
    | SkipReplay                     // nothing authorized: the backend is not called
    | Capture(p: Part)               // log end of one partition
    | StartFetch
    | Poll(b: seq<RecId>)            // one fetch
    | Take                           // one fetched record is processed
    | EndFetch
    | BackendError
    | Expire                         // the replay context runs out
    | Enqueue(serializes: bool)      // one result is serialized and offered to the send queue
    | EndReplay
    | Report                         // one stage of the verdict
    | Abandon                        // a verdict frame is given up because the stream context is done
    | Cancel                         // the stream context is cancelled

  function LogOf(log: Log, p: Part): seq<Channel> {
    if p in log then log[p] else []
  }

  predicate InLog(log: Log, r: RecId) {
    r.offset < |LogOf(log, r.part)|
  }

  function ChannelOf(log: Log, r: RecId): Channel
    requires InLog(log, r)
  {
    LogOf(log, r.part)[r.offset]
  }

  // ----- Assumptions on the environment and the request -----

  /** The authorized channels have a cursor, and their partition is read early enough. */
  ghost predicate WellFormed(q: Request) {
    forall ch :: ch in q.authorized ==>
      && ch in q.cursor
      && q.cursor[ch].part in q.starts
      && q.starts[q.cursor[ch].part] <= q.cursor[ch].offset + 1
  }

  /** A channel's records all lie on the partition its cursor names. */
  predicate OnItsPartition(q: Request, p: Part, ch: Channel) {
    ch in q.authorized && ch in q.cursor ==> p == q.cursor[ch].part
  }

  /** A fetch returns the next records of the requested partitions, each partition in order. */
  predicate ValidBatch(log: Log, pos: map<Part, nat>, b: seq<RecId>) {
    b == [] ||
    (&& b[0].part in pos
     && b[0].offset == pos[b[0].part]
     && InLog(log, b[0])
     && ValidBatch(log, pos[b[0].part := b[0].offset + 1], b[1..]))
  }

  // ----- Steps -----

  /** The possible-gap list the verdict reports. */
  function GapOf(q: Request, o: Outcome): seq<Channel> {
    PossibleGap(q.requested, if o == Finished(false) then q.authorized else {})
  }

  /** Is there anything to say at this stage of the verdict? */
  predicate Needed(q: Request, o: Outcome, stage: nat) {
    match stage
    case 0 => GapOf(q, o) != []
    case 1 => o == Finished(true)
    case _ => true
  }

  function VerdictFrame(q: Request, o: Outcome, count: nat, stage: nat): Frame {
    match stage
    case 0 => NoReplay(GapOf(q, o))
    case 1 => ReplayTruncated(count)
    case _ => RecoveryComplete
  }

  predicate Enabled(q: Request, s: State, l: Label) {
    match l
    case Append(p, ch) => OnItsPartition(q, p, ch)
    case Find(r) => InLog(s.w.log, r)
    case Attempt(r) => r in s.w.inflight
    case Drain => !s.w.send.Empty()
    case PushOther => !s.w.send.Full()
    case Register(ch) => s.phase == Registering && ch in q.live
    case BeginReplay => s.phase == Registering && s.x.registered == q.live && q.starts != map[]
    case SkipReplay => s.phase == Registering && s.x.registered == q.live && q.starts == map[]
    case Capture(p) => s.phase == Capturing && p in q.starts && p !in s.x.ends
    case StartFetch => s.phase == Capturing && s.x.ends.Keys == q.starts.Keys
    case Poll(b) => s.phase == Fetching && s.x.batch == [] && |s.x.msgs| < q.maxMessages && s.x.pending != {} &&
                    ValidBatch(s.w.log, s.x.pos, b)
    case Take => s.phase == Fetching && s.x.batch != [] &&
                 s.x.batch[0].part in s.x.ends && InLog(s.w.log, s.x.batch[0])
    case EndFetch => s.phase == Fetching && s.x.batch == [] && (s.x.pending == {} || |s.x.msgs| >= q.maxMessages)
    case BackendError => s.phase == Capturing || s.phase == Fetching
    case Expire => true
    case Enqueue(_) => s.phase == Sending && s.x.sent < |s.x.msgs|
    case EndReplay => s.phase == Sending && s.x.sent == |s.x.msgs|
    case Report => s.phase.Reporting? && s.phase.stage < 3 &&
                   (Needed(q, s.outcome, s.phase.stage) ==> !s.w.send.Full())
    case Abandon => s.phase.Reporting? && s.phase.stage < 3 && Needed(q, s.outcome, s.phase.stage) && s.cancelled
    case Cancel => true
  }

  function ApplyWorld(w: World, l: Label): World {
    match l
    case Append(p, ch) => w.(log := w.log[p := LogOf(w.log, p) + [ch]])
    case Find(r) =>
      if InLog(w.log, r) && ChannelOf(w.log, r) in w.index
      then w.(inflight := w.inflight + {r})
      else w.(missed := w.missed + {r})
    case Attempt(r) =>
      var w' := w.(inflight := w.inflight - {r}, attempted := w.attempted + {r}, seqNo := w.seqNo + 1);
      if w.send.Full() then w' else w'.(send := w.send.Push(Live(r, w.seqNo + 1)))
    case Drain => w.(send := w.send.Pop())
    case PushOther => w.(send := w.send.Push(OtherFrame))
    case _ => w
  }

  /** Processing one fetched record: the caught-up bookkeeping first, then the cap and the filter. */
  function TakeOne(q: Request, log: Log, x: Replay): Replay
    requires x.batch != [] && x.batch[0].part in x.ends && InLog(log, x.batch[0])
  {
    var r := x.batch[0];
    x.(batch := x.batch[1..],
       pos := x.pos[r.part := r.offset + 1],
       pending := if r.offset + 1 >= x.ends[r.part] then x.pending - {r.part} else x.pending,
       msgs := if |x.msgs| < q.maxMessages && ChannelOf(log, r) in q.authorized then x.msgs + [r] else x.msgs)
  }

  function DoRegister(s: State, ch: Channel): State {
    s.(w := s.w.(index := s.w.index + {ch}), x := s.x.(registered := s.x.registered + {ch}))
  }

  /** A cursor past the log end is out of range and fails the whole replay. */
  function DoCapture(q: Request, s: State, p: Part): State
    requires p in q.starts
  {
    var end := |LogOf(s.w.log, p)|;
    if q.starts[p] > end then Fail(s) else s.(x := s.x.(ends := s.x.ends[p := end]))
  }

  function Fail(s: State): State {
    s.(phase := Reporting(0), outcome := Errored)
  }

  function DoStartFetch(q: Request, s: State): State {
    s.(phase := Fetching,
       x := s.x.(pos := map p | p in q.starts :: Max(0, q.starts[p]),
                 pending := set p | p in q.starts && p in s.x.ends && q.starts[p] != s.x.ends[p]))
  }

  /** The next result takes a sequence number; then it is serialized and offered without blocking. */
  function DoEnqueue(s: State, serializes: bool): State
    requires s.x.sent < |s.x.msgs|
  {
    var w := s.w.(seqNo := s.w.seqNo + 1);
    if !serializes then
      s.(w := w, x := s.x.(sent := s.x.sent + 1, skipped := true))
    else if w.send.Full() then
      s.(w := w, phase := Reporting(0), outcome := Finished(true))
    else
      s.(w := w.(send := w.send.Push(Replayed(s.x.msgs[s.x.sent], w.seqNo))),
         x := s.x.(sent := s.x.sent + 1, count := s.x.count + 1))
  }

  function DoEndReplay(q: Request, s: State): State {
    s.(phase := Reporting(0), outcome := Finished(|s.x.msgs| >= q.maxMessages || s.x.expired || s.x.skipped))
  }

  function DoReport(q: Request, s: State): State
    requires s.phase.Reporting?
  {
    var stage := s.phase.stage;
    s.(phase := Reporting(stage + 1),
       w := if Needed(q, s.outcome, stage)
            then s.w.(send := s.w.send.Push(VerdictFrame(q, s.outcome, s.x.count, stage)))
            else s.w)
  }

  function Apply(q: Request, s: State, l: Label): State
    requires Enabled(q, s, l)
  {
    match l
    case Register(ch) => DoRegister(s, ch)
    case BeginReplay => s.(phase := Capturing)
    case SkipReplay => s.(phase := Reporting(0), outcome := Finished(false))
    case Capture(p) => DoCapture(q, s, p)
    case StartFetch => DoStartFetch(q, s)
    case Poll(b) => s.(x := s.x.(batch := b))
    case Take => s.(x := TakeOne(q, s.w.log, s.x))
    case EndFetch => s.(phase := Sending)
    case BackendError => Fail(s)
    case Expire => s.(x := s.x.(expired := true))
    case Enqueue(serializes) => DoEnqueue(s, serializes)
    case EndReplay => DoEndReplay(q, s)
    case Report => DoReport(q, s)
    case Abandon => s.(phase := Reporting(s.phase.stage + 1))
    case Cancel => s.(cancelled := true)
    case _ => s.(w := ApplyWorld(s.w, l))
  }

  /** Only records of the log are broadcast. */
  ghost predicate BroadcastInLog(w: World) {
    forall r :: r in w.missed || r in w.inflight || r in w.attempted ==> InLog(w.log, r)
  }

  /** Any log, any earlier broadcasts and any queue; the reconnect is about to register. */
  ghost predicate Init(q: Request, s: State) {
    && WellFormed(q)
    && (forall p, o :: p in s.w.log && 0 <= o < |s.w.log[p]| ==> OnItsPartition(q, p, s.w.log[p][o]))
    && BroadcastInLog(s.w)
    && s.w.send.Valid()
    && (forall f :: f in s.w.send.log ==> f.Live? || f.OtherFrame?)
    && s.x == Replay({}, map[], map[], {}, [], [], 0, 0, false, false)
    && s.phase == Registering && s.outcome == Undecided && !s.cancelled
  }

  /** The run that takes the labels `ls` from `s` ends in `t`. */
  ghost predicate Runs(q: Request, s: State, ls: seq<Label>, t: State)
    decreases |ls|
  {
    if ls == [] then s == t
    else Enabled(q, s, ls[0]) && Runs(q, Apply(q, s, ls[0]), ls[1..], t)
  }

  // ----- Invariant -----

  ghost predicate WorldInv(q: Request, w: World) {
    && (forall p, o :: p in w.log && 0 <= o < |w.log[p]| ==> OnItsPartition(q, p, w.log[p][o]))
    && (forall r :: r in w.missed ==> InLog(w.log, r))
    && w.send.Valid()
  }

  /** Registration precedes everything else, and a registered channel stays in the index. */
  ghost predicate RegisteredInv(q: Request, s: State) {
    && s.x.registered <= s.w.index
    && (s.phase != Registering ==> q.live <= s.w.index)
    && (s.phase == Registering ==> s.x.ends == map[])
  }

  /** A record missed by live delivery lies before the captured end of its partition. */
  ghost predicate SeamInv(q: Request, w: World, ends: map<Part, nat>) {
    forall r :: r in w.missed && InLog(w.log, r) && ChannelOf(w.log, r) in q.live && r.part in ends ==>
      r.offset < ends[r.part]
  }

  /** Before the first fetch there is no result; captured ends lie within the log. */
  ghost predicate CapturedInv(q: Request, s: State) {
    && (forall p :: p in s.x.ends ==> p in q.starts && q.starts[p] <= s.x.ends[p] <= |LogOf(s.w.log, p)|)
    && (s.phase == Registering || s.phase == Capturing ==> s.x.batch == [] && s.x.msgs == [])
    && (s.phase == Registering || s.phase == Capturing || s.phase == Fetching ==> s.x.sent == 0)
  }

  /** Everything consumed so far that passes the filter is in the result, unless the cap was hit. */
  ghost predicate FetchedInv(q: Request, log: Log, x: Replay) {
    && x.pos.Keys == q.starts.Keys == x.ends.Keys
    && (forall p :: p in q.starts ==> x.pos[p] <= |LogOf(log, p)|)
    && (forall p :: p in q.starts && p !in x.pending ==> x.ends[p] <= x.pos[p])
    && (|x.msgs| < q.maxMessages ==>
        forall r: RecId ::
          (&& r.part in q.starts && q.starts[r.part] <= r.offset < x.pos[r.part]
           && InLog(log, r) && ChannelOf(log, r) in q.authorized) ==> r in x.msgs)
  }

  /** Within a partition, offsets increase. */
  predicate Ascending(rs: seq<RecId>) {
    forall i, j :: 0 <= i < j < |rs| && rs[i].part == rs[j].part ==> rs[i].offset < rs[j].offset
  }

  /** The result is ordered and lies before the next fetch. */
  ghost predicate OrderedInv(x: Replay) {
    && (forall r :: r in x.msgs ==> r.part in x.pos && r.offset < x.pos[r.part])
    && Ascending(x.msgs)
  }

  /** The replayed frames of a queue, as records. */
  function ReplayedRecords(log: seq<Frame>): seq<RecId> {
    if log == [] then [] else
    var rest := ReplayedRecords(log[..|log| - 1]);
    var last := log[|log| - 1];
    if last.Replayed? then rest + [last.rec] else rest
  }

  /** What was enqueued by the replay is what was handled, unless a record did not serialize. */
  ghost predicate SentInv(s: State) {
    && s.x.sent <= |s.x.msgs|
    && (!s.x.skipped ==> ReplayedRecords(s.w.send.log) == s.x.msgs[..s.x.sent])
  }

  /** A replay that ended untruncated fetched and sent everything. */
  ghost predicate OutcomeInv(q: Request, s: State) {
    && (s.phase.Sending? ==> s.x.pending == {} || |s.x.msgs| >= q.maxMessages)
    && (s.outcome == Finished(false) && q.starts != map[] ==>
        && FetchedInv(q, s.w.log, s.x)
        && s.x.pending == {} && |s.x.msgs| < q.maxMessages
        && s.x.sent == |s.x.msgs| && !s.x.skipped)
    && (s.outcome == Undecided <==> !s.phase.Reporting?)
  }

  ghost predicate Inv(q: Request, s: State) {
    && WorldInv(q, s.w)
    && RegisteredInv(q, s)
    && SeamInv(q, s.w, s.x.ends)
    && CapturedInv(q, s)
    && (s.phase == Fetching || s.phase == Sending ==> FetchedInv(q, s.w.log, s.x))
    && (s.phase == Fetching ==> ValidBatch(s.w.log, s.x.pos, s.x.batch))
    && OrderedInv(s.x)
    && SentInv(s)
    && OutcomeInv(q, s)
  }

  // ----- Preservation: producers, broadcast, pump -----

  lemma {:induction false} AppendFrame(log: seq<Frame>, f: Frame)
    ensures ReplayedRecords(log + [f]) == ReplayedRecords(log) + if f.Replayed? then [f.rec] else []
  {
    assert (log + [f])[..|log|] == log;
  }

  /** Records already in the log keep their place and their channel. */
  ghost predicate Grows(log: Log, log': Log) {
    forall p: Part :: LogOf(log, p) <= LogOf(log', p)
  }

  lemma {:induction false} BatchStaysValid(log: Log, log': Log, pos: map<Part, nat>, b: seq<RecId>)
    requires Grows(log, log') && ValidBatch(log, pos, b)
    ensures ValidBatch(log', pos, b)
  {
    if b == [] {
    } else {
      BatchStaysValid(log, log', pos[b[0].part := b[0].offset + 1], b[1..]);
    }
  }

  lemma {:induction false} FetchedStays(q: Request, log: Log, log': Log, x: Replay)
    requires Grows(log, log') && FetchedInv(q, log, x)
    ensures FetchedInv(q, log', x)
  {
    forall p | p in q.starts ensures x.pos[p] <= |LogOf(log', p)| {
      assert LogOf(log, p) <= LogOf(log', p);
    }
    if |x.msgs| < q.maxMessages {
      forall r: RecId | r.part in q.starts && q.starts[r.part] <= r.offset < x.pos[r.part] &&
                        InLog(log', r) && ChannelOf(log', r) in q.authorized
        ensures r in x.msgs
      {
        assert LogOf(log, r.part) <= LogOf(log', r.part);
        assert InLog(log, r);
      }
    }
  }

  lemma {:induction false} AppendStep(q: Request, s: State, p: Part, ch: Channel)
    requires Inv(q, s) && OnItsPartition(q, p, ch)
    ensures Inv(q, s.(w := ApplyWorld(s.w, Append(p, ch))))
  {
    var log, log' := s.w.log, ApplyWorld(s.w, Append(p, ch)).log;
    assert Grows(log, log');
    if s.phase == Fetching { BatchStaysValid(log, log', s.x.pos, s.x.batch); }
    if FetchedInv(q, log, s.x) { FetchedStays(q, log, log', s.x); }
  }

  lemma {:induction false} FindStep(q: Request, s: State, r: RecId)
    requires Inv(q, s) && InLog(s.w.log, r)
    ensures Inv(q, s.(w := ApplyWorld(s.w, Find(r))))
  {
  }

  /** A step that leaves log, index, missed records and replay alone and enqueues no replayed frame. */
  lemma {:induction false} QueueStep(q: Request, s: State, t: State)
    requires Inv(q, s)
    requires t.w.log == s.w.log && t.w.index == s.w.index && t.w.missed == s.w.missed
    requires t.x == s.x && t.outcome == s.outcome
    requires t.phase == s.phase || (s.phase.Reporting? && t.phase.Reporting?)
    requires t.w.send.Valid() && ReplayedRecords(t.w.send.log) == ReplayedRecords(s.w.send.log)
    ensures Inv(q, t)
  {
  }

  lemma {:induction false} AttemptStep(q: Request, s: State, r: RecId)
    requires Inv(q, s)
    ensures Inv(q, s.(w := ApplyWorld(s.w, Attempt(r))))
  {
    AppendFrame(s.w.send.log, Live(r, s.w.seqNo + 1));
    QueueStep(q, s, s.(w := ApplyWorld(s.w, Attempt(r))));
  }

  lemma {:induction false} PumpStep(q: Request, s: State)
    requires Inv(q, s)
    ensures !s.w.send.Empty() ==> Inv(q, s.(w := ApplyWorld(s.w, Drain)))
    ensures !s.w.send.Full() ==> Inv(q, s.(w := ApplyWorld(s.w, PushOther)))
    ensures Inv(q, s.(cancelled := true))
  {
    if !s.w.send.Empty() { QueueStep(q, s, s.(w := ApplyWorld(s.w, Drain))); }
    AppendFrame(s.w.send.log, OtherFrame);
    if !s.w.send.Full() { QueueStep(q, s, s.(w := ApplyWorld(s.w, PushOther))); }
    QueueStep(q, s, s.(cancelled := true));
  }

  // ----- Preservation: registration, replay, verdict -----

  lemma {:induction false} RegisterStep(q: Request, s: State, ch: Channel)
    requires Inv(q, s) && s.phase == Registering
    ensures Inv(q, DoRegister(s, ch))
  {
  }

  lemma {:induction false} BeginStep(q: Request, s: State)
    requires Inv(q, s) && s.phase == Registering && q.live <= s.x.registered
    ensures Inv(q, s.(phase := Capturing))
  {
  }

  lemma {:induction false} SkipStep(q: Request, s: State)
    requires Inv(q, s) && s.phase == Registering && q.live <= s.x.registered && q.starts == map[]
    ensures Inv(q, s.(phase := Reporting(0), outcome := Finished(false)))
  {
  }

  lemma {:induction false} CaptureStep(q: Request, s: State, p: Part)
    requires Inv(q, s) && s.phase == Capturing && p in q.starts && p !in s.x.ends
    ensures Inv(q, DoCapture(q, s, p))
  {
  }

  lemma {:induction false} StartFetchStep(q: Request, s: State)
    requires Inv(q, s) && s.phase == Capturing && s.x.ends.Keys == q.starts.Keys
    ensures Inv(q, DoStartFetch(q, s))
  {
  }

  lemma {:induction false} PollStep(q: Request, s: State, b: seq<RecId>)
    requires Inv(q, s) && s.phase == Fetching && ValidBatch(s.w.log, s.x.pos, b)
    ensures Inv(q, s.(x := s.x.(batch := b)))
  {
  }

  lemma {:induction false} TakeFetches(q: Request, log: Log, x: Replay)
    requires x.batch != [] && x.batch[0].part in x.ends && InLog(log, x.batch[0])
    requires FetchedInv(q, log, x) && ValidBatch(log, x.pos, x.batch)
    ensures FetchedInv(q, log, TakeOne(q, log, x))
  {
    var r, x' := x.batch[0], TakeOne(q, log, x);
    if |x'.msgs| < q.maxMessages {
      forall k: RecId | k.part in q.starts && q.starts[k.part] <= k.offset < x'.pos[k.part] &&
                        InLog(log, k) && ChannelOf(log, k) in q.authorized
        ensures k in x'.msgs
      {
        if k != r { assert k in x.msgs; }
      }
    }
  }

  lemma {:induction false} TakeOrders(q: Request, log: Log, x: Replay)
    requires x.batch != [] && x.batch[0].part in x.ends && InLog(log, x.batch[0])
    requires OrderedInv(x) && ValidBatch(log, x.pos, x.batch)
    ensures OrderedInv(TakeOne(q, log, x))
  {
    var r, x' := x.batch[0], TakeOne(q, log, x);
    forall i, j | 0 <= i < j < |x'.msgs| && x'.msgs[i].part == x'.msgs[j].part
      ensures x'.msgs[i].offset < x'.msgs[j].offset
    {
      assert x.msgs[i] in x.msgs;
    }
  }

  lemma {:induction false} TakeStep(q: Request, s: State)
    requires Inv(q, s) && Enabled(q, s, Take)
    ensures Inv(q, s.(x := TakeOne(q, s.w.log, s.x)))
  {
    TakeFetches(q, s.w.log, s.x);
    TakeOrders(q, s.w.log, s.x);
  }

  lemma {:induction false} EndFetchStep(q: Request, s: State)
    requires Inv(q, s) && Enabled(q, s, EndFetch)
    ensures Inv(q, s.(phase := Sending))
  {
  }

  lemma {:induction false} FailStep(q: Request, s: State)
    requires Inv(q, s) && (s.phase == Capturing || s.phase == Fetching)
    ensures Inv(q, Fail(s))
  {
  }

  lemma {:induction false} ExpireStep(q: Request, s: State)
    requires Inv(q, s)
    ensures Inv(q, s.(x := s.x.(expired := true)))
  {
    assert FetchedInv(q, s.w.log, s.x) ==> FetchedInv(q, s.w.log, s.x.(expired := true));
  }

  lemma {:induction false} EnqueueSends(q: Request, s: State)
    requires Inv(q, s) && s.phase == Sending && s.x.sent < |s.x.msgs| && !s.w.send.Full()
    ensures Inv(q, DoEnqueue(s, true))
  {
    var x := s.x;
    AppendFrame(s.w.send.log, Replayed(x.msgs[x.sent], s.w.seqNo + 1));
    TakeNext(x.msgs, x.sent);
  }

  lemma {:induction false} TakeNext<T>(s: seq<T>, i: nat)
    requires i < |s|
    ensures s[..i + 1] == s[..i] + [s[i]]
  {
  }

  lemma {:induction false} EnqueueStops(q: Request, s: State, serializes: bool)
    requires Inv(q, s) && s.phase == Sending && s.x.sent < |s.x.msgs| && (serializes ==> s.w.send.Full())
    ensures Inv(q, DoEnqueue(s, serializes))
  {
  }

  lemma {:induction false} EnqueueStep(q: Request, s: State, serializes: bool)
    requires Inv(q, s) && s.phase == Sending && s.x.sent < |s.x.msgs|
    ensures Inv(q, DoEnqueue(s, serializes))
  {
    if serializes && !s.w.send.Full() {
      EnqueueSends(q, s);
    } else {
      EnqueueStops(q, s, serializes);
    }
  }

  lemma {:induction false} EndReplayStep(q: Request, s: State)
    requires Inv(q, s) && s.phase == Sending && s.x.sent == |s.x.msgs|
    ensures Inv(q, DoEndReplay(q, s))
  {
  }

  lemma {:induction false} ReportStep(q: Request, s: State)
    requires Inv(q, s) && s.phase.Reporting?
    ensures (Needed(q, s.outcome, s.phase.stage) ==> !s.w.send.Full()) ==> Inv(q, DoReport(q, s))
    ensures Inv(q, s.(phase := Reporting(s.phase.stage + 1)))
  {
    AppendFrame(s.w.send.log, VerdictFrame(q, s.outcome, s.x.count, s.phase.stage));
    if Needed(q, s.outcome, s.phase.stage) ==> !s.w.send.Full() {
      QueueStep(q, s, DoReport(q, s));
    }
    QueueStep(q, s, s.(phase := Reporting(s.phase.stage + 1)));
  }

  predicate FromReplay(l: Label) {
    || l.Capture? || l.StartFetch? || l.Poll? || l.Take? || l.EndFetch? || l.BackendError? || l.Expire?
    || l.Enqueue? || l.EndReplay?
  }

  lemma {:induction false} ReplayInvStep(q: Request, s: State, l: Label)
    requires Inv(q, s) && Enabled(q, s, l) && FromReplay(l)
    ensures Inv(q, Apply(q, s, l))
  {
    match l
    case Capture(p) => CaptureStep(q, s, p);
    case StartFetch => StartFetchStep(q, s);
    case Poll(b) => PollStep(q, s, b);
    case Take => TakeStep(q, s);
    case EndFetch => EndFetchStep(q, s);
    case BackendError => FailStep(q, s);
    case Expire => ExpireStep(q, s);
    case Enqueue(serializes) => EnqueueStep(q, s, serializes);
    case EndReplay => EndReplayStep(q, s);
  }

  lemma {:induction false} InvStep(q: Request, s: State, l: Label)
    requires Inv(q, s) && Enabled(q, s, l)
    ensures Inv(q, Apply(q, s, l))
  {
    if FromReplay(l) {
      ReplayInvStep(q, s, l);
    } else {
      match l
      case Append(p, ch) => AppendStep(q, s, p, ch);
      case Find(r) => FindStep(q, s, r);
      case Attempt(r) => AttemptStep(q, s, r);
      case Drain => PumpStep(q, s);
      case PushOther => PumpStep(q, s);
      case Register(ch) => RegisterStep(q, s, ch);
      case BeginReplay => BeginStep(q, s);
      case SkipReplay => SkipStep(q, s);
      case Report => ReportStep(q, s);
      case Abandon => ReportStep(q, s);
      case Cancel => PumpStep(q, s);
    }
  }

  lemma {:induction false} RunInv(q: Request, s: State, ls: seq<Label>, t: State)
    requires Inv(q, s) && Runs(q, s, ls, t)
    ensures Inv(q, t)
    decreases |ls|
  {
    if ls == [] {
    } else {
      InvStep(q, s, ls[0]);
      RunInv(q, Apply(q, s, ls[0]), ls[1..], t);
    }
  }

  lemma {:induction false} NothingReplayed(log: seq<Frame>)
    requires forall f :: f in log ==> f.Live? || f.OtherFrame?
    ensures ReplayedRecords(log) == []
  {
    if log == [] {
    } else {
      assert log[|log| - 1] in log;
      NothingReplayed(log[..|log| - 1]);
    }
  }

  lemma {:induction false} InitInv(q: Request, s: State)
    requires Init(q, s)
    ensures Inv(q, s)
  {
    NothingReplayed(s.w.send.log);
  }

  lemma {:induction false} ReplayedOnQueue(log: seq<Frame>, r: RecId)
    requires r in ReplayedRecords(log)
    ensures exists k :: 0 <= k < |log| && log[k].Replayed? && log[k].rec == r
  {
    var last := log[|log| - 1];
    if last.Replayed? && last.rec == r {
    } else {
      ReplayedOnQueue(log[..|log| - 1], r);
      var k :| 0 <= k < |log| - 1 && log[..|log| - 1][k].Replayed? && log[..|log| - 1][k].rec == r;
      assert log[k].Replayed? && log[k].rec == r;
    }
  }

  /** A record the untruncated replay had to cover is in its result. */
  lemma {:induction false} ReplayCovers(q: Request, t: State, r: RecId)
    requires WellFormed(q) && Inv(q, t) && t.outcome == Finished(false)
    requires InLog(t.w.log, r) && ChannelOf(t.w.log, r) in q.authorized
    requires q.cursor[ChannelOf(t.w.log, r)].offset < r.offset
    requires r.part in t.x.ends && r.offset < t.x.ends[r.part]
    ensures r in t.x.msgs && q.starts != map[]
  {
    var ch := ChannelOf(t.w.log, r);
    assert OnItsPartition(q, r.part, t.w.log[r.part][r.offset]);
    assert r.part == q.cursor[ch].part;
  }

  /** What has happened since `m`: the log has grown, and partition ends captured meanwhile lie at or past
      the log ends of `m`. */
  ghost predicate Since(m: State, t: State) {
    && Grows(m.w.log, t.w.log)
    && BroadcastInLog(t.w)
    && forall p :: p in t.x.ends ==> |LogOf(m.w.log, p)| <= t.x.ends[p]
  }

  lemma {:induction false} InLogGrows(log: Log, log': Log, r: RecId)
    requires Grows(log, log') && InLog(log, r)
    ensures InLog(log', r)
  {
    assert LogOf(log, r.part) <= LogOf(log', r.part);
  }

  lemma {:induction false} SinceAppend(m: State, s: State, p: Part, ch: Channel)
    requires Since(m, s)
    ensures Since(m, s.(w := ApplyWorld(s.w, Append(p, ch))))
  {
    var t := s.(w := ApplyWorld(s.w, Append(p, ch)));
    assert Grows(s.w.log, t.w.log);
    forall r | r in t.w.missed || r in t.w.inflight || r in t.w.attempted ensures InLog(t.w.log, r) {
      InLogGrows(s.w.log, t.w.log, r);
    }
    forall o: Part ensures LogOf(m.w.log, o) <= LogOf(t.w.log, o) {
      assert LogOf(m.w.log, o) <= LogOf(s.w.log, o) && LogOf(s.w.log, o) <= LogOf(t.w.log, o);
    }
  }

  lemma {:induction false} SinceCapture(q: Request, m: State, s: State, p: Part)
    requires Since(m, s) && p in q.starts
    ensures Since(m, DoCapture(q, s, p))
  {
    assert LogOf(m.w.log, p) <= LogOf(s.w.log, p);
  }

  lemma {:induction false} SinceStep(q: Request, m: State, s: State, l: Label)
    requires Since(m, s) && Enabled(q, s, l)
    ensures Since(m, Apply(q, s, l))
  {
    match l
    case Append(p, ch) => SinceAppend(m, s, p, ch);
    case Capture(p) => SinceCapture(q, m, s, p);
    case _ =>
  }

  lemma {:induction false} RunSince(q: Request, m: State, s: State, ls: seq<Label>, t: State)
    requires Since(m, s) && Runs(q, s, ls, t)
    ensures Since(m, t)
    decreases |ls|
  {
    if ls == [] {
    } else {
      SinceStep(q, m, s, ls[0]);
      RunSince(q, m, Apply(q, s, ls[0]), ls[1..], t);
    }
  }

  ghost predicate ReplayedFrame(t: State, r: RecId) {
    exists k :: 0 <= k < |t.w.send.log| && t.w.send.log[k].Replayed? && t.w.send.log[k].rec == r
  }

  lemma {:induction false} CapturedPartition(q: Request, t: State, r: RecId)
    requires WellFormed(q) && Inv(q, t) && t.outcome == Finished(false)
    requires InLog(t.w.log, r) && ChannelOf(t.w.log, r) in q.authorized
    ensures r.part in t.x.ends
  {
    assert OnItsPartition(q, r.part, t.w.log[r.part][r.offset]);
  }

  lemma {:induction false} BelowEnd(q: Request, t: State, r: RecId)
    requires WellFormed(q) && Inv(q, t) && t.outcome == Finished(false)
    requires InLog(t.w.log, r) && ChannelOf(t.w.log, r) in q.authorized
    requires q.cursor[ChannelOf(t.w.log, r)].offset < r.offset
    requires r.part in t.x.ends && r.offset < t.x.ends[r.part]
    ensures ReplayedFrame(t, r)
  {
    ReplayCovers(q, t, r);
    assert t.x.msgs[..t.x.sent] == t.x.msgs;
    ReplayedOnQueue(t.w.send.log, r);
  }

  lemma {:induction false} AboveEnd(q: Request, m: State, t: State, r: RecId)
    requires BroadcastInLog(m.w) && Since(m, t) && SeamInv(q, t.w, t.x.ends)
    requires InLog(t.w.log, r) && ChannelOf(t.w.log, r) in q.live
    requires r.part in t.x.ends && r.offset >= t.x.ends[r.part]
    ensures r !in t.w.missed && r !in m.w.inflight && r !in m.w.attempted && !InLog(m.w.log, r)
  {
  }

  /** Lossless reconnect.  In every interleaving, once the replay has ended without error or truncation,
      every record broadcast on a live, authorized channel past its cursor is accounted for: below the
      captured log end it was enqueued by the replay; from there on it was not missed, and its live
      delivery attempt, made or about to be made, is none of those that existed at any state `m` of the
      run before registration was complete. */
  lemma {:induction false} LosslessReconnect(q: Request, s: State, before: seq<Label>, m: State,
                                             after: seq<Label>, t: State, r: RecId)
    requires Init(q, s) && Runs(q, s, before, m) && m.phase == Registering
    requires Runs(q, m, after, t) && t.outcome == Finished(false)
    requires r in t.w.missed || r in t.w.inflight || r in t.w.attempted
    requires InLog(t.w.log, r) && ChannelOf(t.w.log, r) in q.authorized && ChannelOf(t.w.log, r) in q.live
    requires q.cursor[ChannelOf(t.w.log, r)].offset < r.offset
    ensures r.part in t.x.ends
    ensures r.offset < t.x.ends[r.part] ==> ReplayedFrame(t, r)
    ensures r.offset >= t.x.ends[r.part] ==>
      && r !in t.w.missed && (r in t.w.inflight || r in t.w.attempted)
      && r !in m.w.inflight && r !in m.w.attempted && !InLog(m.w.log, r)
  {
    InitInv(q, s);
    RunInv(q, s, before, m);
    RunInv(q, m, after, t);
    RunSince(q, s, s, before, m);
    RunSince(q, m, m, after, t);
    CapturedPartition(q, t, r);
    if r.offset < t.x.ends[r.part] {
      BelowEnd(q, t, r);
    } else {
      AboveEnd(q, m, t, r);
    }
  }

  // ----- The recovery verdict -----

  /** The stages already passed were reported, unless the stream context was cancelled. */
  ghost predicate StagesReported(q: Request, s: State, sofar: seq<Frame>, stage: nat) {
    !s.cancelled ==>
      && (stage >= 1 && GapOf(q, s.outcome) != [] ==> NoReplay(GapOf(q, s.outcome)) in sofar)
      && (stage >= 2 && s.outcome == Finished(true) ==> ReplayTruncated(s.x.count) in sofar)
  }

  /** Only the last stage enqueues the sentinel, behind the replayed records and the other stages. */
  ghost predicate VerdictInv(q: Request, s: State) {
    && (s.phase.Reporting? ==> s.phase.stage <= 3 && StagesReported(q, s, s.w.send.log, s.phase.stage))
    && (!s.phase.Reporting? || s.phase.stage == 0 ==> forall i :: 0 <= i < |s.w.send.log| ==> !s.w.send.log[i].NoReplay?)
    && (forall i :: 0 <= i < |s.w.send.log| && s.w.send.log[i].RecoveryComplete? ==>
        && s.phase == Reporting(3)
        && StagesReported(q, s, s.w.send.log[..i], 2)
        && ReplayedRecords(s.w.send.log[..i]) == ReplayedRecords(s.w.send.log))
  }

  /** Steps that do not touch the verdict: the queue may get one more frame at its end. */
  lemma {:induction false} OtherVerdictStep(q: Request, s: State, t: State, extra: seq<Frame>)
    requires VerdictInv(q, s)
    requires t.w.send.log == s.w.send.log + extra && |extra| <= 1
    requires extra != [] ==> !extra[0].RecoveryComplete? && !extra[0].NoReplay? && (s.phase.Reporting? ==> !extra[0].Replayed?)
    requires s.phase.Reporting? ==> t.phase == s.phase && t.outcome == s.outcome && t.x.count == s.x.count
    requires !s.phase.Reporting? && t.phase.Reporting? ==> t.phase.stage == 0
    requires s.cancelled ==> t.cancelled
    ensures VerdictInv(q, t)
  {
    if extra == [] {
      assert t.w.send.log == s.w.send.log;
    } else {
      assert extra == [extra[0]];
      AppendFrame(s.w.send.log, extra[0]);
    }
    forall i | 0 <= i < |t.w.send.log| && t.w.send.log[i].RecoveryComplete?
      ensures t.phase == Reporting(3)
      ensures StagesReported(q, t, t.w.send.log[..i], 2)
      ensures ReplayedRecords(t.w.send.log[..i]) == ReplayedRecords(t.w.send.log)
    {
      assert s.w.send.log[i].RecoveryComplete?;
      assert t.w.send.log[..i] == s.w.send.log[..i];
    }
  }

  lemma {:induction false} ReportNotice(q: Request, s: State)
    requires VerdictInv(q, s) && s.phase.Reporting? && s.phase.stage < 2
    ensures VerdictInv(q, DoReport(q, s))
  {
    assert forall i :: 0 <= i < |s.w.send.log| ==> !s.w.send.log[i].RecoveryComplete?;
  }

  lemma {:induction false} ReportSentinel(q: Request, s: State)
    requires VerdictInv(q, s) && s.phase == Reporting(2)
    ensures VerdictInv(q, DoReport(q, s))
  {
    var log, log' := s.w.send.log, DoReport(q, s).w.send.log;
    assert log' == log + [RecoveryComplete] && log'[..|log|] == log;
    AppendFrame(log, RecoveryComplete);
    assert forall i :: 0 <= i < |log| ==> log'[i] == log[i] && !log[i].RecoveryComplete?;
  }

  lemma {:induction false} AbandonVerdictStep(q: Request, s: State)
    requires VerdictInv(q, s) && s.phase.Reporting? && s.phase.stage < 3 && s.cancelled
    ensures VerdictInv(q, s.(phase := Reporting(s.phase.stage + 1)))
  {
    assert forall i :: 0 <= i < |s.w.send.log| ==> !s.w.send.log[i].RecoveryComplete?;
  }

  /** The frames a step that is not part of the verdict adds to the queue. */
  function Added(s: State, l: Label): seq<Frame> {
    match l
    case Attempt(r) => if s.w.send.Full() then [] else [Live(r, s.w.seqNo + 1)]
    case PushOther => [OtherFrame]
    case Enqueue(serializes) =>
      if serializes && !s.w.send.Full() && s.x.sent < |s.x.msgs|
      then [Replayed(s.x.msgs[s.x.sent], s.w.seqNo + 1)] else []
    case _ => []
  }

  lemma {:induction false} VerdictStep(q: Request, s: State, l: Label)
    requires VerdictInv(q, s) && Enabled(q, s, l)
    ensures VerdictInv(q, Apply(q, s, l))
  {
    if l.Report? {
      if s.phase.stage < 2 { ReportNotice(q, s); } else { ReportSentinel(q, s); }
    } else if l.Abandon? {
      AbandonVerdictStep(q, s);
    } else {
      OtherVerdictStep(q, s, Apply(q, s, l), Added(s, l));
    }
  }

  lemma {:induction false} RunVerdict(q: Request, s: State, ls: seq<Label>, t: State)
    requires VerdictInv(q, s) && Runs(q, s, ls, t)
    ensures VerdictInv(q, t)
    decreases |ls|
  {
    if ls == [] {
    } else {
      VerdictStep(q, s, ls[0]);
      RunVerdict(q, Apply(q, s, ls[0]), ls[1..], t);
    }
  }

  /** Verdict soundness.  Wherever the sentinel is enqueued, every requested channel outside the
      possible-gap list has all its records from its cursor to the replay's end on the queue before
      the sentinel; and unless the stream context was cancelled, the possible-gap list and the
      truncation notice are on the queue before it too. */
  lemma {:induction false} VerdictSound(q: Request, s: State, ls: seq<Label>, t: State, i: nat, ch: Channel, r: RecId)
    requires Init(q, s) && Runs(q, s, ls, t)
    requires i < |t.w.send.log| && t.w.send.log[i].RecoveryComplete?
    ensures ch in q.requested && ch !in GapOf(q, t.outcome) ==>
              ch in q.authorized && t.outcome == Finished(false) && q.cursor[ch].part in t.x.ends
    ensures (&& ch in q.requested && ch !in GapOf(q, t.outcome)
             && InLog(t.w.log, r) && ChannelOf(t.w.log, r) == ch
             && q.cursor[ch].offset < r.offset && r.part in t.x.ends && r.offset < t.x.ends[r.part]) ==>
              exists k :: 0 <= k < i && t.w.send.log[k].Replayed? && t.w.send.log[k].rec == r
    ensures !t.cancelled && GapOf(q, t.outcome) != [] ==> NoReplay(GapOf(q, t.outcome)) in t.w.send.log[..i]
    ensures !t.cancelled && t.outcome == Finished(true) ==> ReplayTruncated(t.x.count) in t.w.send.log[..i]
  {
    InitInv(q, s);
    RunInv(q, s, ls, t);
    assert forall k :: 0 <= k < |s.w.send.log| ==> s.w.send.log[k] in s.w.send.log;
    RunVerdict(q, s, ls, t);
    if ch in q.requested && ch !in GapOf(q, t.outcome) {
      PossibleGapExact(q.requested, if t.outcome == Finished(false) then q.authorized else {});
      if InLog(t.w.log, r) && ChannelOf(t.w.log, r) == ch && q.cursor[ch].offset < r.offset &&
         r.part in t.x.ends && r.offset < t.x.ends[r.part] {
        ReplayCovers(q, t, r);
        assert t.x.msgs[..t.x.sent] == t.x.msgs;
        ReplayedOnQueue(t.w.send.log[..i], r);
        var k :| 0 <= k < i && t.w.send.log[..i][k].Replayed? && t.w.send.log[..i][k].rec == r;
        assert t.w.send.log[k].Replayed? && t.w.send.log[k].rec == r;
      }
    }
  }

  // ----- When the verdict misleads -----

  /** The sentinel is on the queue, but the possible-gap list that should precede it is not. */
  ghost predicate Misled(q: Request, t: State) {
    && RecoveryComplete in t.w.send.log
    && GapOf(q, t.outcome) != []
    && NoReplay(GapOf(q, t.outcome)) !in t.w.send.log
  }

  /** The continuation `ls` of `s` ends misled in `t`. */
  ghost predicate MisledBy(q: Request, s: State, ls: seq<Label>, t: State) {
    Runs(q, s, ls, t) && Misled(q, t)
  }

  lemma {:induction false} OutcomeFixed(q: Request, s: State, ls: seq<Label>, t: State)
    requires s.phase.Reporting? && Runs(q, s, ls, t)
    ensures t.outcome == s.outcome
    decreases |ls|
  {
    if ls == [] {
    } else {
      OutcomeFixed(q, Apply(q, s, ls[0]), ls[1..], t);
    }
  }

  lemma {:induction false} RunsConcat(q: Request, s: State, a: seq<Label>, m: State, b: seq<Label>, t: State)
    requires Runs(q, s, a, m) && Runs(q, m, b, t)
    ensures Runs(q, s, a + b, t)
    decreases |a|
  {
    if a == [] {
      assert a + b == b;
    } else {
      assert (a + b)[1..] == a[1..] + b;
      RunsConcat(q, Apply(q, s, a[0]), a[1..], m, b, t);
    }
  }

  lemma {:induction false} RunsOne(q: Request, s: State, l: Label)
    requires Enabled(q, s, l)
    ensures Runs(q, s, [l], Apply(q, s, l))
  {
    assert [l][1..] == [];
    assert Runs(q, Apply(q, s, l), [], Apply(q, s, l));
  }

  /** From a cancelled stream the two notices can be given up and the sentinel still be sent. */
  lemma {:induction false} SentinelAlone(q: Request, s: State) returns (ls: seq<Label>, t: State)
    requires s.phase == Reporting(0) && s.cancelled && !s.w.send.Full() && GapOf(q, s.outcome) != []
    ensures Runs(q, s, ls, t)
    ensures t.w.send.log == s.w.send.log + [RecoveryComplete] && t.outcome == s.outcome
  {
    var l1 := if s.outcome == Finished(true) then Abandon else Report;
    var s1 := s.(phase := Reporting(1));
    var s2 := s.(phase := Reporting(2));
    assert Needed(q, s1.outcome, 1) <==> s.outcome == Finished(true);
    RunsOne(q, s, Abandon);
    RunsOne(q, s1, l1);
    RunsConcat(q, s, [Abandon], s1, [l1], s2);
    RunsOne(q, s2, Report);
    t := DoReport(q, s2);
    ls := [Abandon] + [l1] + [Report];
    RunsConcat(q, s, [Abandon] + [l1], s2, [Report], t);
  }

  /** The stream can be cancelled and the queue drained by one frame at any time. */
  lemma {:induction false} CancelWithRoom(q: Request, s: State) returns (ls: seq<Label>, t: State)
    requires s.w.send.Valid() && s.w.send.cap > 0
    ensures Runs(q, s, ls, t) && t.cancelled && !t.w.send.Full()
    ensures t.w.send.log == s.w.send.log && t.phase == s.phase && t.outcome == s.outcome
  {
    RunsOne(q, s, Cancel);
    ls, t := [Cancel], Apply(q, s, Cancel);
    if t.w.send.Full() {
      RunsOne(q, t, Drain);
      RunsConcat(q, s, ls, t, [Drain], Apply(q, t, Drain));
      ls, t := ls + [Drain], Apply(q, t, Drain);
    }
  }

  lemma {:induction false} CanMislead(q: Request, s: State) returns (ls: seq<Label>, t: State)
    requires VerdictInv(q, s) && s.phase == Reporting(0) && s.w.send.Valid() && s.w.send.cap > 0
    requires GapOf(q, s.outcome) != []
    ensures MisledBy(q, s, ls, t)
  {
    var pre, m := CancelWithRoom(q, s);
    var rest;
    rest, t := SentinelAlone(q, m);
    RunsConcat(q, s, pre, m, rest, t);
    ls := pre + rest;
    assert t.w.send.log[|s.w.send.log|] == RecoveryComplete;
  }

  /** Exactly when the verdict can mislead: from a reconnect about to report, some continuation enqueues the
      sentinel without the possible-gap list if and only if there is a possible gap to report.  (By
      `VerdictSound` such a continuation cancels the stream context first.) */
  lemma {:induction false} MisleadingIff(q: Request, init: State, before: seq<Label>, s: State)
    requires Init(q, init) && Runs(q, init, before, s) && s.phase == Reporting(0) && s.w.send.cap > 0
    ensures (exists ls, t :: MisledBy(q, s, ls, t)) <==> GapOf(q, s.outcome) != []
  {
    InitInv(q, init);
    RunInv(q, init, before, s);
    assert forall k :: 0 <= k < |init.w.send.log| ==> init.w.send.log[k] in init.w.send.log;
    RunVerdict(q, init, before, s);
    if GapOf(q, s.outcome) == [] {
      forall ls, t | Runs(q, s, ls, t) ensures !MisledBy(q, s, ls, t) {
        OutcomeFixed(q, s, ls, t);
      }
    } else {
      var ls, t := CanMislead(q, s);
    }
  }

  /** The step that gives up the possible-gap list. */
  predicate GivesUp(s: State, l: Label) {
    l.Abandon? && s.phase == Reporting(0)
  }

  ghost predicate GivenUp(q: Request, s: State, ls: seq<Label>)
    decreases |ls|
  {
    ls != [] && Enabled(q, s, ls[0]) && (GivesUp(s, ls[0]) || GivenUp(q, Apply(q, s, ls[0]), ls[1..]))
  }

  predicate NoList(log: seq<Frame>) {
    forall i :: 0 <= i < |log| ==> !log[i].NoReplay?
  }

  /** The list is on the queue, ahead of any sentinel, unless it was given up. */
  ghost predicate ListInv(q: Request, s: State, given: bool) {
    var log := s.w.send.log;
    && (!s.phase.Reporting? || s.phase.stage == 0 ==> !given && NoList(log))
    && (given ==> NoList(log))
    && (!given && s.phase.Reporting? && s.phase.stage >= 1 && GapOf(q, s.outcome) != [] ==>
          NoReplay(GapOf(q, s.outcome)) in log)
    && (forall i :: 0 <= i < |log| && log[i].RecoveryComplete? ==>
          && s.phase == Reporting(3)
          && (!given && GapOf(q, s.outcome) != [] ==> NoReplay(GapOf(q, s.outcome)) in log[..i]))
  }

  /** A step outside the verdict: the queue may get one more frame at its end. */
  lemma {:induction false} OtherListStep(q: Request, s: State, t: State, extra: seq<Frame>, given: bool)
    requires ListInv(q, s, given)
    requires t.w.send.log == s.w.send.log + extra
    requires forall i :: 0 <= i < |extra| ==> !extra[i].RecoveryComplete? && !extra[i].NoReplay?
    requires s.phase.Reporting? ==> t.phase == s.phase && t.outcome == s.outcome
    requires !s.phase.Reporting? && t.phase.Reporting? ==> t.phase.stage == 0
    ensures ListInv(q, t, given)
  {
    forall i | 0 <= i < |t.w.send.log| && t.w.send.log[i].RecoveryComplete?
      ensures i < |s.w.send.log| && s.w.send.log[i].RecoveryComplete? && t.w.send.log[..i] == s.w.send.log[..i]
    {
    }
  }

  lemma {:induction false} ReportList(q: Request, s: State, given: bool)
    requires ListInv(q, s, given) && s.phase.Reporting? && s.phase.stage < 3
    ensures ListInv(q, DoReport(q, s), given)
  {
    var log, log' := s.w.send.log, DoReport(q, s).w.send.log;
    assert forall i :: 0 <= i < |log| ==> log'[i] == log[i] && !log[i].RecoveryComplete?;
    if s.phase.stage == 2 {
      assert log'[..|log|] == log;
    }
    if s.phase.stage == 0 && GapOf(q, s.outcome) != [] {
      assert log'[|log|] == NoReplay(GapOf(q, s.outcome));
    }
  }

  lemma {:induction false} AbandonList(q: Request, s: State, given: bool)
    requires ListInv(q, s, given) && s.phase.Reporting? && s.phase.stage < 3
    ensures ListInv(q, s.(phase := Reporting(s.phase.stage + 1)), given || s.phase.stage == 0)
  {
    assert forall i :: 0 <= i < |s.w.send.log| ==> !s.w.send.log[i].RecoveryComplete?;
  }

  lemma {:induction false} ListStep(q: Request, s: State, l: Label, given: bool)
    requires ListInv(q, s, given) && Enabled(q, s, l)
    ensures ListInv(q, Apply(q, s, l), given || GivesUp(s, l))
  {
    if l.Report? {
      ReportList(q, s, given);
    } else if l.Abandon? {
      AbandonList(q, s, given);
    } else {
      OtherListStep(q, s, Apply(q, s, l), Added(s, l), given);
    }
  }

  lemma {:induction false} RunList(q: Request, s: State, ls: seq<Label>, t: State, given: bool)
    requires ListInv(q, s, given) && Runs(q, s, ls, t)
    ensures ListInv(q, t, given || GivenUp(q, s, ls))
    decreases |ls|
  {
    if ls == [] {
    } else {
      ListStep(q, s, ls[0], given);
      RunList(q, Apply(q, s, ls[0]), ls[1..], t, given || GivesUp(s, ls[0]));
    }
  }

  /** Over every run that ends with the sentinel and a possible gap, the list is missing ahead of the
      sentinel exactly if the step that would enqueue it was given up. */
  lemma {:induction false} ListMissingIff(q: Request, s: State, ls: seq<Label>, t: State, i: nat)
    requires Init(q, s) && Runs(q, s, ls, t) && GapOf(q, t.outcome) != []
    requires i < |t.w.send.log| && t.w.send.log[i].RecoveryComplete?
    ensures NoReplay(GapOf(q, t.outcome)) !in t.w.send.log[..i] <==> GivenUp(q, s, ls)
  {
    assert forall k :: 0 <= k < |s.w.send.log| ==> s.w.send.log[k] in s.w.send.log;
    RunList(q, s, ls, t, false);
  }

  /** What `AuthorizeLastPos` returns makes a well-formed request: the replay of every authorized
      channel starts at or before the record after its cursor. */
  lemma {:induction false} AuthorizedIsWellFormed(q: Request, targets: map<Channel, Target>, positions: Positions)
    requires q.authorized <= targets.Keys
    requires MinimalStarts(targets, positions, q.authorized)
    requires forall p: Part :: Lookup(positions, p) == if p in q.starts then Some(q.starts[p]) else None
    requires forall ch :: ch in q.authorized ==>
               ch in q.cursor && targets[ch] == Target(q.cursor[ch].part, NextOffset(q.cursor[ch].offset))
    ensures WellFormed(q)
  {
    forall ch | ch in q.authorized
      ensures q.cursor[ch].part in q.starts && q.starts[q.cursor[ch].part] <= q.cursor[ch].offset + 1
    {
      assert Lookup(positions, targets[ch].part).Some?;
    }
  }

  /** The gateway restricts the cursor of an event stream to the requested channels, which are the ones
      registered for live delivery, so there every authorized channel is live. */
  lemma {:induction false} GatewayCursorIsLive(token: SseCursor.Token, channels: seq<Channel>,
      session: Session, authorized: set<Channel>)
    requires authorized <= Targets(session, SseCursor.Restrict(SseCursor.Decode(token), Elements(channels))).Keys
    ensures authorized <= Elements(channels)
  {
  }

  // ----- What the client gets of the replay -----

  /** The replayed frames are handled results, in order, and the count says how many there are. */
  ghost predicate DeliveredInv(log: seq<Frame>, x: Replay) {
    && x.sent <= |x.msgs|
    && x.count == |ReplayedRecords(log)|
    && Ascending(ReplayedRecords(log))
    && (forall r :: r in ReplayedRecords(log) ==> r in x.msgs[..x.sent])
  }

  lemma {:induction false} DeliverOne(log: seq<Frame>, x: Replay, seqNo: nat)
    requires DeliveredInv(log, x) && x.sent < |x.msgs| && OrderedInv(x)
    ensures DeliveredInv(log + [Replayed(x.msgs[x.sent], seqNo)], x.(sent := x.sent + 1, count := x.count + 1))
    ensures DeliveredInv(log, x.(sent := x.sent + 1, skipped := true))
  {
    AppendFrame(log, Replayed(x.msgs[x.sent], seqNo));
    TakeNext(x.msgs, x.sent);
    forall r | r in ReplayedRecords(log) && r.part == x.msgs[x.sent].part ensures r.offset < x.msgs[x.sent].offset {
      var k :| 0 <= k < x.sent && x.msgs[k] == r;
    }
  }

  /** Only the replay's own enqueue adds to its frames. */
  lemma {:induction false} FramesUntouched(q: Request, s: State, l: Label)
    requires Enabled(q, s, l) && !l.Enqueue?
    ensures ReplayedRecords(Apply(q, s, l).w.send.log) == ReplayedRecords(s.w.send.log)
  {
    match l
    case Attempt(r) => AppendFrame(s.w.send.log, Live(r, s.w.seqNo + 1));
    case PushOther => AppendFrame(s.w.send.log, OtherFrame);
    case Report => AppendFrame(s.w.send.log, VerdictFrame(q, s.outcome, s.x.count, s.phase.stage));
    case _ =>
  }

  /** Results come in before the first one is handled. */
  lemma {:induction false} ResultsUntouched(q: Request, s: State, l: Label)
    requires CapturedInv(q, s) && Enabled(q, s, l) && !l.Enqueue?
    ensures Apply(q, s, l).x.count == s.x.count && Apply(q, s, l).x.sent == s.x.sent
    ensures Apply(q, s, l).x.msgs == s.x.msgs || s.x.sent == 0
  {
  }

  lemma {:induction false} DeliveredKept(log: seq<Frame>, x: Replay, log': seq<Frame>, x': Replay)
    requires DeliveredInv(log, x) && ReplayedRecords(log') == ReplayedRecords(log)
    requires x'.count == x.count && x'.sent == x.sent && (x'.msgs == x.msgs || x.sent == 0)
    ensures DeliveredInv(log', x')
  {
  }

  lemma {:induction false} DeliveredEnqueue(q: Request, s: State, serializes: bool)
    requires Inv(q, s) && DeliveredInv(s.w.send.log, s.x) && s.x.sent < |s.x.msgs|
    ensures DeliveredInv(DoEnqueue(s, serializes).w.send.log, DoEnqueue(s, serializes).x)
  {
    DeliverOne(s.w.send.log, s.x, s.w.seqNo + 1);
  }

  lemma {:induction false} DeliveredStep(q: Request, s: State, l: Label)
    requires Inv(q, s) && DeliveredInv(s.w.send.log, s.x) && Enabled(q, s, l)
    ensures DeliveredInv(Apply(q, s, l).w.send.log, Apply(q, s, l).x)
  {
    if l.Enqueue? {
      DeliveredEnqueue(q, s, l.serializes);
    } else {
      FramesUntouched(q, s, l);
      ResultsUntouched(q, s, l);
      DeliveredKept(s.w.send.log, s.x, Apply(q, s, l).w.send.log, Apply(q, s, l).x);
    }
  }

  lemma {:induction false} RunDelivered(q: Request, s: State, ls: seq<Label>, t: State)
    requires Inv(q, s) && DeliveredInv(s.w.send.log, s.x) && Runs(q, s, ls, t)
    ensures DeliveredInv(t.w.send.log, t.x)
    decreases |ls|
  {
    if ls == [] {
    } else {
      InvStep(q, s, ls[0]);
      DeliveredStep(q, s, ls[0]);
      RunDelivered(q, Apply(q, s, ls[0]), ls[1..], t);
    }
  }

  /** In every run the replayed frames are results of the fetch, none twice, in log order within each
      partition; the reported count is their number. */
  lemma {:induction false} ReplayInOrder(q: Request, s: State, ls: seq<Label>, t: State)
    requires Init(q, s) && Runs(q, s, ls, t)
    ensures Ascending(ReplayedRecords(t.w.send.log)) && NoDuplicates(ReplayedRecords(t.w.send.log))
    ensures forall r :: r in ReplayedRecords(t.w.send.log) ==> r in t.x.msgs
    ensures t.x.count == |ReplayedRecords(t.w.send.log)|
  {
    InitInv(q, s);
    NothingReplayed(s.w.send.log);
    RunDelivered(q, s, ls, t);
  }
}
