/** Sequence numbers, drops and gap notifications of one client: the broadcast loop against the write
    pump (ws/internal/server: broadcast.go, pump.go). */
module GapPipeline {
  import opened Common
  import opened SendQueue

  /** A gap notification: dropped sequence numbers of one channel and the replay anchor. */
  datatype Gap = Gap(channel: Channel, fromSeq: nat, toSeq: nat, lastPos: string)

  // ----- Coalescing -----

  /** Merge `g` into `merged`: widen the range, keep the first anchor. */
  function Merge(merged: Gap, g: Gap): Gap {
    merged.(fromSeq := if g.fromSeq < merged.fromSeq then g.fromSeq else merged.fromSeq,
            toSeq := if g.toSeq > merged.toSeq then g.toSeq else merged.toSeq)
  }

  /** Length of the longest prefix of `q` on channel `ch`. */
  function SamePrefix(ch: Channel, q: seq<Gap>): (n: nat)
    ensures n <= |q|
    ensures forall i :: 0 <= i < n ==> q[i].channel == ch
    ensures n < |q| ==> q[n].channel != ch
  {
    if q == [] || q[0].channel != ch then 0 else 1 + SamePrefix(ch, q[1..])
  }

  /** `m` spans exactly `first` and `later`: its bounds enclose every range and are attained. */
  ghost predicate IsHull(m: Gap, first: Gap, later: seq<Gap>) {
    && m.channel == first.channel && m.fromSeq <= first.fromSeq && first.toSeq <= m.toSeq
    && (forall i :: 0 <= i < |later| ==>
          later[i].channel == m.channel && m.fromSeq <= later[i].fromSeq && later[i].toSeq <= m.toSeq)
    && (m.fromSeq == first.fromSeq || exists i :: 0 <= i < |later| && later[i].fromSeq == m.fromSeq)
    && (m.toSeq == first.toSeq || exists i :: 0 <= i < |later| && later[i].toSeq == m.toSeq)
  }

  lemma {:induction false} HullStep(m: Gap, first: Gap, q: seq<Gap>, n: nat)
    requires n < |q| && IsHull(m, first, q[..n]) && q[n].channel == m.channel
    ensures IsHull(Merge(m, q[n]), first, q[..n + 1])
  {
    var m', later, later' := Merge(m, q[n]), q[..n], q[..n + 1];
    assert later'[n] == q[n];
    assert forall i :: 0 <= i < n ==> later'[i] == later[i];
    if m.fromSeq != first.fromSeq {
      var i :| 0 <= i < n && later[i].fromSeq == m.fromSeq;
      assert later'[i].fromSeq == m.fromSeq;
    }
    if m.toSeq != first.toSeq {
      var i :| 0 <= i < n && later[i].toSeq == m.toSeq;
      assert later'[i].toSeq == m.toSeq;
    }
  }

  /** Drain the queue while it stays on one channel.  `queue` is what the channel holds; nothing is
      added to it meanwhile. */
  method CoalesceGapNotifications(first: Gap, queue: seq<Gap>)
    returns (merged: Gap, overflow: Option<Gap>, rest: seq<Gap>)
    ensures var n := SamePrefix(first.channel, queue);
            && IsHull(merged, first, queue[..n]) && merged.lastPos == first.lastPos
            && (n == |queue| ==> overflow == None && rest == [])
            && (n < |queue| ==> overflow == Some(queue[n]) && rest == queue[n + 1..])
  {
    merged, rest := first, queue;
    ghost var done := 0;
    while rest != []
      invariant done <= |queue| && rest == queue[done..]
      invariant IsHull(merged, first, queue[..done]) && merged.lastPos == first.lastPos
      invariant SamePrefix(first.channel, queue) == done + SamePrefix(first.channel, rest)
      decreases |rest|
    {
      var gap := rest[0];
      rest := rest[1..];
      if gap.channel != merged.channel {
        return merged, Some(gap), rest;
      }
      HullStep(merged, first, queue, done);
      merged := Merge(merged, gap);
      done := done + 1;
    }
    overflow := None;
  }

  // ----- The pipeline as a step machine -----

  datatype Frame = Data(channel: Channel, seqNo: nat) | GapFrame(gap: Gap) | OtherFrame

  datatype Reason = BufferFull | CoalesceLoss | SendFull

  /** A gap notification that was lost and counted. */
  datatype Loss = Loss(reason: Reason, gap: Gap)

  /** Where the broadcast loop is with this client. */
  datatype Caster =
    | CasterIdle
    | Offering(channel: Channel, seqNo: nat, pos: string)    // number taken, send to be tried
    | Notifying(channel: Channel, seqNo: nat, pos: string)   // send failed, gap to be enqueued

  /** Where the write pump is. */
  datatype Pump =
    | PumpIdle
    | Merging(merged: Gap)
    | Requeueing(merged: Gap, lost: Gap)
    | Forwarding(merged: Gap)

  datatype State = State(
    lastSeq: nat,                   // last number handed out by the sequence generator
    send: Fifo<Frame>,
    gaps: seq<Gap>,                 // contents of the gap channel
    caster: Caster,
    pump: Pump,
    losses: seq<Loss>,
    dropped: map<nat, Channel>,     // numbers whose send found the queue full
    others: set<nat>,               // numbers taken by history and replay deliveries
    positions: map<nat, string>,    // log position of the message each broadcast number went to
    attempts: nat,                  // consecutive failed sends
    outcomes: seq<bool>,            // success of every send tried so far
    closed: bool)                   // transport closed for being too slow

  datatype Config = Config(gapCap: nat, maxAttempts: int)

  datatype Label =
    | Assign(ch: Channel, pos: string) | Offer | Notify
    | TakeOther | PushOther | Drain
    | TakeGap | MergeNext | MergeDone | Requeue | Forward

  predicate Enabled(s: State, l: Label) {
    match l
    case Assign(_, _) => s.caster.CasterIdle?
    case Offer => s.caster.Offering?
    case Notify => s.caster.Notifying?
    case TakeOther => true
    case PushOther => !s.send.Full()
    case Drain => s.pump.PumpIdle? && !s.send.Empty()
    case TakeGap => s.pump.PumpIdle? && s.gaps != []
    case MergeNext => s.pump.Merging? && s.gaps != []
    case MergeDone => s.pump.Merging? && s.gaps == []
    case Requeue => s.pump.Requeueing?
    case Forward => s.pump.Forwarding?
  }

  /** The non-blocking send: success resets the failure count, a full queue drops the message. */
  function DoOffer(s: State): State
    requires s.caster.Offering?
  {
    var o := s.caster;
    if s.send.Full() then
      s.(caster := Notifying(o.channel, o.seqNo, o.pos), dropped := s.dropped[o.seqNo := o.channel],
         attempts := s.attempts + 1, outcomes := s.outcomes + [false])
    else
      s.(caster := CasterIdle, send := s.send.Push(Data(o.channel, o.seqNo)),
         attempts := 0, outcomes := s.outcomes + [true])
  }

  /** The gap notification of a drop, then the slow-client check. */
  function DoNotify(c: Config, s: State): State
    requires s.caster.Notifying?
  {
    var o := s.caster;
    var gap := Gap(o.channel, o.seqNo, o.seqNo, o.pos);
    var t := s.(caster := CasterIdle, closed := s.closed || s.attempts >= c.maxAttempts);
    if |s.gaps| < c.gapCap then t.(gaps := s.gaps + [gap])
    else t.(losses := s.losses + [Loss(BufferFull, gap)])
  }

  function DoMergeNext(s: State): State
    requires s.pump.Merging? && s.gaps != []
  {
    var g := s.gaps[0];
    s.(gaps := s.gaps[1..],
       pump := if g.channel != s.pump.merged.channel then Requeueing(s.pump.merged, g)
               else Merging(Merge(s.pump.merged, g)))
  }

  function DoRequeue(c: Config, s: State): State
    requires s.pump.Requeueing?
  {
    var t := s.(pump := Forwarding(s.pump.merged));
    if |s.gaps| < c.gapCap then t.(gaps := s.gaps + [s.pump.lost])
    else t.(losses := s.losses + [Loss(CoalesceLoss, s.pump.lost)])
  }

  function DoForward(s: State): State
    requires s.pump.Forwarding?
  {
    var t := s.(pump := PumpIdle);
    if s.send.Full() then t.(losses := s.losses + [Loss(SendFull, s.pump.merged)])
    else t.(send := s.send.Push(GapFrame(s.pump.merged)))
  }

  function Apply(c: Config, s: State, l: Label): State
    requires Enabled(s, l)
  {
    match l
    case Assign(ch, pos) =>
      s.(lastSeq := s.lastSeq + 1, caster := Offering(ch, s.lastSeq + 1, pos),
         positions := s.positions[s.lastSeq + 1 := pos])
    case Offer => DoOffer(s)
    case Notify => DoNotify(c, s)
    case TakeOther => s.(lastSeq := s.lastSeq + 1, others := s.others + {s.lastSeq + 1})
    case PushOther => s.(send := s.send.Push(OtherFrame))
    case Drain => s.(send := s.send.Pop())
    case TakeGap => s.(gaps := s.gaps[1..], pump := Merging(s.gaps[0]))
    case MergeNext => DoMergeNext(s)
    case MergeDone => s.(pump := Forwarding(s.pump.merged))
    case Requeue => DoRequeue(c, s)
    case Forward => DoForward(s)
  }

  /** A fresh connection. */
  ghost predicate Init(s: State) {
    exists cap :: s == State(0, Fifo([], 0, cap), [], CasterIdle, PumpIdle, [], map[], {}, map[], 0, [], false)
  }

  ghost predicate Runs(c: Config, s: State, ls: seq<Label>, t: State)
    decreases |ls|
  {
    if ls == [] then s == t
    else Enabled(s, ls[0]) && Runs(c, Apply(c, s, ls[0]), ls[1..], t)
  }

  // ----- Every number is accounted for -----

  /** The sequence numbers of the broadcast frames ever enqueued, in queue order. */
  function DataSeqs(log: seq<Frame>): seq<nat> {
    if log == [] then [] else
    var rest := DataSeqs(log[..|log| - 1]);
    var last := log[|log| - 1];
    if last.Data? then rest + [last.seqNo] else rest
  }

  lemma {:induction false} AppendFrame(log: seq<Frame>, f: Frame)
    ensures DataSeqs(log + [f]) == DataSeqs(log) + if f.Data? then [f.seqNo] else []
  {
    assert (log + [f])[..|log|] == log;
  }

  predicate Increasing(xs: seq<nat>) {
    forall i, j :: 0 <= i < j < |xs| ==> xs[i] < xs[j]
  }

  function Offered(caster: Caster): set<nat> {
    if caster.Offering? then {caster.seqNo} else {}
  }

  /** The numbers 1 to `lastSeq` fall into enqueued, dropped, taken by others and still offered, each
      number into exactly one class. */
  ghost predicate Partition(sent: set<nat>, dropped: set<nat>, others: set<nat>, pending: set<nat>, last: nat) {
    && sent !! dropped && sent !! others && dropped !! others
    && pending !! sent && pending !! dropped && pending !! others
    && (forall n: nat :: (n in sent || n in dropped || n in others || n in pending) <==> 1 <= n <= last)
  }

  /** The numbers `xs` of the queued broadcasts, the caster and the other classes fit together. */
  ghost predicate NumbersOk(xs: seq<nat>, caster: Caster, dropped: map<nat, Channel>, others: set<nat>, last: nat) {
    && Increasing(xs)
    && (forall n :: n in xs && caster.Offering? ==> n < caster.seqNo)
    && Partition(Elements(xs), dropped.Keys, others, Offered(caster), last)
    && (caster.Notifying? ==> caster.seqNo in dropped && dropped[caster.seqNo] == caster.channel)
  }

  ghost predicate NumbersInv(s: State) {
    NumbersOk(DataSeqs(s.send.log), s.caster, s.dropped, s.others, s.lastSeq)
  }

  ghost predicate Covers(g: Gap, ch: Channel, n: nat) {
    g.channel == ch && g.fromSeq <= n <= g.toSeq
  }

  ghost predicate InPumpHand(p: Pump, ch: Channel, n: nat) {
    match p
    case PumpIdle => false
    case Merging(m) => Covers(m, ch, n)
    case Requeueing(m, lost) => Covers(m, ch, n) || Covers(lost, ch, n)
    case Forwarding(m) => Covers(m, ch, n)
  }

  ghost predicate InGaps(gs: seq<Gap>, ch: Channel, n: nat) {
    exists g :: g in gs && Covers(g, ch, n)
  }

  ghost predicate Announced(log: seq<Frame>, ch: Channel, n: nat) {
    exists g :: GapFrame(g) in log && Covers(g, ch, n)
  }

  ghost predicate Counted(losses: seq<Loss>, ch: Channel, n: nat) {
    exists l :: l in losses && Covers(l.gap, ch, n)
  }

  /** A drop is announced, or on its way to being announced, or its announcement was lost and counted. */
  ghost predicate Accounted(s: State, ch: Channel, n: nat) {
    || InGaps(s.gaps, ch, n)
    || InPumpHand(s.pump, ch, n)
    || Announced(s.send.log, ch, n)
    || Counted(s.losses, ch, n)
    || (s.caster.Notifying? && s.caster.channel == ch && s.caster.seqNo == n)
  }

  ghost predicate DropsInv(s: State) {
    forall n :: n in s.dropped ==> Accounted(s, s.dropped[n], n)
  }

  // Preservation of the numbers.

  lemma {:induction false} AssignNumbers(xs: seq<nat>, dropped: map<nat, Channel>, others: set<nat>, last: nat,
      ch: Channel, pos: string)
    requires NumbersOk(xs, CasterIdle, dropped, others, last)
    ensures NumbersOk(xs, Offering(ch, last + 1, pos), dropped, others, last + 1)
  {
    assert forall n :: n in xs ==> n in Elements(xs);
  }

  lemma {:induction false} OtherNumbers(xs: seq<nat>, caster: Caster, dropped: map<nat, Channel>,
      others: set<nat>, last: nat)
    requires NumbersOk(xs, caster, dropped, others, last)
    ensures NumbersOk(xs, caster, dropped, others + {last + 1}, last + 1)
  {
    assert last + 1 !in Elements(xs) && last + 1 !in dropped && last + 1 !in Offered(caster);
  }

  lemma {:induction false} SentNumbers(xs: seq<nat>, o: Caster, dropped: map<nat, Channel>, others: set<nat>, last: nat)
    requires o.Offering? && NumbersOk(xs, o, dropped, others, last)
    ensures NumbersOk(xs + [o.seqNo], CasterIdle, dropped, others, last)
  {
    assert forall i :: 0 <= i < |xs| ==> xs[i] in xs;
    assert Elements(xs + [o.seqNo]) == Elements(xs) + {o.seqNo};
  }

  lemma {:induction false} DroppedNumbers(xs: seq<nat>, o: Caster, dropped: map<nat, Channel>,
      others: set<nat>, last: nat)
    requires o.Offering? && NumbersOk(xs, o, dropped, others, last)
    ensures NumbersOk(xs, Notifying(o.channel, o.seqNo, o.pos), dropped[o.seqNo := o.channel], others, last)
  {
    assert dropped[o.seqNo := o.channel].Keys == dropped.Keys + {o.seqNo};
  }

  lemma {:induction false} OfferNumbers(s: State)
    requires NumbersInv(s) && s.caster.Offering?
    ensures NumbersInv(DoOffer(s))
  {
    var xs := DataSeqs(s.send.log);
    if s.send.Full() {
      DroppedNumbers(xs, s.caster, s.dropped, s.others, s.lastSeq);
    } else {
      SentNumbers(xs, s.caster, s.dropped, s.others, s.lastSeq);
      AppendFrame(s.send.log, Data(s.caster.channel, s.caster.seqNo));
    }
  }

  predicate GivesNumbers(l: Label) {
    l.Assign? || l.Offer? || l.Notify? || l.TakeOther?
  }

  /** The other steps leave the numbers and their classes alone. */
  lemma {:induction false} NumbersUntouched(c: Config, s: State, l: Label)
    requires Enabled(s, l) && !GivesNumbers(l)
    ensures DataSeqs(Apply(c, s, l).send.log) == DataSeqs(s.send.log) && Apply(c, s, l).caster == s.caster
    ensures Apply(c, s, l).dropped == s.dropped && Apply(c, s, l).others == s.others && Apply(c, s, l).lastSeq == s.lastSeq
  {
    match l
    case PushOther => AppendFrame(s.send.log, OtherFrame);
    case Forward => AppendFrame(s.send.log, GapFrame(s.pump.merged));
    case _ =>
  }

  lemma {:induction false} NumbersStep(c: Config, s: State, l: Label)
    requires NumbersInv(s) && Enabled(s, l)
    ensures NumbersInv(Apply(c, s, l))
  {
    var xs := DataSeqs(s.send.log);
    if GivesNumbers(l) {
      match l
      case Assign(ch, pos) => AssignNumbers(xs, s.dropped, s.others, s.lastSeq, ch, pos);
      case Offer => OfferNumbers(s);
      case Notify => assert NumbersOk(xs, CasterIdle, s.dropped, s.others, s.lastSeq);
      case TakeOther => OtherNumbers(xs, s.caster, s.dropped, s.others, s.lastSeq);
    } else {
      NumbersUntouched(c, s, l);
    }
  }

  // Preservation of the drop accounting, one drop at a time.

  lemma {:induction false} AppendGap(gs: seq<Gap>, g: Gap, ch: Channel, n: nat)
    ensures InGaps(gs + [g], ch, n) <==> InGaps(gs, ch, n) || Covers(g, ch, n)
  {
    assert forall x :: x in gs + [g] <==> x in gs || x == g;
  }

  lemma {:induction false} FirstGap(gs: seq<Gap>, ch: Channel, n: nat)
    requires gs != []
    ensures InGaps(gs, ch, n) <==> Covers(gs[0], ch, n) || InGaps(gs[1..], ch, n)
  {
    assert gs == [gs[0]] + gs[1..];
    assert forall x :: x in gs <==> x == gs[0] || x in gs[1..];
  }

  lemma {:induction false} AppendQueue(log: seq<Frame>, f: Frame, ch: Channel, n: nat)
    ensures Announced(log + [f], ch, n) <==> Announced(log, ch, n) || (f.GapFrame? && Covers(f.gap, ch, n))
  {
    assert forall x :: x in log + [f] <==> x in log || x == f;
  }

  lemma {:induction false} AppendLoss(ls: seq<Loss>, l: Loss, ch: Channel, n: nat)
    ensures Counted(ls + [l], ch, n) <==> Counted(ls, ch, n) || Covers(l.gap, ch, n)
  {
    assert forall x :: x in ls + [l] <==> x in ls || x == l;
  }

  lemma {:induction false} CasterAccounts(c: Config, s: State, l: Label, ch: Channel, n: nat)
    requires Enabled(s, l) && (l.Offer? || l.Notify? || l.PushOther?) && Accounted(s, ch, n)
    ensures Accounted(Apply(c, s, l), ch, n)
  {
    match l
    case Offer => AppendQueue(s.send.log, Data(s.caster.channel, s.caster.seqNo), ch, n);
    case PushOther => AppendQueue(s.send.log, OtherFrame, ch, n);
    case Notify =>
      var gap := Gap(s.caster.channel, s.caster.seqNo, s.caster.seqNo, s.caster.pos);
      AppendGap(s.gaps, gap, ch, n);
      AppendLoss(s.losses, Loss(BufferFull, gap), ch, n);
  }

  lemma {:induction false} PumpAccounts(c: Config, s: State, l: Label, ch: Channel, n: nat)
    requires Enabled(s, l) && (l.TakeGap? || l.MergeNext? || l.Requeue? || l.Forward?) && Accounted(s, ch, n)
    ensures Accounted(Apply(c, s, l), ch, n)
  {
    match l
    case TakeGap => FirstGap(s.gaps, ch, n);
    case MergeNext => FirstGap(s.gaps, ch, n);
    case Requeue =>
      AppendGap(s.gaps, s.pump.lost, ch, n);
      AppendLoss(s.losses, Loss(CoalesceLoss, s.pump.lost), ch, n);
    case Forward =>
      AppendQueue(s.send.log, GapFrame(s.pump.merged), ch, n);
      AppendLoss(s.losses, Loss(SendFull, s.pump.merged), ch, n);
  }

  lemma {:induction false} AccountedStep(c: Config, s: State, l: Label, ch: Channel, n: nat)
    requires Enabled(s, l) && Accounted(s, ch, n)
    ensures Accounted(Apply(c, s, l), ch, n)
  {
    if l.Offer? || l.Notify? || l.PushOther? {
      CasterAccounts(c, s, l, ch, n);
    } else if l.TakeGap? || l.MergeNext? || l.Requeue? || l.Forward? {
      PumpAccounts(c, s, l, ch, n);
    }
  }

  lemma {:induction false} DropsStep(c: Config, s: State, l: Label)
    requires DropsInv(s) && Enabled(s, l)
    ensures DropsInv(Apply(c, s, l))
  {
    var t := Apply(c, s, l);
    forall n | n in t.dropped ensures Accounted(t, t.dropped[n], n) {
      if n in s.dropped && t.dropped[n] == s.dropped[n] {
        AccountedStep(c, s, l, s.dropped[n], n);
      }
    }
  }

  lemma {:induction false} RunAccounts(c: Config, s: State, ls: seq<Label>, t: State)
    requires NumbersInv(s) && DropsInv(s) && Runs(c, s, ls, t)
    ensures NumbersInv(t) && DropsInv(t)
    decreases |ls|
  {
    if ls == [] {
    } else {
      NumbersStep(c, s, ls[0]);
      DropsStep(c, s, ls[0]);
      RunAccounts(c, Apply(c, s, ls[0]), ls[1..], t);
    }
  }

  /** Drop accounting.  In every interleaving of broadcasts, other deliveries and the write pump: the
      numbers handed out are each enqueued, dropped, taken by another delivery or still being offered,
      never two of these; enqueued numbers increase along the queue; and every dropped number is
      covered by a same-channel notification in the gap channel, in the pump's hands or on the send
      queue, by a counted loss, or is about to be notified. */
  lemma {:induction false} DropAccounting(c: Config, s: State, ls: seq<Label>, t: State)
    requires Init(s) && Runs(c, s, ls, t)
    ensures Increasing(DataSeqs(t.send.log))
    ensures Partition(Elements(DataSeqs(t.send.log)), t.dropped.Keys, t.others, Offered(t.caster), t.lastSeq)
    ensures forall n :: n in t.dropped ==> Accounted(t, t.dropped[n], n)
  {
    assert NumbersInv(s);
    RunAccounts(c, s, ls, t);
  }

  // ----- Nothing is dropped or lost without a full queue -----

  /** The send of number `n` finds the send queue full. */
  predicate Drops(s: State, l: Label, n: nat) {
    l.Offer? && s.caster.Offering? && s.caster.seqNo == n && s.send.Full()
  }

  ghost predicate EverDrops(c: Config, s: State, ls: seq<Label>, n: nat)
    decreases |ls|
  {
    ls != [] && Enabled(s, ls[0]) && (Drops(s, ls[0], n) || EverDrops(c, Apply(c, s, ls[0]), ls[1..], n))
  }

  /** A notification finds its queue full: the gap channel when it is enqueued or put back, the send queue when it
      is forwarded. */
  predicate Loses(c: Config, s: State, l: Label, reason: Reason) {
    match reason
    case BufferFull => l.Notify? && |s.gaps| >= c.gapCap
    case CoalesceLoss => l.Requeue? && |s.gaps| >= c.gapCap
    case SendFull => l.Forward? && s.send.Full()
  }

  ghost predicate EverLoses(c: Config, s: State, ls: seq<Label>, reason: Reason)
    decreases |ls|
  {
    ls != [] && Enabled(s, ls[0]) && (Loses(c, s, ls[0], reason) || EverLoses(c, Apply(c, s, ls[0]), ls[1..], reason))
  }

  predicate HasLoss(losses: seq<Loss>, reason: Reason) {
    exists i :: 0 <= i < |losses| && losses[i].reason == reason
  }

  /** The success of every send of the run: whether the queue had room. */
  ghost function Sends(c: Config, s: State, ls: seq<Label>): seq<bool>
    decreases |ls|
  {
    if ls == [] || !Enabled(s, ls[0]) then []
    else (if ls[0].Offer? then [!s.send.Full()] else []) + Sends(c, Apply(c, s, ls[0]), ls[1..])
  }

  lemma {:induction false} RunDrops(c: Config, s: State, ls: seq<Label>, t: State, n: nat)
    requires Runs(c, s, ls, t)
    ensures n in t.dropped <==> n in s.dropped || EverDrops(c, s, ls, n)
    decreases |ls|
  {
    if ls == [] {
    } else {
      RunDrops(c, Apply(c, s, ls[0]), ls[1..], t, n);
    }
  }

  lemma {:induction false} OneMoreLoss(losses: seq<Loss>, l: Loss, reason: Reason)
    ensures HasLoss(losses + [l], reason) <==> HasLoss(losses, reason) || l.reason == reason
  {
    if i :| 0 <= i < |losses| && losses[i].reason == reason {
      assert (losses + [l])[i].reason == reason;
    }
    assert (losses + [l])[|losses|] == l;
  }

  lemma {:induction false} LossStep(c: Config, s: State, l: Label, reason: Reason)
    requires Enabled(s, l)
    ensures HasLoss(Apply(c, s, l).losses, reason) <==> HasLoss(s.losses, reason) || Loses(c, s, l, reason)
  {
    var t := Apply(c, s, l);
    if t.losses != s.losses {
      OneMoreLoss(s.losses, t.losses[|s.losses|], reason);
    }
  }

  lemma {:induction false} RunLosses(c: Config, s: State, ls: seq<Label>, t: State, reason: Reason)
    requires Runs(c, s, ls, t)
    ensures HasLoss(t.losses, reason) <==> HasLoss(s.losses, reason) || EverLoses(c, s, ls, reason)
    decreases |ls|
  {
    if ls == [] {
    } else {
      LossStep(c, s, ls[0], reason);
      RunLosses(c, Apply(c, s, ls[0]), ls[1..], t, reason);
    }
  }

  lemma {:induction false} RunSends(c: Config, s: State, ls: seq<Label>, t: State)
    requires Runs(c, s, ls, t)
    ensures t.outcomes == s.outcomes + Sends(c, s, ls)
    decreases |ls|
  {
    if ls == [] {
    } else {
      RunSends(c, Apply(c, s, ls[0]), ls[1..], t);
    }
  }

  /** Over every run: a number is dropped exactly if its send found the send queue full, a notification is lost
      for a reason exactly if one found the queue in question full, and the recorded outcome of each send is whether
      there was room. */
  lemma {:induction false} DroppedIffFull(c: Config, s: State, ls: seq<Label>, t: State, n: nat, reason: Reason)
    requires Init(s) && Runs(c, s, ls, t)
    ensures n in t.dropped <==> EverDrops(c, s, ls, n)
    ensures HasLoss(t.losses, reason) <==> EverLoses(c, s, ls, reason)
    ensures t.outcomes == Sends(c, s, ls)
  {
    RunDrops(c, s, ls, t, n);
    RunLosses(c, s, ls, t, reason);
    RunSends(c, s, ls, t);
  }

  /** In every run in which no notification finds its queue full, once caster, pump and gap channel are idle, every
      dropped number is covered by a notification on the send queue. */
  lemma {:induction false} DropsAnnounced(c: Config, s: State, ls: seq<Label>, t: State, n: nat)
    requires Init(s) && Runs(c, s, ls, t) && forall reason :: !EverLoses(c, s, ls, reason)
    requires t.caster.CasterIdle? && t.pump.PumpIdle? && t.gaps == [] && n in t.dropped
    ensures Announced(t.send.log, t.dropped[n], n)
  {
    DropAccounting(c, s, ls, t);
    assert Accounted(t, t.dropped[n], n);
    forall reason ensures !HasLoss(t.losses, reason) {
      RunLosses(c, s, ls, t, reason);
    }
    assert t.losses != [] ==> HasLoss(t.losses, t.losses[0].reason);
  }

  // ----- Numbers stay with their messages -----

  /** The number `n` is handed out for a message of the channel. */
  predicate HandsOut(s: State, l: Label, n: nat, ch: Channel) {
    l.Assign? && l.ch == ch && s.lastSeq + 1 == n
  }

  ghost predicate HandedOut(c: Config, s: State, ls: seq<Label>, n: nat, ch: Channel)
    decreases |ls|
  {
    ls != [] && Enabled(s, ls[0]) && (HandsOut(s, ls[0], n, ch) || HandedOut(c, Apply(c, s, ls[0]), ls[1..], n, ch))
  }

  /** The number is with a message of the channel: enqueued, dropped, or in the caster's hands. */
  predicate GoesWith(s: State, n: nat, ch: Channel) {
    || Data(ch, n) in s.send.log
    || (n in s.dropped && s.dropped[n] == ch)
    || (s.caster.Offering? && s.caster.seqNo == n && s.caster.channel == ch)
  }

  lemma {:induction false} RunHandedOut(c: Config, s: State, ls: seq<Label>, t: State, n: nat, ch: Channel)
    requires Runs(c, s, ls, t) && GoesWith(t, n, ch)
    ensures GoesWith(s, n, ch) || HandedOut(c, s, ls, n, ch)
    decreases |ls|
  {
    if ls == [] {
    } else {
      RunHandedOut(c, Apply(c, s, ls[0]), ls[1..], t, n, ch);
    }
  }

  function Drains(ls: seq<Label>): nat {
    if ls == [] then 0 else One(ls[0].Drain?) + Drains(ls[1..])
  }

  lemma {:induction false} RunDrains(c: Config, s: State, ls: seq<Label>, t: State)
    requires Runs(c, s, ls, t)
    ensures t.send.taken == s.send.taken + Drains(ls) && s.send.log <= t.send.log
    decreases |ls|
  {
    if ls == [] {
    } else {
      RunDrains(c, Apply(c, s, ls[0]), ls[1..], t);
    }
  }

  /** Over every run: a number sent or dropped on a channel was handed out for a message of that channel, and the
      pump has taken one frame per step, in queue order. */
  lemma {:induction false} NumbersKeepChannel(c: Config, s: State, ls: seq<Label>, t: State, n: nat, ch: Channel)
    requires Init(s) && Runs(c, s, ls, t)
    ensures Data(ch, n) in t.send.log || (n in t.dropped && t.dropped[n] == ch) ==> HandedOut(c, s, ls, n, ch)
    ensures t.send.taken == Drains(ls)
  {
    if GoesWith(t, n, ch) {
      RunHandedOut(c, s, ls, t, n, ch);
    }
    RunDrains(c, s, ls, t);
  }

  // ----- Slow clients -----

  /** Number of failures at the end of the history. */
  function Trailing(o: seq<bool>): nat {
    if o == [] || o[|o| - 1] then 0 else 1 + Trailing(o[..|o| - 1])
  }

  /** Somewhere in the history a failed send completed a run of at least `k` failures. */
  ghost predicate SlowRun(o: seq<bool>, k: int) {
    exists i :: 0 < i <= |o| && !o[i - 1] && Trailing(o[..i]) >= k
  }

  lemma {:induction false} SlowRunStep(o: seq<bool>, b: bool, k: int)
    ensures Trailing(o + [b]) == if b then 0 else Trailing(o) + 1
    ensures SlowRun(o + [b], k) <==> SlowRun(o, k) || (!b && Trailing(o) + 1 >= k)
  {
    var o' := o + [b];
    assert o'[..|o|] == o;
    assert o'[..|o'|] == o';
    if i :| 0 < i <= |o'| && !o'[i - 1] && Trailing(o'[..i]) >= k {
      assert i <= |o| ==> o'[..i] == o[..i];
    }
    if i :| 0 < i <= |o| && !o[i - 1] && Trailing(o[..i]) >= k {
      assert o'[..i] == o[..i] && o'[i - 1] == o[i - 1];
    }
  }

  /** Outcomes whose slow-client check has been made. */
  function Checked(s: State): seq<bool> {
    if s.caster.Notifying? && s.outcomes != [] then s.outcomes[..|s.outcomes| - 1] else s.outcomes
  }

  ghost predicate SlowInv(c: Config, s: State) {
    && s.attempts == Trailing(s.outcomes)
    && (s.closed <==> SlowRun(Checked(s), c.maxAttempts))
    && (s.caster.Notifying? ==> s.outcomes != [] && !s.outcomes[|s.outcomes| - 1])
  }

  lemma {:induction false} OfferSlow(c: Config, s: State)
    requires SlowInv(c, s) && s.caster.Offering?
    ensures SlowInv(c, DoOffer(s))
  {
    SlowRunStep(s.outcomes, !s.send.Full(), c.maxAttempts);
    assert (s.outcomes + [false])[..|s.outcomes|] == s.outcomes;
  }

  lemma {:induction false} NotifySlow(c: Config, s: State)
    requires SlowInv(c, s) && s.caster.Notifying?
    ensures SlowInv(c, DoNotify(c, s))
  {
    var o := s.outcomes[..|s.outcomes| - 1];
    assert s.outcomes == o + [false];
    SlowRunStep(o, false, c.maxAttempts);
  }

  lemma {:induction false} SlowStep(c: Config, s: State, l: Label)
    requires SlowInv(c, s) && Enabled(s, l)
    ensures SlowInv(c, Apply(c, s, l))
  {
    match l {
      case Offer => OfferSlow(c, s);
      case Notify => NotifySlow(c, s);
      case _ => assert Checked(Apply(c, s, l)) == Checked(s);
    }
  }

  /** A transport is closed for slowness exactly when some failed send completed a run of at least
      `maxAttempts` consecutive failures; one success in between starts the count again. */
  lemma {:induction false} SlowClientExactly(c: Config, s: State, ls: seq<Label>, t: State)
    requires Init(s) && Runs(c, s, ls, t) && !t.caster.Notifying?
    ensures t.attempts == Trailing(t.outcomes)
    ensures t.closed <==> SlowRun(t.outcomes, c.maxAttempts)
  {
    RunSlow(c, s, ls, t);
  }

  lemma {:induction false} RunSlow(c: Config, s: State, ls: seq<Label>, t: State)
    requires SlowInv(c, s) && Runs(c, s, ls, t)
    ensures SlowInv(c, t)
    decreases |ls|
  {
    if ls == [] {
    } else {
      SlowStep(c, s, ls[0]);
      RunSlow(c, Apply(c, s, ls[0]), ls[1..], t);
    }
  }

  // ----- Anchors -----

  /** The notification carries the position of the first number it covers, so that a replay from there
      returns every message it covers. */
  predicate Anchored(positions: map<nat, string>, g: Gap) {
    g.fromSeq in positions && g.lastPos == positions[g.fromSeq]
  }

  predicate InHand(p: Pump, g: Gap) {
    match p
    case PumpIdle => false
    case Merging(m) => g == m
    case Requeueing(m, lost) => g == m || g == lost
    case Forwarding(m) => g == m
  }

  /** A notification queued, in the pump's hand, or sent. */
  predicate IsNotification(s: State, g: Gap) {
    g in s.gaps || InHand(s.pump, g) || GapFrame(g) in s.send.log
  }

  ghost predicate AllAnchored(s: State) {
    forall g :: IsNotification(s, g) ==> Anchored(s.positions, g)
  }

  /** The notification starts before every queued one of its channel. */
  predicate Below(g: Gap, q: seq<Gap>) {
    forall i :: 0 <= i < |q| && q[i].channel == g.channel ==> g.fromSeq < q[i].fromSeq
  }

  /** On each channel the queue is in sequence order. */
  predicate PerChannel(q: seq<Gap>) {
    forall i, j :: 0 <= i < j < |q| && q[i].channel == q[j].channel ==> q[i].fromSeq < q[j].fromSeq
  }

  predicate StartBefore(q: seq<Gap>, p: Pump, n: nat) {
    && (forall i :: 0 <= i < |q| ==> q[i].fromSeq < n)
    && (p.Merging? ==> p.merged.fromSeq < n)
    && (p.Requeueing? ==> p.lost.fromSeq < n)
  }

  /** The queue, what the pump took from it and what the caster will add to it are in sequence order. */
  predicate InOrder(s: State) {
    && PerChannel(s.gaps)
    && (s.pump.Merging? ==> Below(s.pump.merged, s.gaps))
    && (s.pump.Requeueing? ==> Below(s.pump.lost, s.gaps))
    && StartBefore(s.gaps, s.pump, s.lastSeq + 1)
    && (!s.caster.CasterIdle? ==> s.caster.seqNo <= s.lastSeq && StartBefore(s.gaps, s.pump, s.caster.seqNo))
  }

  /** The overflow item goes back behind an item of its own channel. */
  predicate Overtakes(c: Config, s: State, l: Label) {
    && l.Requeue? && s.pump.Requeueing? && |s.gaps| < c.gapCap
    && exists i :: 0 <= i < |s.gaps| && s.gaps[i].channel == s.pump.lost.channel
  }

  ghost predicate Overtaken(c: Config, s: State, ls: seq<Label>)
    decreases |ls|
  {
    ls != [] && Enabled(s, ls[0]) && (Overtakes(c, s, ls[0]) || Overtaken(c, Apply(c, s, ls[0]), ls[1..]))
  }

  ghost predicate InOrderThroughout(c: Config, s: State, ls: seq<Label>)
    decreases |ls|
  {
    InOrder(s) && (ls == [] || (Enabled(s, ls[0]) && InOrderThroughout(c, Apply(c, s, ls[0]), ls[1..])))
  }

  lemma {:induction false} HeadOrder(q: seq<Gap>)
    requires q != [] && PerChannel(q)
    ensures PerChannel(q[1..]) && Below(q[0], q[1..])
  {
  }

  lemma {:induction false} TailOrder(q: seq<Gap>, g: Gap)
    requires PerChannel(q)
    ensures PerChannel(q + [g]) <==> forall i :: 0 <= i < |q| && q[i].channel == g.channel ==> q[i].fromSeq < g.fromSeq
  {
    if i :| 0 <= i < |q| && q[i].channel == g.channel && q[i].fromSeq >= g.fromSeq {
      assert (q + [g])[i].channel == (q + [g])[|q|].channel;
    }
  }

  lemma {:induction false} NotifyOrder(c: Config, s: State)
    requires InOrder(s) && s.caster.Notifying?
    ensures InOrder(DoNotify(c, s))
  {
    TailOrder(s.gaps, Gap(s.caster.channel, s.caster.seqNo, s.caster.seqNo, s.caster.pos));
  }

  lemma {:induction false} RequeueOrder(c: Config, s: State)
    requires InOrder(s) && s.pump.Requeueing?
    ensures InOrder(DoRequeue(c, s)) <==> !Overtakes(c, s, Requeue)
  {
    TailOrder(s.gaps, s.pump.lost);
  }

  lemma {:induction false} TakeOrder(c: Config, s: State, l: Label)
    requires InOrder(s) && Enabled(s, l) && (l.TakeGap? || l.MergeNext?)
    ensures InOrder(Apply(c, s, l))
  {
    HeadOrder(s.gaps);
  }

  lemma {:induction false} OrderStep(c: Config, s: State, l: Label)
    requires InOrder(s) && Enabled(s, l)
    ensures InOrder(Apply(c, s, l)) <==> !Overtakes(c, s, l)
  {
    match l
    case Notify => NotifyOrder(c, s);
    case Requeue => RequeueOrder(c, s);
    case TakeGap => TakeOrder(c, s, l);
    case MergeNext => TakeOrder(c, s, l);
    case _ =>
  }

  /** The queue stays in sequence order on each channel, through a whole run, exactly if no overflow item
      goes back behind one of its own channel. */
  lemma {:induction false} OrderedIff(c: Config, s: State, ls: seq<Label>, t: State)
    requires InOrder(s) && Runs(c, s, ls, t)
    ensures InOrderThroughout(c, s, ls) <==> !Overtaken(c, s, ls)
    decreases |ls|
  {
    if ls == [] {
    } else {
      OrderStep(c, s, ls[0]);
      if !Overtakes(c, s, ls[0]) {
        OrderedIff(c, Apply(c, s, ls[0]), ls[1..], t);
      }
    }
  }

  ghost predicate AnchorInv(s: State) {
    && AllAnchored(s)
    && (forall n :: n in s.positions ==> n <= s.lastSeq)
    && (!s.caster.CasterIdle? ==> s.caster.seqNo in s.positions && s.positions[s.caster.seqNo] == s.caster.pos)
  }

  /** A merge moves the start of the merged notification back. */
  predicate Widens(s: State, l: Label) {
    && l.MergeNext? && s.pump.Merging? && s.gaps != []
    && s.gaps[0].channel == s.pump.merged.channel && s.gaps[0].fromSeq < s.pump.merged.fromSeq
  }

  ghost predicate Widened(c: Config, s: State, ls: seq<Label>)
    decreases |ls|
  {
    ls != [] && Enabled(s, ls[0]) && (Widens(s, ls[0]) || Widened(c, Apply(c, s, ls[0]), ls[1..]))
  }

  ghost predicate AnchoredThroughout(c: Config, s: State, ls: seq<Label>)
    decreases |ls|
  {
    AllAnchored(s) && (ls == [] || (Enabled(s, ls[0]) && AnchoredThroughout(c, Apply(c, s, ls[0]), ls[1..])))
  }

  /** Different messages have different positions. */
  predicate DistinctPositions(positions: map<nat, string>) {
    forall m, n :: m in positions && n in positions && positions[m] == positions[n] ==> m == n
  }

  lemma {:induction false} AnchorOne(c: Config, s: State, l: Label, g: Gap)
    requires AnchorInv(s) && Enabled(s, l) && !Widens(s, l) && IsNotification(Apply(c, s, l), g)
    ensures Anchored(Apply(c, s, l).positions, g)
  {
    if l.MergeNext? {
      assert IsNotification(s, s.pump.merged) && IsNotification(s, s.gaps[0]);
    }
    assert IsNotification(s, g) ==> Anchored(s.positions, g);
  }

  lemma {:induction false} AnchorStep(c: Config, s: State, l: Label)
    requires AnchorInv(s) && Enabled(s, l) && !Widens(s, l)
    ensures AnchorInv(Apply(c, s, l))
  {
    forall g | IsNotification(Apply(c, s, l), g) ensures Anchored(Apply(c, s, l).positions, g) {
      AnchorOne(c, s, l, g);
    }
  }

  lemma {:induction false} WideningBreaks(c: Config, s: State, l: Label)
    requires AnchorInv(s) && DistinctPositions(s.positions) && Enabled(s, l) && Widens(s, l)
    ensures !AllAnchored(Apply(c, s, l))
  {
    var t := DoMergeNext(s);
    assert IsNotification(s, s.pump.merged) && IsNotification(s, s.gaps[0]);
    assert IsNotification(t, t.pump.merged) && !Anchored(t.positions, t.pump.merged);
  }

  lemma {:induction false} PositionsStay(c: Config, s: State, l: Label)
    requires (forall n :: n in s.positions ==> n <= s.lastSeq) && Enabled(s, l)
    ensures forall n :: n in Apply(c, s, l).positions ==> n <= Apply(c, s, l).lastSeq
    ensures forall n :: n in s.positions ==> n in Apply(c, s, l).positions && Apply(c, s, l).positions[n] == s.positions[n]
  {
  }

  lemma {:induction false} RunPositions(c: Config, s: State, ls: seq<Label>, t: State)
    requires (forall n :: n in s.positions ==> n <= s.lastSeq) && Runs(c, s, ls, t)
    ensures forall n :: n in s.positions ==> n in t.positions && t.positions[n] == s.positions[n]
    decreases |ls|
  {
    if ls == [] {
    } else {
      PositionsStay(c, s, ls[0]);
      RunPositions(c, Apply(c, s, ls[0]), ls[1..], t);
    }
  }

  lemma {:induction false} AnchorsFromIff(c: Config, s: State, ls: seq<Label>, t: State)
    requires AnchorInv(s) && Runs(c, s, ls, t) && DistinctPositions(t.positions)
    ensures AnchoredThroughout(c, s, ls) <==> !Widened(c, s, ls)
    decreases |ls|
  {
    if ls == [] {
    } else {
      RunPositions(c, s, ls, t);
      if Widens(s, ls[0]) {
        WideningBreaks(c, s, ls[0]);
      } else {
        AnchorStep(c, s, ls[0]);
        AnchorsFromIff(c, Apply(c, s, ls[0]), ls[1..], t);
      }
    }
  }

  /** Over every run in which messages have distinct positions: every notification, queued, in hand or sent,
      always carries the position of the first number it covers, exactly if no merge ever moves a start
      back. */
  lemma {:induction false} AnchorsIff(c: Config, s: State, ls: seq<Label>, t: State)
    requires Init(s) && Runs(c, s, ls, t) && DistinctPositions(t.positions)
    ensures AnchoredThroughout(c, s, ls) <==> !Widened(c, s, ls)
  {
    AnchorsFromIff(c, s, ls, t);
  }

  lemma {:induction false} RunAnchors(c: Config, s: State, ls: seq<Label>, t: State)
    requires InOrder(s) && AnchorInv(s) && Runs(c, s, ls, t) && !Overtaken(c, s, ls)
    ensures InOrder(t) && AnchorInv(t)
    decreases |ls|
  {
    if ls == [] {
    } else {
      OrderStep(c, s, ls[0]);
      AnchorStep(c, s, ls[0]);
      RunAnchors(c, Apply(c, s, ls[0]), ls[1..], t);
    }
  }

  /** In every run in which no overflow item goes back behind one of its own channel, every notification
      carries the position of the first number it covers. */
  lemma {:induction false} AnchorsHold(c: Config, s: State, ls: seq<Label>, t: State)
    requires Init(s) && Runs(c, s, ls, t) && !Overtaken(c, s, ls)
    ensures AllAnchored(t)
  {
    RunAnchors(c, s, ls, t);
  }

  // ----- Re-enqueueing breaks the anchor -----

  lemma {:induction false} RunsExtend(c: Config, s: State, ls: seq<Label>, m: State, l: Label)
    requires Runs(c, s, ls, m) && Enabled(m, l)
    ensures Runs(c, s, ls + [l], Apply(c, m, l))
    decreases |ls|
  {
    if ls == [] {
      assert ls + [l] == [l] && [l][1..] == [];
      assert Runs(c, Apply(c, m, l), [], Apply(c, m, l));
    } else {
      assert (ls + [l])[1..] == ls[1..] + [l];
      RunsExtend(c, Apply(c, s, ls[0]), ls[1..], m, l);
    }
  }

  /** One dropped broadcast: number taken, send refused, gap enqueued. */
  lemma {:induction false} DropOne(c: Config, s: State, ls: seq<Label>, m: State, ch: Channel, pos: string)
    returns (ls': seq<Label>, t: State)
    requires Runs(c, s, ls, m) && m.caster.CasterIdle? && m.send.Full() && |m.gaps| < c.gapCap
    ensures Runs(c, s, ls', t) && t.caster.CasterIdle? && t.send == m.send && t.pump == m.pump
    ensures t.lastSeq == m.lastSeq + 1 && t.gaps == m.gaps + [Gap(ch, m.lastSeq + 1, m.lastSeq + 1, pos)]
    ensures t.positions == m.positions[m.lastSeq + 1 := pos]
  {
    RunsExtend(c, s, ls, m, Assign(ch, pos));
    var m1 := Apply(c, m, Assign(ch, pos));
    RunsExtend(c, s, ls + [Assign(ch, pos)], m1, Offer);
    var m2 := DoOffer(m1);
    RunsExtend(c, s, ls + [Assign(ch, pos)] + [Offer], m2, Notify);
    ls', t := ls + [Assign(ch, pos)] + [Offer] + [Notify], DoNotify(c, m2);
  }

  /** The pump takes a notification, meets one of another channel and puts it back at the tail. */
  lemma {:induction false} TakeAndRequeue(c: Config, s: State, ls: seq<Label>, m: State)
    returns (ls': seq<Label>, t: State)
    requires Runs(c, s, ls, m) && m.pump.PumpIdle? && |m.gaps| >= 2 && m.gaps[0].channel != m.gaps[1].channel
    requires |m.gaps| <= c.gapCap
    ensures Runs(c, s, ls', t) && t.pump.PumpIdle? && t.gaps == m.gaps[2..] + [m.gaps[1]] && t.positions == m.positions
  {
    RunsExtend(c, s, ls, m, TakeGap);
    var m1 := Apply(c, m, TakeGap);
    RunsExtend(c, s, ls + [TakeGap], m1, MergeNext);
    var m2 := DoMergeNext(m1);
    assert m2.gaps == m.gaps[2..];
    RunsExtend(c, s, ls + [TakeGap] + [MergeNext], m2, Requeue);
    var m3 := DoRequeue(c, m2);
    RunsExtend(c, s, ls + [TakeGap] + [MergeNext] + [Requeue], m3, Forward);
    ls', t := ls + [TakeGap] + [MergeNext] + [Requeue] + [Forward], DoForward(m3);
  }

  /** From any reachable state with a full send queue and an empty gap channel, three drops on two
      channels lead to a forwarded notification that covers the drops n+2 and n+3 but carries the
      position of n+3: the overflow item went back behind a newer item of its own channel.  A client
      that replays from that position does not get the message n+2. */
  lemma {:induction false} RequeueBreaksAnchor(c: Config, s: State, ls0: seq<Label>, m: State, a: Channel, b: Channel)
    returns (ls: seq<Label>, t: State)
    requires Runs(c, s, ls0, m) && m.send.Full() && m.caster.CasterIdle? && m.pump.PumpIdle? && m.gaps == []
    requires a != b && c.gapCap >= 3
    ensures Runs(c, s, ls, t)
    ensures t.pump == Forwarding(Gap(b, m.lastSeq + 2, m.lastSeq + 3, "1-12"))
    ensures m.lastSeq + 2 in t.positions && t.positions[m.lastSeq + 2] == "1-11" && !AllAnchored(t)
  {
    var n := m.lastSeq;
    ls, t := DropOne(c, s, ls0, m, a, "1-10");
    ls, t := DropOne(c, s, ls, t, b, "1-11");
    ls, t := DropOne(c, s, ls, t, b, "1-12");
    assert t.gaps == [Gap(a, n + 1, n + 1, "1-10"), Gap(b, n + 2, n + 2, "1-11"), Gap(b, n + 3, n + 3, "1-12")];
    ls, t := TakeAndRequeue(c, s, ls, t);
    assert t.gaps == [Gap(b, n + 3, n + 3, "1-12"), Gap(b, n + 2, n + 2, "1-11")];
    ls, t := TakeAndMerge(c, s, ls, t);
    assert "1-11"[3] != "1-12"[3];
    assert IsNotification(t, t.pump.merged) && !Anchored(t.positions, t.pump.merged);
  }

  /** Two notifications of one channel are merged and the queue is then empty. */
  lemma {:induction false} TakeAndMerge(c: Config, s: State, ls: seq<Label>, m: State)
    returns (ls': seq<Label>, t: State)
    requires Runs(c, s, ls, m) && m.pump.PumpIdle? && |m.gaps| == 2 && m.gaps[0].channel == m.gaps[1].channel
    ensures Runs(c, s, ls', t) && t.pump == Forwarding(Merge(m.gaps[0], m.gaps[1])) && t.positions == m.positions
  {
    RunsExtend(c, s, ls, m, TakeGap);
    var m1 := Apply(c, m, TakeGap);
    RunsExtend(c, s, ls + [TakeGap], m1, MergeNext);
    var m2 := DoMergeNext(m1);
    RunsExtend(c, s, ls + [TakeGap] + [MergeNext], m2, MergeDone);
    ls', t := ls + [TakeGap] + [MergeNext] + [MergeDone], Apply(c, m2, MergeDone);
  }
}
