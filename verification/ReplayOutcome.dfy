/** What a reconnect replays, delivers and reports, exactly (ws/internal/server: replay_shared.go, broadcast.go,
    grpc_service.go, kafka/consumer.go): the records it may hand out, the causes of each outcome, the frames of the
    verdict. The runs are those of the reconnect machine. */
module ReplayOutcome {
  import opened Common
  import opened CursorAuthorization
  import opened RecoveryVerdict
  import opened ReconnectRecovery

  // ----- Only authorized records are replayed -----

  /** A record the replay may hand out: in the log, of an authorized channel, from its partition's start on. */
  ghost predicate MayReplay(q: Request, log: Log, r: RecId) {
    && InLog(log, r) && ChannelOf(log, r) in q.authorized
    && r.part in q.starts && q.starts[r.part] <= r.offset
  }

  /** The result holds such records only; the next fetch is past the starts; a partition is pending exactly while
      the fetch is short of its captured end. */
  ghost predicate FilteredInv(q: Request, s: State) {
    && (forall r :: r in s.x.msgs ==> MayReplay(q, s.w.log, r))
    && |s.x.msgs| <= Max(0, q.maxMessages)
    && (s.phase == Fetching ==>
        && s.x.pos.Keys == q.starts.Keys == s.x.ends.Keys && s.x.pending <= q.starts.Keys
        && (forall p :: p in q.starts ==> q.starts[p] <= s.x.pos[p])
        && (forall p :: p in q.starts && q.starts[p] >= 0 ==> (p in s.x.pending <==> s.x.pos[p] < s.x.ends[p])))
  }

  lemma {:induction false} MayReplayStays(q: Request, log: Log, log': Log, r: RecId)
    requires Grows(log, log') && MayReplay(q, log, r)
    ensures MayReplay(q, log', r)
  {
    assert LogOf(log, r.part) <= LogOf(log', r.part);
  }

  lemma {:induction false} FilterAppend(q: Request, s: State, l: Label)
    requires FilteredInv(q, s) && Enabled(q, s, l) && l.Append?
    ensures FilteredInv(q, Apply(q, s, l))
  {
    var t := Apply(q, s, l);
    assert Grows(s.w.log, t.w.log);
    forall r | r in t.x.msgs ensures MayReplay(q, t.w.log, r) {
      MayReplayStays(q, s.w.log, t.w.log, r);
    }
  }

  lemma {:induction false} FilterTake(q: Request, s: State)
    requires Inv(q, s) && FilteredInv(q, s) && Enabled(q, s, Take)
    ensures FilteredInv(q, Apply(q, s, Take))
  {
  }

  lemma {:induction false} FilterStart(q: Request, s: State)
    requires Inv(q, s) && FilteredInv(q, s) && Enabled(q, s, StartFetch)
    ensures FilteredInv(q, Apply(q, s, StartFetch))
  {
  }

  /** A step that leaves the log, the result and the fetch alone. */
  lemma {:induction false} FilterKept(q: Request, s: State, t: State)
    requires FilteredInv(q, s) && t.w.log == s.w.log && t.x.msgs == s.x.msgs
    requires t.phase == Fetching ==>
      s.phase == Fetching && t.x.pos == s.x.pos && t.x.ends == s.x.ends && t.x.pending == s.x.pending
    ensures FilteredInv(q, t)
  {
  }

  lemma {:induction false} FilterOther(q: Request, s: State, l: Label)
    requires FilteredInv(q, s) && Enabled(q, s, l) && !l.Append? && !l.Take? && !l.StartFetch?
    ensures FilteredInv(q, Apply(q, s, l))
  {
    FilterKept(q, s, Apply(q, s, l));
  }

  lemma {:induction false} FilterStep(q: Request, s: State, l: Label)
    requires Inv(q, s) && FilteredInv(q, s) && Enabled(q, s, l)
    ensures FilteredInv(q, Apply(q, s, l))
  {
    match l
    case Append(_, _) => FilterAppend(q, s, l);
    case Take => FilterTake(q, s);
    case StartFetch => FilterStart(q, s);
    case _ => FilterOther(q, s, l);
  }

  lemma {:induction false} RunFilter(q: Request, s: State, ls: seq<Label>, t: State)
    requires Inv(q, s) && FilteredInv(q, s) && Runs(q, s, ls, t)
    ensures FilteredInv(q, t)
    decreases |ls|
  {
    if ls == [] {
    } else {
      InvStep(q, s, ls[0]);
      FilterStep(q, s, ls[0]);
      RunFilter(q, Apply(q, s, ls[0]), ls[1..], t);
    }
  }

  lemma {:induction false} ElementsSize<T>(xs: seq<T>)
    ensures |Elements(xs)| <= |xs|
    ensures NoDuplicates(xs) ==> |Elements(xs)| == |xs|
  {
    if xs == [] {
      assert Elements(xs) == {};
    } else {
      var front, last := xs[..|xs| - 1], xs[|xs| - 1];
      ElementsSize(front);
      assert xs == front + [last];
      assert Elements(xs) == Elements(front) + {last};
      if NoDuplicates(xs) {
        assert last !in front;
      }
    }
  }

  /** Distinct elements of a list are no more than the list is long. */
  lemma {:induction false} DistinctFit<T>(xs: seq<T>, ys: seq<T>)
    requires NoDuplicates(xs) && forall x :: x in xs ==> x in ys
    ensures |xs| <= |ys|
  {
    ElementsSize(xs);
    ElementsSize(ys);
    assert Elements(ys) == Elements(xs) + (Elements(ys) - Elements(xs));
  }

  /** In every run, every replayed frame is a record of an authorized channel at or past the start of its
      partition, and there are no more of them than the cap allows. */
  lemma {:induction false} OnlyAuthorizedReplayed(q: Request, s: State, ls: seq<Label>, t: State, r: RecId)
    requires Init(q, s) && Runs(q, s, ls, t) && r in ReplayedRecords(t.w.send.log)
    ensures InLog(t.w.log, r) && ChannelOf(t.w.log, r) in q.authorized
    ensures r.part in q.starts && q.starts[r.part] <= r.offset
    ensures |ReplayedRecords(t.w.send.log)| <= Max(0, q.maxMessages)
  {
    InitInv(q, s);
    RunFilter(q, s, ls, t);
    ReplayInOrder(q, s, ls, t);
    DistinctFit(ReplayedRecords(t.w.send.log), t.x.msgs);
  }

  /** While the replay fetches, a partition is pending exactly until the fetch reaches its captured end. */
  lemma {:induction false} PendingExactly(q: Request, s: State, ls: seq<Label>, t: State, p: Part)
    requires Init(q, s) && Runs(q, s, ls, t) && t.phase == Fetching && p in q.starts && q.starts[p] >= 0
    ensures p in t.x.pos && p in t.x.ends && (p in t.x.pending <==> t.x.pos[p] < t.x.ends[p])
  {
    InitInv(q, s);
    RunFilter(q, s, ls, t);
  }

  // ----- The causes of each outcome -----

  /** A result meets a full send queue. */
  predicate Overflows(s: State, l: Label) {
    l == Enqueue(true) && s.w.send.Full()
  }

  ghost predicate Overflowed(q: Request, s: State, ls: seq<Label>)
    decreases |ls|
  {
    ls != [] && Enabled(q, s, ls[0]) && (Overflows(s, ls[0]) || Overflowed(q, Apply(q, s, ls[0]), ls[1..]))
  }

  /** The backend fails, or a cursor lies past the end of its partition when that is looked up. */
  predicate Fails(q: Request, s: State, l: Label) {
    l.BackendError? || (l.Capture? && l.p in q.starts && |LogOf(s.w.log, l.p)| < q.starts[l.p])
  }

  ghost predicate Failed(q: Request, s: State, ls: seq<Label>)
    decreases |ls|
  {
    ls != [] && Enabled(q, s, ls[0]) && (Fails(q, s, ls[0]) || Failed(q, Apply(q, s, ls[0]), ls[1..]))
  }

  /** All results were handled, but the cap was hit, or before that the time ran out or a result did not
      serialize. */
  predicate CutShort(past: seq<Label>, results: nat, maxMessages: int) {
    exists i :: 0 <= i < |past| && past[i] == EndReplay &&
      (results >= maxMessages || Expire in past[..i] || Enqueue(false) in past[..i])
  }

  /** The flags and the outcome say what the labels `past` were. */
  ghost predicate HistoryInv(q: Request, s: State, past: seq<Label>, overflowed: bool, failed: bool) {
    && (s.x.expired <==> Expire in past)
    && (s.x.skipped <==> Enqueue(false) in past)
    && (s.outcome == Undecided <==> !s.phase.Reporting?)
    && (s.outcome == Errored <==> failed)
    && (s.outcome == Finished(true) <==> overflowed || CutShort(past, |s.x.msgs|, q.maxMessages))
    && (EndReplay in past ==> s.phase.Reporting?)
  }

  lemma {:induction false} CutShortNext(past: seq<Label>, l: Label, results: nat, maxMessages: int)
    ensures CutShort(past + [l], results, maxMessages) <==>
      || CutShort(past, results, maxMessages)
      || (l == EndReplay && (results >= maxMessages || Expire in past || Enqueue(false) in past))
  {
    var more := past + [l];
    assert more[..|past|] == past;
    forall i | 0 <= i < |past| ensures more[i] == past[i] && more[..i] == past[..i] {
    }
    if CutShort(past, results, maxMessages) {
      var i :| 0 <= i < |past| && past[i] == EndReplay &&
        (results >= maxMessages || Expire in past[..i] || Enqueue(false) in past[..i]);
      assert more[i] == EndReplay;
    }
    if l == EndReplay {
      assert more[|past|] == EndReplay;
    }
  }

  lemma {:induction false} NoEndNoCut(past: seq<Label>, results: nat, maxMessages: int)
    requires EndReplay !in past
    ensures !CutShort(past, results, maxMessages)
  {
  }

  lemma {:induction false} HistoryStep(q: Request, s: State, l: Label, past: seq<Label>, overflowed: bool, failed: bool)
    requires HistoryInv(q, s, past, overflowed, failed) && Enabled(q, s, l)
    ensures HistoryInv(q, Apply(q, s, l), past + [l], overflowed || Overflows(s, l), failed || Fails(q, s, l))
  {
    var t := Apply(q, s, l);
    CutShortNext(past, l, |t.x.msgs|, q.maxMessages);
    if !s.phase.Reporting? {
      NoEndNoCut(past, |s.x.msgs|, q.maxMessages);
      NoEndNoCut(past, |t.x.msgs|, q.maxMessages);
    }
  }

  lemma {:induction false} RunHistory(q: Request, s: State, ls: seq<Label>, t: State, past: seq<Label>,
      overflowed: bool, failed: bool)
    requires HistoryInv(q, s, past, overflowed, failed) && Runs(q, s, ls, t)
    ensures HistoryInv(q, t, past + ls, overflowed || Overflowed(q, s, ls), failed || Failed(q, s, ls))
    decreases |ls|
  {
    if ls == [] {
      assert past + ls == past;
    } else {
      HistoryStep(q, s, ls[0], past, overflowed, failed);
      RunHistory(q, Apply(q, s, ls[0]), ls[1..], t, past + [ls[0]], overflowed || Overflows(s, ls[0]),
                 failed || Fails(q, s, ls[0]));
      assert past + [ls[0]] + ls[1..] == past + ls;
    }
  }

  /** Over every run: the replay counts as failed exactly if the backend failed or a cursor lay past the log end;
      as truncated exactly if a result met a full queue, or all were handled but the cap was hit, the time had run
      out or one did not serialize; as complete in all other cases in which it ended. */
  lemma {:induction false} OutcomeIff(q: Request, s: State, ls: seq<Label>, t: State)
    requires Init(q, s) && Runs(q, s, ls, t)
    ensures t.outcome == Errored <==> Failed(q, s, ls)
    ensures t.outcome == Finished(true) <==> Overflowed(q, s, ls) || CutShort(ls, |t.x.msgs|, q.maxMessages)
    ensures t.outcome == Undecided <==> !t.phase.Reporting?
  {
    RunHistory(q, s, ls, t, [], false, false);
    assert [] + ls == ls;
  }

  /** Once the replay is over, a requested channel is a possible gap exactly if it was not authorized, or the
      replay failed, overflowed or was cut short. */
  lemma {:induction false} PossibleGapIff(q: Request, s: State, ls: seq<Label>, t: State, ch: Channel)
    requires Init(q, s) && Runs(q, s, ls, t) && t.phase.Reporting?
    ensures ch in GapOf(q, t.outcome) <==>
      && ch in q.requested
      && (|| ch !in q.authorized || Failed(q, s, ls) || Overflowed(q, s, ls)
          || CutShort(ls, |t.x.msgs|, q.maxMessages))
  {
    OutcomeIff(q, s, ls, t);
    PossibleGapExact(q.requested, if t.outcome == Finished(false) then q.authorized else {});
  }

  // ----- The frames of the verdict -----

  predicate IsVerdict(f: Frame) {
    f.NoReplay? || f.ReplayTruncated? || f.RecoveryComplete?
  }

  /** The verdict frames of a queue, in order. */
  function VerdictFrames(log: seq<Frame>): seq<Frame> {
    if log == [] then [] else
    var rest, last := VerdictFrames(log[..|log| - 1]), log[|log| - 1];
    if IsVerdict(last) then rest + [last] else rest
  }

  /** The verdict on a reconnect, as far as its first `stage` steps. */
  function Verdict(q: Request, o: Outcome, count: nat, stage: nat): seq<Frame> {
    (if stage >= 1 && GapOf(q, o) != [] then [NoReplay(GapOf(q, o))] else []) +
    (if stage >= 2 && o == Finished(true) then [ReplayTruncated(count)] else []) +
    (if stage >= 3 then [RecoveryComplete] else [])
  }

  /** In order, without the frames that were given up. */
  predicate SubSequence(a: seq<Frame>, b: seq<Frame>)
    decreases |b|
  {
    a == [] || (b != [] && (SubSequence(a, b[1..]) || (a[0] == b[0] && SubSequence(a[1..], b[1..]))))
  }

  lemma {:induction false} SubAppend(a: seq<Frame>, b: seq<Frame>, x: Frame)
    requires SubSequence(a, b)
    ensures SubSequence(a, b + [x]) && SubSequence(a + [x], b + [x])
    decreases |b|
  {
    if b == [] {
      assert a == [] && a + [x] == [x] && b + [x] == [x] && [x][1..] == [];
    } else {
      assert (b + [x])[1..] == b[1..] + [x];
      if SubSequence(a, b[1..]) {
        SubAppend(a, b[1..], x);
      } else if a != [] {
        SubAppend(a[1..], b[1..], x);
        assert (a + [x])[1..] == a[1..] + [x];
      }
    }
  }

  lemma {:induction false} AppendVerdict(log: seq<Frame>, f: Frame)
    ensures VerdictFrames(log + [f]) == VerdictFrames(log) + if IsVerdict(f) then [f] else []
  {
    assert (log + [f])[..|log|] == log;
  }

  function Stage(s: State): nat {
    if s.phase.Reporting? then s.phase.stage else 0
  }

  /** The frames sent are those of the verdict, less what a cancelled stream gave up. */
  predicate SentOk(sent: seq<Frame>, verdict: seq<Frame>, cancelled: bool) {
    SubSequence(sent, verdict) && (!cancelled ==> sent == verdict)
  }

  ghost predicate FramesInv(q: Request, s: State) {
    && (s.phase.Reporting? ==> s.phase.stage <= 3)
    && SentOk(VerdictFrames(s.w.send.log), Verdict(q, s.outcome, s.x.count, Stage(s)), s.cancelled)
  }

  lemma {:induction false} SentNext(sent: seq<Frame>, verdict: seq<Frame>, cancelled: bool, f: Frame)
    requires SentOk(sent, verdict, cancelled)
    ensures SentOk(sent + [f], verdict + [f], cancelled) && (cancelled ==> SentOk(sent, verdict + [f], cancelled))
  {
    SubAppend(sent, verdict, f);
  }

  lemma {:induction false} VerdictGrows(q: Request, o: Outcome, count: nat, stage: nat)
    requires stage < 3
    ensures Verdict(q, o, count, stage + 1) ==
      Verdict(q, o, count, stage) + if Needed(q, o, stage) then [VerdictFrame(q, o, count, stage)] else []
  {
    if stage == 0 {
      assert Verdict(q, o, count, 0) == [];
    }
  }

  /** One stage of the verdict: its frame goes out, is not needed, or is given up. */
  lemma {:induction false} SentStage(q: Request, o: Outcome, count: nat, stage: nat, sent: seq<Frame>, cancelled: bool)
    requires stage < 3 && SentOk(sent, Verdict(q, o, count, stage), cancelled)
    ensures Needed(q, o, stage) ==>
      && SentOk(sent + [VerdictFrame(q, o, count, stage)], Verdict(q, o, count, stage + 1), cancelled)
      && (cancelled ==> SentOk(sent, Verdict(q, o, count, stage + 1), cancelled))
    ensures !Needed(q, o, stage) ==> SentOk(sent, Verdict(q, o, count, stage + 1), cancelled)
  {
    var verdict := Verdict(q, o, count, stage);
    VerdictGrows(q, o, count, stage);
    SentNext(sent, verdict, cancelled, VerdictFrame(q, o, count, stage));
    assert verdict + [] == verdict;
  }

  lemma {:induction false} ReportFrames(q: Request, s: State)
    requires FramesInv(q, s) && s.phase.Reporting? && s.phase.stage < 3
    ensures FramesInv(q, DoReport(q, s))
    ensures s.cancelled && Needed(q, s.outcome, s.phase.stage) ==>
      FramesInv(q, s.(phase := Reporting(s.phase.stage + 1)))
  {
    SentStage(q, s.outcome, s.x.count, s.phase.stage, VerdictFrames(s.w.send.log), s.cancelled);
    AppendVerdict(s.w.send.log, VerdictFrame(q, s.outcome, s.x.count, s.phase.stage));
  }

  lemma {:induction false} VerdictFrom0(q: Request, o: Outcome, count: nat)
    ensures Verdict(q, o, count, 0) == []
  {
  }

  /** A step that adds no verdict frame and does not move the verdict. */
  lemma {:induction false} FramesKept(q: Request, s: State, t: State, extra: seq<Frame>)
    requires FramesInv(q, s) && t.w.send.log == s.w.send.log + extra
    requires |extra| <= 1 && (extra != [] ==> !IsVerdict(extra[0]))
    requires s.phase.Reporting? ==> t.phase == s.phase && t.outcome == s.outcome && t.x.count == s.x.count
    requires !s.phase.Reporting? && t.phase.Reporting? ==> t.phase.stage == 0
    requires s.cancelled ==> t.cancelled
    ensures FramesInv(q, t)
  {
    assert VerdictFrames(t.w.send.log) == VerdictFrames(s.w.send.log) by {
      if extra == [] {
        assert t.w.send.log == s.w.send.log;
      } else {
        assert extra == [extra[0]];
        AppendVerdict(s.w.send.log, extra[0]);
      }
    }
    assert Verdict(q, t.outcome, t.x.count, Stage(t)) == Verdict(q, s.outcome, s.x.count, Stage(s)) by {
      VerdictFrom0(q, s.outcome, s.x.count);
      VerdictFrom0(q, t.outcome, t.x.count);
    }
  }

  lemma {:induction false} ReplayFrames(q: Request, s: State, l: Label)
    requires FramesInv(q, s) && Enabled(q, s, l) && FromReplay(l)
    ensures FramesInv(q, Apply(q, s, l))
  {
    FramesKept(q, s, Apply(q, s, l), Added(s, l));
  }

  lemma {:induction false} OtherFrames(q: Request, s: State, l: Label)
    requires FramesInv(q, s) && Enabled(q, s, l) && !FromReplay(l) && !l.Report? && !l.Abandon?
    ensures FramesInv(q, Apply(q, s, l))
  {
    FramesKept(q, s, Apply(q, s, l), Added(s, l));
  }

  lemma {:induction false} FramesStep(q: Request, s: State, l: Label)
    requires FramesInv(q, s) && Enabled(q, s, l)
    ensures FramesInv(q, Apply(q, s, l))
  {
    if FromReplay(l) {
      ReplayFrames(q, s, l);
    } else if l.Report? || l.Abandon? {
      ReportFrames(q, s);
    } else {
      OtherFrames(q, s, l);
    }
  }

  lemma {:induction false} RunFrames(q: Request, s: State, ls: seq<Label>, t: State)
    requires FramesInv(q, s) && Runs(q, s, ls, t)
    ensures FramesInv(q, t)
    decreases |ls|
  {
    if ls == [] {
    } else {
      FramesStep(q, s, ls[0]);
      RunFrames(q, Apply(q, s, ls[0]), ls[1..], t);
    }
  }

  lemma {:induction false} NoVerdictYet(log: seq<Frame>)
    requires forall f :: f in log ==> f.Live? || f.OtherFrame?
    ensures VerdictFrames(log) == []
  {
    if log == [] {
    } else {
      assert log[|log| - 1] in log;
      NoVerdictYet(log[..|log| - 1]);
    }
  }

  /** Over every run the verdict frames on the queue are, in this order and nothing else: the possible-gap list if
      there is one, the truncation notice with the number of replayed records if the replay was truncated, the
      sentinel; as far as the verdict has got, and all of them unless the stream was cancelled. */
  lemma {:induction false} VerdictExact(q: Request, s: State, ls: seq<Label>, t: State)
    requires Init(q, s) && Runs(q, s, ls, t)
    ensures SubSequence(VerdictFrames(t.w.send.log), Verdict(q, t.outcome, |ReplayedRecords(t.w.send.log)|, Stage(t)))
    ensures !t.cancelled ==>
      VerdictFrames(t.w.send.log) == Verdict(q, t.outcome, |ReplayedRecords(t.w.send.log)|, Stage(t))
  {
    NoVerdictYet(s.w.send.log);
    RunFrames(q, s, ls, t);
    ReplayInOrder(q, s, ls, t);
  }

  // ----- Live delivery -----

  /** The broadcast of the record meets a full send queue. */
  predicate Refuses(s: State, l: Label, r: RecId) {
    l == Attempt(r) && s.w.send.Full()
  }

  ghost predicate Refused(q: Request, s: State, ls: seq<Label>, r: RecId)
    decreases |ls|
  {
    ls != [] && Enabled(q, s, ls[0]) && (Refuses(s, ls[0], r) || Refused(q, Apply(q, s, ls[0]), ls[1..], r))
  }

  predicate LiveFrame(log: seq<Frame>, r: RecId) {
    exists k :: 0 <= k < |log| && log[k].Live? && log[k].rec == r
  }

  /** What live delivery has done since `init`. */
  ghost predicate LiveInv(q: Request, init: State, s: State, r: RecId, refused: bool) {
    && Grows(init.w.log, s.w.log)
    && s.w.index == init.w.index + s.x.registered && s.x.registered <= q.live
    && (r in s.w.inflight && r !in init.w.inflight ==> InLog(s.w.log, r) && ChannelOf(s.w.log, r) in s.w.index)
    && (r in s.w.attempted && r !in init.w.attempted && r !in init.w.inflight ==>
        && InLog(s.w.log, r) && ChannelOf(s.w.log, r) in s.w.index && (refused || LiveFrame(s.w.send.log, r)))
  }

  lemma {:induction false} LiveFrameStays(log: seq<Frame>, extra: seq<Frame>, r: RecId)
    requires LiveFrame(log, r)
    ensures LiveFrame(log + extra, r)
  {
    var k :| 0 <= k < |log| && log[k].Live? && log[k].rec == r;
    assert (log + extra)[k] == log[k];
  }

  predicate HasNumber(f: Frame) {
    f.Live? || f.Replayed?
  }

  /** What a step adds to the queue. */
  lemma {:induction false} QueueGrows(q: Request, s: State, l: Label) returns (extra: seq<Frame>)
    requires Enabled(q, s, l)
    ensures Apply(q, s, l).w.send.log == s.w.send.log + extra && |extra| <= 1
    ensures extra != [] && HasNumber(extra[0]) ==> s.w.seqNo < extra[0].seqNo <= Apply(q, s, l).w.seqNo
    ensures s.w.seqNo <= Apply(q, s, l).w.seqNo
  {
    extra := if l.Report? && Needed(q, s.outcome, s.phase.stage)
      then [VerdictFrame(q, s.outcome, s.x.count, s.phase.stage)] else Added(s, l);
    assert s.w.send.log + [] == s.w.send.log;
  }

  lemma {:induction false} LiveAppend(q: Request, init: State, s: State, l: Label, r: RecId, refused: bool)
    requires LiveInv(q, init, s, r, refused) && Enabled(q, s, l) && l.Append?
    ensures LiveInv(q, init, Apply(q, s, l), r, refused)
  {
    var t := Apply(q, s, l);
    assert Grows(s.w.log, t.w.log);
    forall p: Part ensures LogOf(init.w.log, p) <= LogOf(t.w.log, p) {
      assert LogOf(init.w.log, p) <= LogOf(s.w.log, p) && LogOf(s.w.log, p) <= LogOf(t.w.log, p);
    }
    assert LogOf(s.w.log, r.part) <= LogOf(t.w.log, r.part);
  }

  lemma {:induction false} LiveAttempt(q: Request, init: State, s: State, x: RecId, r: RecId, refused: bool)
    requires LiveInv(q, init, s, r, refused) && Enabled(q, s, Attempt(x))
    ensures LiveInv(q, init, Apply(q, s, Attempt(x)), r, refused || Refuses(s, Attempt(x), r))
  {
    var t := Apply(q, s, Attempt(x));
    if LiveFrame(s.w.send.log, r) {
      LiveFrameStays(s.w.send.log, Added(s, Attempt(x)), r);
      assert s.w.send.log + [] == s.w.send.log;
    }
    if x == r && !s.w.send.Full() {
      assert t.w.send.log[|s.w.send.log|].rec == r;
    }
  }

  lemma {:induction false} LiveFind(q: Request, init: State, s: State, x: RecId, r: RecId, refused: bool)
    requires LiveInv(q, init, s, r, refused) && Enabled(q, s, Find(x))
    ensures LiveInv(q, init, Apply(q, s, Find(x)), r, refused)
  {
  }

  lemma {:induction false} LiveRegister(q: Request, init: State, s: State, ch: Channel, r: RecId, refused: bool)
    requires LiveInv(q, init, s, r, refused) && Enabled(q, s, Register(ch))
    ensures LiveInv(q, init, Apply(q, s, Register(ch)), r, refused)
  {
  }

  /** A step that only adds to the queue. */
  lemma {:induction false} LiveKept(q: Request, init: State, s: State, t: State, extra: seq<Frame>, r: RecId,
      refused: bool)
    requires LiveInv(q, init, s, r, refused) && t.w.send.log == s.w.send.log + extra
    requires t.w.log == s.w.log && t.w.index == s.w.index && t.x.registered == s.x.registered
    requires t.w.inflight == s.w.inflight && t.w.attempted == s.w.attempted
    ensures LiveInv(q, init, t, r, refused)
  {
    if LiveFrame(s.w.send.log, r) {
      LiveFrameStays(s.w.send.log, extra, r);
    }
  }

  lemma {:induction false} LiveOther(q: Request, init: State, s: State, l: Label, r: RecId, refused: bool)
    requires LiveInv(q, init, s, r, refused) && Enabled(q, s, l)
    requires !l.Append? && !l.Attempt? && !l.Find? && !l.Register?
    ensures LiveInv(q, init, Apply(q, s, l), r, refused)
  {
    var extra := QueueGrows(q, s, l);
    LiveKept(q, init, s, Apply(q, s, l), extra, r, refused);
  }

  lemma {:induction false} LiveStep(q: Request, init: State, s: State, l: Label, r: RecId, refused: bool)
    requires LiveInv(q, init, s, r, refused) && Enabled(q, s, l)
    ensures LiveInv(q, init, Apply(q, s, l), r, refused || Refuses(s, l, r))
  {
    match l
    case Append(_, _) => LiveAppend(q, init, s, l, r, refused);
    case Attempt(x) => LiveAttempt(q, init, s, x, r, refused);
    case Find(x) => LiveFind(q, init, s, x, r, refused);
    case Register(ch) => LiveRegister(q, init, s, ch, r, refused);
    case _ => LiveOther(q, init, s, l, r, refused);
  }

  lemma {:induction false} RunLive(q: Request, init: State, s: State, ls: seq<Label>, t: State, r: RecId, refused: bool)
    requires LiveInv(q, init, s, r, refused) && Runs(q, s, ls, t)
    ensures LiveInv(q, init, t, r, refused || Refused(q, s, ls, r))
    decreases |ls|
  {
    if ls == [] {
    } else {
      LiveStep(q, init, s, ls[0], r, refused);
      RunLive(q, init, Apply(q, s, ls[0]), ls[1..], t, r, refused || Refuses(s, ls[0], r));
    }
  }

  /** Over every run: a record offered to the client live since the start is on a channel under which the client
      is indexed, and is on its queue unless the offer met a full one; the client is indexed under its earlier
      channels and those registered, which are live ones. */
  lemma {:induction false} LiveDelivery(q: Request, s: State, ls: seq<Label>, t: State, r: RecId)
    requires Init(q, s) && Runs(q, s, ls, t)
    ensures t.w.index == s.w.index + t.x.registered && t.x.registered <= q.live
    ensures r in t.w.attempted && r !in s.w.attempted && r !in s.w.inflight ==>
      && InLog(t.w.log, r) && ChannelOf(t.w.log, r) in t.w.index
      && (LiveFrame(t.w.send.log, r) || Refused(q, s, ls, r))
  {
    RunLive(q, s, s, ls, t, r, false);
  }

  // ----- Sequence numbers -----

  /** The frames enqueued since `n` of them were there carry increasing numbers above `from`. */
  ghost predicate NumbersInv(log: seq<Frame>, n: nat, from: nat, last: nat) {
    && n <= |log| && from <= last
    && (forall i :: n <= i < |log| && HasNumber(log[i]) ==> from < log[i].seqNo <= last)
    && (forall i, j :: n <= i < j < |log| && HasNumber(log[i]) && HasNumber(log[j]) ==> log[i].seqNo < log[j].seqNo)
  }

  lemma {:induction false} NumberNext(log: seq<Frame>, n: nat, from: nat, last: nat, extra: seq<Frame>, next: nat)
    requires NumbersInv(log, n, from, last) && last <= next && |extra| <= 1
    requires extra != [] && HasNumber(extra[0]) ==> last < extra[0].seqNo <= next
    ensures NumbersInv(log + extra, n, from, next)
  {
  }

  lemma {:induction false} NumbersStep(q: Request, s: State, l: Label, n: nat, from: nat)
    requires NumbersInv(s.w.send.log, n, from, s.w.seqNo) && Enabled(q, s, l)
    ensures NumbersInv(Apply(q, s, l).w.send.log, n, from, Apply(q, s, l).w.seqNo)
  {
    var extra := QueueGrows(q, s, l);
    NumberNext(s.w.send.log, n, from, s.w.seqNo, extra, Apply(q, s, l).w.seqNo);
  }

  lemma {:induction false} RunNumbers(q: Request, s: State, ls: seq<Label>, t: State, n: nat, from: nat)
    requires NumbersInv(s.w.send.log, n, from, s.w.seqNo) && Runs(q, s, ls, t)
    ensures NumbersInv(t.w.send.log, n, from, t.w.seqNo)
    decreases |ls|
  {
    if ls == [] {
    } else {
      NumbersStep(q, s, ls[0], n, from);
      RunNumbers(q, Apply(q, s, ls[0]), ls[1..], t, n, from);
    }
  }

  /** Over every run the live and replayed frames enqueued carry fresh numbers that increase along the queue. */
  lemma {:induction false} FreshNumbers(q: Request, s: State, ls: seq<Label>, t: State, i: nat, j: nat)
    requires Runs(q, s, ls, t) && |s.w.send.log| <= i < j < |t.w.send.log|
    requires HasNumber(t.w.send.log[i]) && HasNumber(t.w.send.log[j])
    ensures s.w.seqNo < t.w.send.log[i].seqNo < t.w.send.log[j].seqNo <= t.w.seqNo
  {
    RunNumbers(q, s, ls, t, |s.w.send.log|, s.w.seqNo);
  }
}
