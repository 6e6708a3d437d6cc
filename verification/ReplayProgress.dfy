/** A reconnect never gets stuck (ws/internal/server: replay_shared.go, grpc_service.go, kafka/consumer.go): from every
    reachable state there is a continuation that ends with the sentinel, and unless something went wrong already it
    recovers all that the cap allows. */
module ReplayProgress {
  import opened Common
  import opened CursorAuthorization
  import opened ReconnectRecovery
  import opened ReplayOutcome

  /** A reachable state in which nothing has gone wrong: the cursors lie within the log, there is room for at least
      one frame, the time has not run out and every result serialized. */
  ghost predicate Calm(q: Request, s: State) {
    && Inv(q, s) && FilteredInv(q, s) && s.x.registered <= q.live
    && s.w.send.cap > 0 && !s.x.expired && !s.x.skipped
    && (forall p :: p in q.starts ==> 0 <= q.starts[p] <= |LogOf(s.w.log, p)|)
  }

  lemma {:induction false} CalmStep(q: Request, s: State, l: Label)
    requires Calm(q, s) && Enabled(q, s, l) && !l.Append? && !l.Expire? && l != Enqueue(false)
    ensures Calm(q, Apply(q, s, l))
  {
    InvStep(q, s, l);
    FilterStep(q, s, l);
  }

  /** One more step of a calm run. */
  lemma {:induction false} Then(q: Request, s: State, ls: seq<Label>, m: State, l: Label)
    requires Runs(q, s, ls, m) && Calm(q, m) && Enabled(q, m, l) && !l.Append? && !l.Expire? && l != Enqueue(false)
    ensures Runs(q, s, ls + [l], Apply(q, m, l)) && Calm(q, Apply(q, m, l))
  {
    CalmStep(q, m, l);
    RunsOne(q, m, l);
    RunsConcat(q, s, ls, m, [l], Apply(q, m, l));
  }

  lemma {:induction false} RegisterAll(q: Request, s: State, before: seq<Label>, m: State)
      returns (ls: seq<Label>, t: State)
    requires Runs(q, s, before, m) && Calm(q, m) && m.phase == Registering
    ensures Runs(q, s, ls, t) && Calm(q, t) && t.phase == Registering && t.x.registered == q.live
    decreases q.live - m.x.registered
  {
    var todo := q.live - m.x.registered;
    if todo == {} {
      NothingLeft(q.live, m.x.registered);
      ls, t := before, m;
    } else {
      var ch :| ch in todo;
      Then(q, s, before, m, Register(ch));
      ls, t := RegisterAll(q, s, before + [Register(ch)], DoRegister(m, ch));
    }
  }

  lemma {:induction false} CaptureAll(q: Request, s: State, before: seq<Label>, m: State)
      returns (ls: seq<Label>, t: State)
    requires Runs(q, s, before, m) && Calm(q, m) && m.phase == Capturing
    ensures Runs(q, s, ls, t) && Calm(q, t) && t.phase == Capturing && t.x.ends.Keys == q.starts.Keys
    decreases q.starts.Keys - m.x.ends.Keys
  {
    assert m.x.ends.Keys <= q.starts.Keys;
    var todo := q.starts.Keys - m.x.ends.Keys;
    if todo == {} {
      NothingLeft(q.starts.Keys, m.x.ends.Keys);
      ls, t := before, m;
    } else {
      var p :| p in todo;
      Then(q, s, before, m, Capture(p));
      ls, t := CaptureAll(q, s, before + [Capture(p)], DoCapture(q, m, p));
    }
  }

  /** What is left of the last fetch is processed. */
  lemma {:induction false} TakeAll(q: Request, s: State, before: seq<Label>, m: State)
      returns (ls: seq<Label>, t: State)
    requires Runs(q, s, before, m) && Calm(q, m) && m.phase == Fetching
    ensures Runs(q, s, ls, t) && Calm(q, t) && t.phase == Fetching && t.x.batch == []
    decreases |m.x.batch|
  {
    if m.x.batch == [] {
      ls, t := before, m;
    } else {
      Then(q, s, before, m, Take);
      ls, t := TakeAll(q, s, before + [Take], Apply(q, m, Take));
    }
  }

  /** How far the fetch is from the captured end. */
  function Left(x: Replay, p: Part): nat {
    if p in x.ends && p in x.pos && x.pos[p] < x.ends[p] then x.ends[p] - x.pos[p] else 0
  }

  lemma {:induction false} CanPoll(q: Request, m: State, p: Part) returns (r: RecId)
    requires Calm(q, m) && m.phase == Fetching && m.x.batch == [] && p in m.x.pending && |m.x.msgs| < q.maxMessages
    ensures r.part == p && p in m.x.pos && p in m.x.ends && m.x.pos[p] == r.offset < m.x.ends[p] && InLog(m.w.log, r)
    ensures Enabled(q, m, Poll([r])) && Apply(q, m, Poll([r])) == m.(x := m.x.(batch := [r]))
  {
    r := RecId(p, m.x.pos[p]);
    assert [r][1..] == [];
  }

  lemma {:induction false} TakeAdvances(q: Request, log: Log, x: Replay, r: RecId)
    requires x.batch == [r] && r.part in x.ends && InLog(log, r)
    requires r.part in x.pos && x.pos[r.part] == r.offset < x.ends[r.part]
    ensures var y := TakeOne(q, log, x); y.batch == [] && y.pending <= x.pending && Left(y, r.part) < Left(x, r.part)
  {
  }

  lemma {:induction false} TakePolled(q: Request, s: State, before: seq<Label>, m: State, r: RecId)
      returns (ls: seq<Label>, t: State)
    requires Runs(q, s, before, m) && Calm(q, m) && m.phase == Fetching && m.x.batch == [r] && InLog(m.w.log, r)
    requires r.part in m.x.ends && r.part in m.x.pos && m.x.pos[r.part] == r.offset < m.x.ends[r.part]
    ensures Runs(q, s, ls, t) && Calm(q, t) && t.phase == Fetching && t.x.batch == []
    ensures t.x.pending <= m.x.pending && Left(t.x, r.part) < Left(m.x, r.part)
  {
    TakeAdvances(q, m.w.log, m.x, r);
    Then(q, s, before, m, Take);
    ls, t := before + [Take], m.(x := TakeOne(q, m.w.log, m.x));
  }

  /** One record of a pending partition is fetched and processed. */
  lemma {:induction false} FetchOne(q: Request, s: State, before: seq<Label>, m: State, p: Part)
      returns (ls: seq<Label>, t: State)
    requires Runs(q, s, before, m) && Calm(q, m) && m.phase == Fetching && m.x.batch == []
    requires p in m.x.pending && |m.x.msgs| < q.maxMessages
    ensures Runs(q, s, ls, t) && Calm(q, t) && t.phase == Fetching && t.x.batch == []
    ensures t.x.pending <= m.x.pending && Left(t.x, p) < Left(m.x, p)
  {
    var r := CanPoll(q, m, p);
    Then(q, s, before, m, Poll([r]));
    ls, t := TakePolled(q, s, before + [Poll([r])], Apply(q, m, Poll([r])), r);
  }

  lemma {:induction false} FetchPartition(q: Request, s: State, before: seq<Label>, m: State, p: Part)
      returns (ls: seq<Label>, t: State)
    requires Runs(q, s, before, m) && Calm(q, m) && m.phase == Fetching && m.x.batch == []
    ensures Runs(q, s, ls, t) && Calm(q, t) && t.phase == Fetching && t.x.batch == []
    ensures t.x.pending <= m.x.pending && (p !in t.x.pending || |t.x.msgs| >= q.maxMessages)
    decreases Left(m.x, p)
  {
    if p !in m.x.pending || |m.x.msgs| >= q.maxMessages {
      ls, t := before, m;
    } else {
      ls, t := FetchOne(q, s, before, m, p);
      ls, t := FetchPartition(q, s, ls, t, p);
    }
  }

  lemma {:induction false} FetchAll(q: Request, s: State, before: seq<Label>, m: State)
      returns (ls: seq<Label>, t: State)
    requires Runs(q, s, before, m) && Calm(q, m) && m.phase == Fetching && m.x.batch == []
    ensures Runs(q, s, ls, t) && Calm(q, t) && t.phase == Fetching && Enabled(q, t, EndFetch)
    decreases m.x.pending
  {
    if m.x.pending == {} || |m.x.msgs| >= q.maxMessages {
      ls, t := before, m;
    } else {
      var p :| p in m.x.pending;
      ls, t := FetchPartition(q, s, before, m, p);
      if |t.x.msgs| < q.maxMessages {
        ls, t := FetchAll(q, s, ls, t);
      }
    }
  }

  /** The write pump makes room if there is none. */
  lemma {:induction false} MakeRoom(q: Request, s: State, before: seq<Label>, m: State)
      returns (ls: seq<Label>, t: State)
    requires Runs(q, s, before, m) && Calm(q, m)
    ensures Runs(q, s, ls, t) && Calm(q, t) && !t.w.send.Full()
    ensures t == m.(w := t.w) && t.w == m.w.(send := t.w.send) && t.w.send.log == m.w.send.log
  {
    ls, t := before, m;
    if m.w.send.Full() {
      Then(q, s, before, m, Drain);
      ls, t := before + [Drain], Apply(q, m, Drain);
    }
  }

  lemma {:induction false} SendAll(q: Request, s: State, before: seq<Label>, m: State)
      returns (ls: seq<Label>, t: State)
    requires Runs(q, s, before, m) && Calm(q, m) && m.phase == Sending
    ensures Runs(q, s, ls, t) && Calm(q, t) && Enabled(q, t, EndReplay)
    decreases |m.x.msgs| - m.x.sent
  {
    if m.x.sent == |m.x.msgs| {
      ls, t := before, m;
    } else {
      ls, t := MakeRoom(q, s, before, m);
      Then(q, s, ls, t, Enqueue(true));
      ls, t := SendAll(q, s, ls + [Enqueue(true)], Apply(q, t, Enqueue(true)));
    }
  }

  lemma {:induction false} ReportAll(q: Request, s: State, before: seq<Label>, m: State)
      returns (ls: seq<Label>, t: State)
    requires Runs(q, s, before, m) && Calm(q, m) && m.phase.Reporting? && m.phase.stage <= 3
    ensures Runs(q, s, ls, t) && t.phase == Reporting(3) && t.outcome == m.outcome && t.x.msgs == m.x.msgs
    decreases 3 - m.phase.stage
  {
    if m.phase.stage == 3 {
      ls, t := before, m;
    } else {
      ls, t := MakeRoom(q, s, before, m);
      Then(q, s, ls, t, Report);
      ls, t := ReportAll(q, s, ls + [Report], Apply(q, t, Report));
    }
  }

  lemma {:induction false} FromSending(q: Request, s: State, before: seq<Label>, m: State)
      returns (ls: seq<Label>, t: State)
    requires Runs(q, s, before, m) && Calm(q, m) && m.phase == Sending
    ensures Runs(q, s, ls, t) && t.phase == Reporting(3) && t.outcome == Finished(|t.x.msgs| >= q.maxMessages)
  {
    ls, t := SendAll(q, s, before, m);
    Then(q, s, ls, t, EndReplay);
    ls, t := ReportAll(q, s, ls + [EndReplay], Apply(q, t, EndReplay));
  }

  lemma {:induction false} FromFetching(q: Request, s: State, before: seq<Label>, m: State)
      returns (ls: seq<Label>, t: State)
    requires Runs(q, s, before, m) && Calm(q, m) && m.phase == Fetching
    ensures Runs(q, s, ls, t) && t.phase == Reporting(3) && t.outcome == Finished(|t.x.msgs| >= q.maxMessages)
  {
    ls, t := TakeAll(q, s, before, m);
    ls, t := FetchAll(q, s, ls, t);
    Then(q, s, ls, t, EndFetch);
    ls, t := FromSending(q, s, ls + [EndFetch], Apply(q, t, EndFetch));
  }

  lemma {:induction false} FromCapturing(q: Request, s: State, before: seq<Label>, m: State)
      returns (ls: seq<Label>, t: State)
    requires Runs(q, s, before, m) && Calm(q, m) && m.phase == Capturing
    ensures Runs(q, s, ls, t) && t.phase == Reporting(3) && t.outcome == Finished(|t.x.msgs| >= q.maxMessages)
  {
    ls, t := CaptureAll(q, s, before, m);
    Then(q, s, ls, t, StartFetch);
    ls, t := FromFetching(q, s, ls + [StartFetch], Apply(q, t, StartFetch));
  }

  /** Truncated exactly if the cap was hit; complete if there was nothing to replay. */
  predicate Recovers(q: Request, t: State) {
    t.outcome == Finished(|t.x.msgs| >= q.maxMessages) || (q.starts == map[] && t.outcome == Finished(false))
  }

  lemma {:induction false} FromRegistering(q: Request, s: State, m: State) returns (ls: seq<Label>, t: State)
    requires Runs(q, s, [], m) && Calm(q, m) && m.phase == Registering
    ensures Runs(q, s, ls, t) && t.phase == Reporting(3) && Recovers(q, t)
  {
    ls, t := RegisterAll(q, s, [], m);
    if q.starts == map[] {
      Then(q, s, ls, t, SkipReplay);
      ls, t := ReportAll(q, s, ls + [SkipReplay], t.(phase := Reporting(0), outcome := Finished(false)));
    } else {
      Then(q, s, ls, t, BeginReplay);
      ls, t := FromCapturing(q, s, ls + [BeginReplay], t.(phase := Capturing));
    }
  }

  lemma {:induction false} ReachesCalm(q: Request, init: State, before: seq<Label>, s: State)
    requires Init(q, init) && Runs(q, init, before, s) && s.w.send.cap > 0 && !s.x.expired && !s.x.skipped
    requires forall p :: p in q.starts ==> 0 <= q.starts[p] <= |LogOf(s.w.log, p)|
    ensures Calm(q, s)
  {
    InitInv(q, init);
    RunInv(q, init, before, s);
    RunFilter(q, init, before, s);
    RunLive(q, init, init, before, s, RecId(Part("", 0), 0), false);
  }

  /** From every reachable state in which the replay is undecided and nothing has gone wrong, the reconnect can
      finish its verdict, and then it counts as truncated exactly if the cap was hit. */
  lemma {:induction false} CanRecover(q: Request, init: State, before: seq<Label>, s: State)
      returns (ls: seq<Label>, t: State)
    requires Init(q, init) && Runs(q, init, before, s) && s.outcome == Undecided && s.w.send.cap > 0
    requires !s.x.expired && !s.x.skipped
    requires forall p :: p in q.starts ==> 0 <= q.starts[p] <= |LogOf(s.w.log, p)|
    ensures Runs(q, s, ls, t) && t.phase == Reporting(3) && Recovers(q, t)
  {
    ReachesCalm(q, init, before, s);
    assert Runs(q, s, [], s);
    match s.phase
    case Registering => ls, t := FromRegistering(q, s, s);
    case Capturing => ls, t := FromCapturing(q, s, [], s);
    case Fetching => ls, t := FromFetching(q, s, [], s);
    case Sending => ls, t := FromSending(q, s, [], s);
  }
}
