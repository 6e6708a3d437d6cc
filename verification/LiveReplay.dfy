/** Live gap replay on one client (ws/internal/server/handler_replay.go): at most one replay per channel, and a
    minimum interval between successful ones. The critical sections are one class; the handlers and delivery
    goroutines that run them are a step machine over a clock that never goes back. */
module LiveReplay {
  import opened Common

  /** The two maps guarded by the client's history lock. */
  datatype Guard = Guard(inProgress: set<Channel>, lastAt: map<Channel, int>)

  datatype Admission = AlreadyRunning | RateLimited | Admitted

  /** A running replay takes precedence over the rate limit. */
  function Admit(g: Guard, ch: Channel, now: int, interval: int): Admission {
    if ch in g.inProgress then AlreadyRunning
    else if ch in g.lastAt && now - g.lastAt[ch] < interval then RateLimited
    else Admitted
  }

  // The three critical sections on the guard.

  function Begun(g: Guard, ch: Channel): Guard {
    g.(inProgress := g.inProgress + {ch})
  }

  function Stamped(g: Guard, ch: Channel, now: int): Guard {
    g.(lastAt := g.lastAt[ch := now])
  }

  function Cleared(g: Guard, ch: Channel): Guard {
    g.(inProgress := g.inProgress - {ch})
  }

  class ReplayGuard {
    var inProgress: set<Channel>
    var lastAt: map<Channel, int>

    ghost function Value(): Guard
      reads this
    {
      Guard(inProgress, lastAt)
    }

    constructor ()
      ensures Value() == Guard({}, map[])
    {
      inProgress, lastAt := {}, map[];
    }

    method TryBegin(ch: Channel, now: int, interval: int) returns (result: Admission)
      modifies this
      ensures result == Admit(old(Value()), ch, now, interval)
      ensures Value() == if result == Admitted then Begun(old(Value()), ch) else old(Value())
    {
      if ch in inProgress {
        return AlreadyRunning;
      }
      if ch in lastAt && now - lastAt[ch] < interval {
        return RateLimited;
      }
      inProgress := inProgress + {ch};
      return Admitted;
    }

    method Stamp(ch: Channel, now: int)
      modifies this
      ensures Value() == Stamped(old(Value()), ch, now)
    {
      lastAt := lastAt[ch := now];
    }

    method Clear(ch: Channel)
      modifies this
      ensures Value() == Cleared(old(Value()), ch)
    {
      inProgress := inProgress - {ch};
    }
  }

  // ----- Requests in flight -----

  type Request = int

  /** A request from its admission to the clearing of its flag. */
  datatype Stage = Starting(ch: Channel) | Delivering(ch: Channel) | Ending(ch: Channel) | Over

  datatype Success = Success(ch: Channel, at: int)

  datatype State = State(guard: Guard, clock: int, requests: map<Request, Stage>, successes: seq<Success>)

  datatype Label =
    | Tick(d: nat) | Begin(r: Request, ch: Channel) | NoTopic(r: Request) | Launch(r: Request)
    | Abort(r: Request) | Succeed(r: Request) | Finish(r: Request)

  predicate Enabled(s: State, l: Label) {
    match l
    case Tick(_) => true
    case Begin(r, _) => r !in s.requests
    case NoTopic(r) => r in s.requests && s.requests[r].Starting?
    case Launch(r) => r in s.requests && s.requests[r].Starting?
    case Abort(r) => r in s.requests && s.requests[r].Delivering?
    case Succeed(r) => r in s.requests && s.requests[r].Delivering?
    case Finish(r) => r in s.requests && s.requests[r].Ending?
  }

  /** `Abort` stands for a backend error, an empty result, a timeout and a panic: none of them stamps. */
  function Apply(interval: int, s: State, l: Label): State
    requires Enabled(s, l)
  {
    match l
    case Tick(d) => s.(clock := s.clock + d)
    case Begin(r, ch) =>
      if Admit(s.guard, ch, s.clock, interval) == Admitted then
        s.(guard := Begun(s.guard, ch), requests := s.requests[r := Starting(ch)])
      else s.(requests := s.requests[r := Over])
    case NoTopic(r) => s.(requests := s.requests[r := Ending(s.requests[r].ch)])
    case Launch(r) => s.(requests := s.requests[r := Delivering(s.requests[r].ch)])
    case Abort(r) => s.(requests := s.requests[r := Ending(s.requests[r].ch)])
    case Succeed(r) =>
      var ch := s.requests[r].ch;
      s.(guard := Stamped(s.guard, ch, s.clock), requests := s.requests[r := Ending(ch)],
         successes := s.successes + [Success(ch, s.clock)])
    case Finish(r) =>
      s.(guard := Cleared(s.guard, s.requests[r].ch), requests := s.requests[r := Over])
  }

  ghost predicate Runs(interval: int, s: State, ls: seq<Label>, t: State)
    decreases |ls|
  {
    if ls == [] then s == t else Enabled(s, ls[0]) && Runs(interval, Apply(interval, s, ls[0]), ls[1..], t)
  }

  predicate Init(s: State) {
    s.guard == Guard({}, map[]) && s.requests == map[] && s.successes == []
  }

  predicate InFlight(s: State, r: Request, ch: Channel) {
    r in s.requests && !s.requests[r].Over? && s.requests[r].ch == ch
  }

  /** In flight and not past its stamp. */
  predicate Unstamped(s: State, r: Request) {
    r in s.requests && (s.requests[r].Starting? || s.requests[r].Delivering?)
  }

  /** The flag is up exactly while a replay of the channel is in flight, and then just one is. */
  ghost predicate Exclusive(s: State) {
    && (forall r, ch :: InFlight(s, r, ch) ==> ch in s.guard.inProgress)
    && (forall ch :: ch in s.guard.inProgress ==> exists r :: InFlight(s, r, ch))
    && (forall r, q, ch :: InFlight(s, r, ch) && InFlight(s, q, ch) ==> r == q)
  }

  predicate Apart(interval: int, successes: seq<Success>) {
    forall i, j :: 0 <= i < j < |successes| && successes[i].ch == successes[j].ch ==>
      successes[j].at - successes[i].at >= interval
  }

  /** The stamp is the time of the channel's latest success, and a replay that may still succeed started at
      least an interval after it. */
  ghost predicate Spaced(interval: int, s: State) {
    && Apart(interval, s.successes)
    && (forall i :: 0 <= i < |s.successes| ==>
          s.successes[i].ch in s.guard.lastAt && s.successes[i].at <= s.guard.lastAt[s.successes[i].ch])
    && (forall ch :: ch in s.guard.lastAt ==> s.guard.lastAt[ch] <= s.clock)
    && (forall r :: Unstamped(s, r) && s.requests[r].ch in s.guard.lastAt ==>
          s.clock - s.guard.lastAt[s.requests[r].ch] >= interval)
  }

  lemma {:induction false} FlightAfter(interval: int, s: State, l: Label, r: Request, ch: Channel)
    requires Enabled(s, l)
    ensures InFlight(Apply(interval, s, l), r, ch) <==>
      if l.Begin? && l.r == r then l.ch == ch && Admit(s.guard, ch, s.clock, interval) == Admitted
      else l != Finish(r) && InFlight(s, r, ch)
  {
  }

  lemma {:induction false} ExclusiveStep(interval: int, s: State, l: Label)
    requires Exclusive(s) && Enabled(s, l)
    ensures Exclusive(Apply(interval, s, l))
  {
    var t := Apply(interval, s, l);
    forall r, ch { FlightAfter(interval, s, l, r, ch); }
    assert l.Finish? ==> InFlight(s, l.r, s.requests[l.r].ch);
    forall ch | ch in t.guard.inProgress ensures exists r :: InFlight(t, r, ch) {
      if ch in s.guard.inProgress {
        var r :| InFlight(s, r, ch);
        assert InFlight(t, r, ch);
      } else {
        assert InFlight(t, l.r, ch);
      }
    }
  }

  lemma {:induction false} SpacedStep(interval: int, s: State, l: Label)
    requires Exclusive(s) && Spaced(interval, s) && Enabled(s, l)
    ensures Spaced(interval, Apply(interval, s, l))
  {
    if l.Succeed? {
      var t := Apply(interval, s, l);
      forall r | Unstamped(t, r) ensures t.requests[r].ch != s.requests[l.r].ch {
        assert InFlight(s, r, t.requests[r].ch) && InFlight(s, l.r, s.requests[l.r].ch);
      }
    }
  }

  lemma {:induction false} RunInv(interval: int, s: State, ls: seq<Label>, t: State)
    requires Exclusive(s) && Spaced(interval, s) && Runs(interval, s, ls, t)
    ensures Exclusive(t) && Spaced(interval, t)
    decreases |ls|
  {
    if ls == [] {
    } else {
      ExclusiveStep(interval, s, ls[0]);
      SpacedStep(interval, s, ls[0]);
      RunInv(interval, Apply(interval, s, ls[0]), ls[1..], t);
    }
  }

  /** In every run at most one replay per channel is in flight, its flag is up exactly that long, and any
      two successful replays of a channel finish at least the rate limit interval apart. */
  lemma {:induction false} ReplayDiscipline(interval: int, s: State, ls: seq<Label>, t: State)
    requires Init(s) && Runs(interval, s, ls, t)
    ensures forall ch :: ch in t.guard.inProgress <==> exists r :: InFlight(t, r, ch)
    ensures forall r, q, ch :: InFlight(t, r, ch) && InFlight(t, q, ch) ==> r == q
    ensures Apart(interval, t.successes)
    ensures (forall r :: r in t.requests ==> t.requests[r].Over?) ==> t.guard.inProgress == {}
  {
    RunInv(interval, s, ls, t);
  }

  /** A rejected request is told apart correctly: some replay of the channel is in flight, or one succeeded
      less than an interval ago. */
  lemma {:induction false} RejectionsHonest(interval: int, s: State, ls: seq<Label>, t: State, ch: Channel)
    requires Init(s) && Runs(interval, s, ls, t)
    ensures Admit(t.guard, ch, t.clock, interval) == AlreadyRunning <==> exists r :: InFlight(t, r, ch)
    ensures Admit(t.guard, ch, t.clock, interval) == RateLimited ==>
      exists i :: 0 <= i < |t.successes| && t.successes[i].ch == ch && t.clock - t.successes[i].at < interval
  {
    RunInv(interval, s, ls, t);
    StampsSourced(interval, s, ls, t);
  }

  /** Every stamp is the time of a success. */
  ghost predicate Sourced(s: State) {
    forall ch :: ch in s.guard.lastAt ==> Success(ch, s.guard.lastAt[ch]) in s.successes
  }

  lemma {:induction false} StampsSourced(interval: int, s: State, ls: seq<Label>, t: State)
    requires Sourced(s) && Runs(interval, s, ls, t)
    ensures Sourced(t)
    decreases |ls|
  {
    if ls == [] {
    } else {
      var next := Apply(interval, s, ls[0]);
      assert forall x :: x in s.successes ==> x in next.successes;
      assert Sourced(next);
      StampsSourced(interval, next, ls[1..], t);
    }
  }

  /** An admitted replay can be carried through: its success is recorded at its time and its flag comes down. For
      less than an interval the channel is then rate limited, and from then on admitted again. */
  lemma {:induction false} ReplayCompletes(interval: int, s: State, r: Request, ch: Channel, d: nat)
      returns (ls: seq<Label>, t: State)
    requires r !in s.requests && Admit(s.guard, ch, s.clock, interval) == Admitted
    ensures Runs(interval, s, ls, t) && t.clock == s.clock + d
    ensures t.successes == s.successes + [Success(ch, s.clock)] && ch !in t.guard.inProgress
    ensures Admit(t.guard, ch, t.clock, interval) == if d < interval then RateLimited else Admitted
  {
    ls := [Begin(r, ch), Launch(r), Succeed(r), Finish(r), Tick(d)];
    var s1 := Apply(interval, s, ls[0]);
    var s2 := Apply(interval, s1, ls[1]);
    var s3 := Apply(interval, s2, ls[2]);
    var s4 := Apply(interval, s3, ls[3]);
    t := Apply(interval, s4, ls[4]);
    assert Runs(interval, s4, ls[4..], t);
    assert Runs(interval, s3, ls[3..], t);
    assert Runs(interval, s2, ls[2..], t);
    assert Runs(interval, s1, ls[1..], t);
  }
}
