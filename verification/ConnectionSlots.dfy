/** The life of a connection on a shard, WebSocket and event stream alike: semaphore slot, pooled client
    struct, client table and counters (ws/internal/server: handlers_ws.go, grpc_service.go,
    client_lifecycle.go, connection.go). Each step is one operation on shared state. */
module ConnectionSlots {
  import opened Common

  type Handler = int

  /** A pooled client struct, by identity. */
  type Struct = int

  datatype Transport = WebSocket | EventStream

  /** Where a handler stands. `forget` marks the WebSocket teardown, which ends with cleaning the rate
      limiter. */
  datatype Stage =
    | Refused | Acquired(kind: Transport) | UpgradeFailed | Upgraded
    | Leased(kind: Transport) | Hooked | HookFailed | Tracked(kind: Transport) | Counted | Rejected
    | Running(kind: Transport) | Untracked(forget: bool) | Uncounted(forget: bool)
    | Returned(forget: bool) | Released | Done

  datatype State = State(
    max: nat,
    sem: int,
    current: int,
    clients: set<Struct>,
    made: set<Struct>,
    free: set<Struct>,
    idOf: map<Struct, int>,     // the id field of each struct
    nextId: nat,
    limiters: set<int>,         // ids with rate limiter state
    lease: map<Handler, Struct>,
    ids: map<Handler, int>,     // the id each handler assigned to its client
    stages: map<Handler, Stage>)

  datatype Label =
    | Acquire(h: Handler, kind: Transport) | Upgrade(h: Handler, ok: bool) | Lease(h: Handler, c: Struct)
    | Hook(h: Handler, ok: bool) | Track(h: Handler) | Count(h: Handler) | Limit(h: Handler)
    | Untrack(h: Handler) | Uncount(h: Handler) | Return(h: Handler) | Release(h: Handler) | Forget(h: Handler)
    | DropPooled(c: Struct)

  // What a handler holds at each stage.

  predicate HasSlot(st: Stage) {
    !st.Refused? && !st.Released? && !st.Done?
  }

  predicate HasLease(st: Stage) {
    || st.Leased? || st.Hooked? || st.HookFailed? || st.Tracked? || st.Counted? || st.Rejected? || st.Running?
    || st.Untracked? || st.Uncounted?
  }

  predicate IsTracked(st: Stage) {
    st.Tracked? || st.Counted? || st.Rejected? || st.Running?
  }

  predicate IsCounted(st: Stage) {
    st.Counted? || st.Rejected? || st.Running? || st.Untracked?
  }

  /** Between operations: refused, serving, or over. */
  predicate AtRest(st: Stage) {
    st.Refused? || st.Running? || st.Done?
  }

  predicate At(s: State, h: Handler) {
    h in s.stages && (HasLease(s.stages[h]) || s.stages[h].Released? ==> h in s.lease)
  }

  predicate Enabled(s: State, l: Label) {
    match l
    case Acquire(h, _) => h !in s.stages
    case Upgrade(h, _) => At(s, h) && s.stages[h] == Acquired(WebSocket)
    case Lease(h, c) =>
      At(s, h) && (s.stages[h].Upgraded? || s.stages[h] == Acquired(EventStream)) && (c in s.free || c !in s.made)
    case Hook(h, _) => At(s, h) && (s.stages[h] == Leased(WebSocket) || s.stages[h].Counted?)
    case Track(h) => At(s, h) && (s.stages[h].Hooked? || s.stages[h] == Leased(EventStream))
    case Count(h) => At(s, h) && s.stages[h].Tracked?
    case Limit(h) => At(s, h) && s.stages[h] == Running(WebSocket)
    case Untrack(h) => At(s, h) && (s.stages[h].Running? || s.stages[h].Rejected?)
    case Uncount(h) => At(s, h) && s.stages[h].Untracked?
    case Return(h) => At(s, h) && (s.stages[h].HookFailed? || s.stages[h].Uncounted?)
    case Release(h) => At(s, h) && (s.stages[h].UpgradeFailed? || s.stages[h].Returned?) && s.sem > 0
    case Forget(h) => At(s, h) && s.stages[h].Released?
    case DropPooled(c) => c in s.free
  }

  function Move(s: State, h: Handler, st: Stage): State {
    s.(stages := s.stages[h := st])
  }

  function IdField(s: State, c: Struct): int {
    if c in s.idOf then s.idOf[c] else 0
  }

  /** Take a struct from the pool, or a new one, and give it the next client id. */
  function DoLease(s: State, h: Handler, c: Struct): State
    requires Enabled(s, Lease(h, c))
  {
    Move(s, h, Leased(if s.stages[h].Upgraded? then WebSocket else EventStream)).(
      made := s.made + {c}, free := s.free - {c}, nextId := s.nextId + 1,
      idOf := s.idOf[c := s.nextId + 1], ids := s.ids[h := s.nextId + 1], lease := s.lease[h := c])
  }

  /** Clear the struct's id and give it back to the pool. */
  function DoReturn(s: State, h: Handler): State
    requires Enabled(s, Return(h))
  {
    Move(s, h, Returned(s.stages[h].Uncounted? && s.stages[h].forget)).(
      free := s.free + {s.lease[h]}, idOf := s.idOf[s.lease[h] := 0])
  }

  function Apply(s: State, l: Label): State
    requires Enabled(s, l)
  {
    match l
    case Acquire(h, kind) =>
      if s.sem < s.max then Move(s, h, Acquired(kind)).(sem := s.sem + 1) else Move(s, h, Refused)
    case Upgrade(h, ok) => Move(s, h, if ok then Upgraded else UpgradeFailed)
    case Lease(h, c) => DoLease(s, h, c)
    case Hook(h, ok) =>
      if s.stages[h].Counted? then Move(s, h, if ok then Running(EventStream) else Rejected)
      else Move(s, h, if ok then Hooked else HookFailed)
    case Track(h) =>
      Move(s, h, Tracked(if s.stages[h].Hooked? then WebSocket else EventStream)).(clients := s.clients + {s.lease[h]})
    case Count(h) =>
      Move(s, h, if s.stages[h].kind == WebSocket then Running(WebSocket) else Counted).(current := s.current + 1)
    case Limit(h) => s.(limiters := s.limiters + {IdField(s, s.lease[h])})
    case Untrack(h) =>
      Move(s, h, Untracked(s.stages[h] == Running(WebSocket))).(clients := s.clients - {s.lease[h]})
    case Uncount(h) =>
      Move(s, h, Uncounted(s.stages[h].forget)).(current := s.current - 1)
    case Return(h) => DoReturn(s, h)
    case Release(h) =>
      Move(s, h, if s.stages[h].Returned? && s.stages[h].forget then Released else Done).(sem := s.sem - 1)
    case Forget(h) => Move(s, h, Done).(limiters := s.limiters - {IdField(s, s.lease[h])})
    case DropPooled(c) => s.(free := s.free - {c})
  }

  predicate Init(s: State) {
    && s.sem == 0 && s.current == 0 && s.clients == {} && s.made == {} && s.free == {}
    && s.idOf == map[] && s.nextId == 0 && s.limiters == {} && s.lease == map[] && s.ids == map[] && s.stages == map[]
  }

  ghost predicate Runs(s: State, ls: seq<Label>, t: State)
    decreases |ls|
  {
    if ls == [] then s == t else Enabled(s, ls[0]) && Runs(Apply(s, ls[0]), ls[1..], t)
  }

  // ----- Counters -----

  predicate CountInv(s: State) {
    && s.sem == |Where(s.stages, HasSlot)| <= s.max
    && s.current == |Where(s.stages, IsCounted)|
  }

  lemma {:induction false} StageMoves(s: State, l: Label)
    requires Enabled(s, l) && !l.DropPooled?
    ensures l.h in Apply(s, l).stages && Apply(s, l).stages == s.stages[l.h := Apply(s, l).stages[l.h]]
    ensures Apply(s, l).max == s.max
  {
  }

  /** A step moves the semaphore by what the moving handler gains or gives up, and never past the maximum. */
  lemma {:induction false} SlotDelta(s: State, l: Label)
    requires Enabled(s, l) && !l.DropPooled?
    ensures var t := Apply(s, l);
      && l.h in t.stages
      && t.sem - s.sem == One(HasSlot(t.stages[l.h])) - One(l.h in s.stages && HasSlot(s.stages[l.h]))
      && (t.sem > s.sem ==> t.sem <= s.max)
  {
  }

  /** Likewise for the connection counter. */
  lemma {:induction false} CurrentDelta(s: State, l: Label)
    requires Enabled(s, l) && !l.DropPooled?
    ensures var t := Apply(s, l);
      && l.h in t.stages
      && t.current - s.current == One(IsCounted(t.stages[l.h])) - One(l.h in s.stages && IsCounted(s.stages[l.h]))
  {
  }

  lemma {:induction false} CountStep(s: State, l: Label)
    requires CountInv(s) && Enabled(s, l)
    ensures CountInv(Apply(s, l))
  {
    if !l.DropPooled? {
      StageMoves(s, l);
      SlotDelta(s, l);
      CurrentDelta(s, l);
      WhereUpdate(s.stages, HasSlot, l.h, Apply(s, l).stages[l.h]);
      WhereUpdate(s.stages, IsCounted, l.h, Apply(s, l).stages[l.h]);
    }
  }

  // ----- Leases -----

  predicate Holds(s: State, h: Handler, c: Struct) {
    h in s.stages && HasLease(s.stages[h]) && h in s.lease && s.lease[h] == c
  }

  predicate NeedsLease(st: Stage) {
    HasLease(st) || st.Returned? || st.Released?
  }

  /** A client struct is with at most one handler, or in the pool, or dropped. */
  ghost predicate LeaseInv(s: State) {
    && (forall h :: h in s.stages && NeedsLease(s.stages[h]) ==> h in s.lease)
    && (forall h, c :: Holds(s, h, c) ==> c in s.made && c !in s.free)
    && (forall h, g, c :: Holds(s, h, c) && Holds(s, g, c) ==> h == g)
    && s.free <= s.made
  }

  /** A handler's struct carries the id the handler gave it, ids are unique, and any other struct carries
      zero. */
  ghost predicate IdInv(s: State) {
    && (forall h :: h in s.ids ==> 1 <= s.ids[h] <= s.nextId)
    && (forall h, g :: h in s.ids && g in s.ids && s.ids[h] == s.ids[g] ==> h == g)
    && (forall h, c :: Holds(s, h, c) ==> h in s.ids && IdField(s, c) == s.ids[h])
    && (forall c :: IdField(s, c) != 0 ==> exists h :: Holds(s, h, c))
  }

  predicate Quiet(l: Label) {
    !l.Lease? && !l.Return? && !l.DropPooled?
  }

  /** Nothing about who holds which struct has changed. */
  ghost predicate SameLeases(s: State, t: State) {
    && t.made == s.made && t.free == s.free && t.idOf == s.idOf && t.nextId == s.nextId && t.ids == s.ids
    && (forall h, c :: Holds(t, h, c) <==> Holds(s, h, c))
    && (forall h :: h in t.stages && NeedsLease(t.stages[h]) ==> h in t.lease)
  }

  predicate SamePool(s: State, t: State) {
    && t.made == s.made && t.free == s.free && t.idOf == s.idOf && t.nextId == s.nextId && t.ids == s.ids
    && t.lease == s.lease
  }

  /** The other steps leave the pool alone. */
  lemma {:induction false} QuietPool(s: State, l: Label)
    requires Enabled(s, l) && Quiet(l)
    ensures SamePool(s, Apply(s, l))
  {
  }

  /** The handler that moves keeps its lease or lack of one. */
  lemma {:induction false} QuietMoves(s: State, l: Label)
    requires Enabled(s, l) && Quiet(l) && (l.h in s.stages && NeedsLease(s.stages[l.h]) ==> l.h in s.lease)
    ensures l.h in Apply(s, l).stages
    ensures HasLease(Apply(s, l).stages[l.h]) <==> l.h in s.stages && HasLease(s.stages[l.h])
    ensures NeedsLease(Apply(s, l).stages[l.h]) ==> l.h in s.lease
  {
  }

  lemma {:induction false} QuietKept(s: State, t: State, g: Handler)
    requires LeaseInv(s) && SamePool(s, t) && g in t.stages && t.stages == s.stages[g := t.stages[g]]
    requires HasLease(t.stages[g]) <==> g in s.stages && HasLease(s.stages[g])
    requires NeedsLease(t.stages[g]) ==> g in s.lease
    ensures SameLeases(s, t)
  {
    forall h, c ensures Holds(t, h, c) <==> Holds(s, h, c) {
      assert h != g ==> (h in t.stages <==> h in s.stages);
    }
  }

  lemma {:induction false} QuietStep(s: State, l: Label)
    requires LeaseInv(s) && Enabled(s, l) && Quiet(l)
    ensures SameLeases(s, Apply(s, l))
  {
    StageMoves(s, l);
    QuietPool(s, l);
    QuietMoves(s, l);
    QuietKept(s, Apply(s, l), l.h);
  }

  lemma {:induction false} SameLeasesKeep(s: State, t: State)
    requires LeaseInv(s) && IdInv(s) && SameLeases(s, t)
    ensures LeaseInv(t) && IdInv(t)
  {
    forall c | IdField(t, c) != 0 ensures exists h :: Holds(t, h, c) {
      assert IdField(s, c) != 0;
      var h :| Holds(s, h, c);
      assert Holds(t, h, c);
    }
  }

  lemma {:induction false} LeaseHolds(s: State, h: Handler, c: Struct, g: Handler, d: Struct)
    requires LeaseInv(s) && Enabled(s, Lease(h, c))
    ensures Holds(DoLease(s, h, c), g, d) <==> (if g == h then d == c else Holds(s, g, d))
    ensures Holds(s, g, d) ==> g != h && d != c
  {
  }

  lemma {:induction false} LeaseStep(s: State, h: Handler, c: Struct)
    requires LeaseInv(s) && IdInv(s) && Enabled(s, Lease(h, c))
    ensures LeaseInv(DoLease(s, h, c)) && IdInv(DoLease(s, h, c))
  {
    var t := DoLease(s, h, c);
    forall g, d { LeaseHolds(s, h, c, g, d); }
    forall d | IdField(t, d) != 0 ensures exists g :: Holds(t, g, d) {
      if d == c {
        assert Holds(t, h, c);
      } else {
        assert IdField(s, d) != 0;
        var g :| Holds(s, g, d);
        assert Holds(t, g, d);
      }
    }
  }

  lemma {:induction false} ReturnHolds(s: State, h: Handler, g: Handler, d: Struct)
    requires LeaseInv(s) && Enabled(s, Return(h))
    ensures Holds(s, h, s.lease[h])
    ensures Holds(DoReturn(s, h), g, d) <==> g != h && Holds(s, g, d)
    ensures g != h && Holds(s, g, d) ==> d != s.lease[h]
  {
    assert Holds(s, h, s.lease[h]);
  }

  lemma {:induction false} ReturnStep(s: State, h: Handler)
    requires LeaseInv(s) && IdInv(s) && Enabled(s, Return(h))
    ensures LeaseInv(DoReturn(s, h)) && IdInv(DoReturn(s, h))
  {
    var t := DoReturn(s, h);
    forall g, d { ReturnHolds(s, h, g, d); }
    forall d | IdField(t, d) != 0 ensures exists g :: Holds(t, g, d) {
      assert d != s.lease[h] && IdField(s, d) != 0;
      var g :| Holds(s, g, d);
      assert Holds(t, g, d);
    }
  }

  lemma {:induction false} PoolStep(s: State, l: Label)
    requires LeaseInv(s) && IdInv(s) && Enabled(s, l)
    ensures LeaseInv(Apply(s, l)) && IdInv(Apply(s, l))
  {
    if Quiet(l) {
      QuietStep(s, l);
      SameLeasesKeep(s, Apply(s, l));
    } else {
      match l
      case Lease(h, c) => LeaseStep(s, h, c);
      case Return(h) => ReturnStep(s, h);
      case DropPooled(c) => DropStep(s, c);
    }
  }

  lemma {:induction false} DropStep(s: State, c: Struct)
    requires LeaseInv(s) && IdInv(s)
    ensures LeaseInv(s.(free := s.free - {c})) && IdInv(s.(free := s.free - {c}))
  {
    var t := s.(free := s.free - {c});
    assert forall h, d :: Holds(t, h, d) <==> Holds(s, h, d);
    forall d | IdField(t, d) != 0 ensures exists h :: Holds(t, h, d) {
      assert IdField(s, d) != 0;
      var h :| Holds(s, h, d);
      assert Holds(t, h, d);
    }
  }

  // ----- The client table -----

  predicate HoldsTracked(s: State, h: Handler, c: Struct) {
    Holds(s, h, c) && IsTracked(s.stages[h])
  }

  /** The client table holds exactly the structs of the tracked handlers. */
  ghost predicate TableInv(s: State) {
    && (forall h, c :: HoldsTracked(s, h, c) ==> c in s.clients)
    && (forall c :: c in s.clients ==> exists h :: HoldsTracked(s, h, c))
  }

  lemma {:induction false} TrackedAfter(s: State, l: Label, h: Handler, c: Struct)
    requires LeaseInv(s) && Enabled(s, l)
    ensures HoldsTracked(Apply(s, l), h, c) <==>
      if l == Track(h) then Holds(s, h, c) else l != Untrack(h) && HoldsTracked(s, h, c)
  {
  }

  lemma {:induction false} ClientsAfter(s: State, l: Label)
    requires LeaseInv(s) && Enabled(s, l)
    ensures l.Track? ==> Holds(s, l.h, s.lease[l.h]) && Apply(s, l).clients == s.clients + {s.lease[l.h]}
    ensures l.Untrack? ==> Holds(s, l.h, s.lease[l.h]) && Apply(s, l).clients == s.clients - {s.lease[l.h]}
    ensures !l.Track? && !l.Untrack? ==> Apply(s, l).clients == s.clients
  {
  }

  lemma {:induction false} TableKept(s: State, l: Label, t: State)
    requires LeaseInv(s) && TableInv(s)
    requires forall h, c :: HoldsTracked(t, h, c) <==>
      if l == Track(h) then Holds(s, h, c) else l != Untrack(h) && HoldsTracked(s, h, c)
    requires l.Track? ==> l.h in s.lease && Holds(s, l.h, s.lease[l.h]) && t.clients == s.clients + {s.lease[l.h]}
    requires l.Untrack? ==> l.h in s.lease && Holds(s, l.h, s.lease[l.h]) && t.clients == s.clients - {s.lease[l.h]}
    requires !l.Track? && !l.Untrack? ==> t.clients == s.clients
    ensures TableInv(t)
  {
    forall c | c in t.clients ensures exists h :: HoldsTracked(t, h, c) {
      if c in s.clients {
        var h :| HoldsTracked(s, h, c);
        assert HoldsTracked(t, h, c);
      } else {
        assert HoldsTracked(t, l.h, c);
      }
    }
  }

  lemma {:induction false} TableStep(s: State, l: Label)
    requires LeaseInv(s) && TableInv(s) && Enabled(s, l)
    ensures TableInv(Apply(s, l))
  {
    forall h, c ensures HoldsTracked(Apply(s, l), h, c) <==>
      if l == Track(h) then Holds(s, h, c) else l != Untrack(h) && HoldsTracked(s, h, c)
    {
      TrackedAfter(s, l, h, c);
    }
    ClientsAfter(s, l);
    TableKept(s, l, Apply(s, l));
  }

  ghost predicate Inv(s: State) {
    CountInv(s) && LeaseInv(s) && TableInv(s) && IdInv(s)
  }

  lemma {:induction false} RunInv(s: State, ls: seq<Label>, t: State)
    requires Inv(s) && Runs(s, ls, t)
    ensures Inv(t)
    decreases |ls|
  {
    if ls == [] {
    } else {
      CountStep(s, ls[0]);
      PoolStep(s, ls[0]);
      TableStep(s, ls[0]);
      RunInv(Apply(s, ls[0]), ls[1..], t);
    }
  }

  lemma {:induction false} TableSize(s: State)
    requires LeaseInv(s) && TableInv(s)
    ensures |s.clients| == |Where(s.stages, IsTracked)|
  {
    var keys := Where(s.stages, IsTracked);
    forall h | h in keys ensures h in s.lease && HoldsTracked(s, h, s.lease[h]) {
      assert HasLease(s.stages[h]);
    }
    var image := Image(keys, s.lease);
    forall c | c in s.clients ensures c in image {
      var h :| HoldsTracked(s, h, c);
      assert h in keys;
    }
    assert s.clients == image;
    ImageSize(keys, s.lease);
  }

  lemma {:induction false} SubsetSize<T>(a: set<T>, b: set<T>)
    requires a <= b
    ensures |a| <= |b|
  {
    assert b == a + (b - a);
  }

  /** Over every run: at most `max` slots are taken, the client table never outgrows the slots taken, a
      handler that comes to release its slot is never blocked, and between operations slots, table and
      connection counter agree. */
  lemma {:induction false} ConnectionConservation(s: State, ls: seq<Label>, t: State)
    requires Init(s) && Runs(s, ls, t)
    ensures 0 <= |t.clients| <= t.sem <= t.max && 0 <= t.current <= t.sem
    ensures t.sem == |Where(t.stages, HasSlot)|
    ensures forall h :: h in t.stages && (t.stages[h].UpgradeFailed? || t.stages[h].Returned?) ==> t.sem > 0
    ensures (forall h :: h in t.stages ==> AtRest(t.stages[h])) ==> t.sem == t.current == |t.clients|
  {
    RunInv(s, ls, t);
    TableSize(t);
    SubsetSize(Where(t.stages, IsTracked), Where(t.stages, HasSlot));
    SubsetSize(Where(t.stages, IsCounted), Where(t.stages, HasSlot));
    forall h | h in t.stages && (t.stages[h].UpgradeFailed? || t.stages[h].Returned?) ensures t.sem > 0 {
      assert h in Where(t.stages, HasSlot);
    }
    if forall h :: h in t.stages ==> AtRest(t.stages[h]) {
      assert Where(t.stages, IsTracked) == Where(t.stages, HasSlot);
      assert Where(t.stages, IsCounted) == Where(t.stages, HasSlot);
    }
  }

  // ----- Why a handler is where it is -----

  /** The semaphore is full when the handler asks for a slot. */
  predicate TurnsAway(s: State, l: Label, h: Handler) {
    l.Acquire? && l.h == h && s.sem >= s.max
  }

  ghost predicate TurnedAway(s: State, ls: seq<Label>, h: Handler)
    decreases |ls|
  {
    ls != [] && Enabled(s, ls[0]) && (TurnsAway(s, ls[0], h) || TurnedAway(Apply(s, ls[0]), ls[1..], h))
  }

  /** The stages of a handler past its tenant hook. */
  predicate IsHooked(st: Stage) {
    st.Hooked? || st == Tracked(WebSocket) || st.Running? || IsForgetting(st)
  }

  /** The teardown that ends with cleaning the rate limiter. */
  predicate IsForgetting(st: Stage) {
    st == Untracked(true) || st == Uncounted(true) || st == Returned(true) || st.Released?
  }

  /** The stages only a WebSocket handler reaches. */
  predicate IsUpgraded(st: Stage) {
    || st.Upgraded? || st == Leased(WebSocket) || st.Hooked? || st.HookFailed? || st == Tracked(WebSocket)
    || st == Running(WebSocket) || IsForgetting(st)
  }

  /** What the labels `past` must hold for a handler to be at the stage. */
  predicate HookCaused(st: Stage, h: Handler, past: seq<Label>) {
    (IsHooked(st) ==> Hook(h, true) in past) && (st.HookFailed? || st.Rejected? ==> Hook(h, false) in past)
  }

  predicate UpgradeCaused(st: Stage, h: Handler, past: seq<Label>) {
    (IsUpgraded(st) ==> Upgrade(h, true) in past) && (st.UpgradeFailed? ==> Upgrade(h, false) in past)
  }

  ghost predicate CauseInv(s: State, h: Handler, past: seq<Label>, turnedAway: bool) {
    && (h in s.stages && s.stages[h].Refused? <==> turnedAway)
    && (h in s.stages ==> HookCaused(s.stages[h], h, past) && UpgradeCaused(s.stages[h], h, past))
  }

  lemma {:induction false} StillCaused(st: Stage, h: Handler, past: seq<Label>, l: Label)
    requires HookCaused(st, h, past) && UpgradeCaused(st, h, past)
    ensures HookCaused(st, h, past + [l]) && UpgradeCaused(st, h, past + [l])
  {
  }

  lemma {:induction false} MoveHook(s: State, l: Label, past: seq<Label>)
    requires Enabled(s, l) && !l.DropPooled? && l in past && (l.h in s.stages ==> HookCaused(s.stages[l.h], l.h, past))
    ensures l.h in Apply(s, l).stages && HookCaused(Apply(s, l).stages[l.h], l.h, past)
  {
  }

  lemma {:induction false} MoveUpgrade(s: State, l: Label, past: seq<Label>)
    requires Enabled(s, l) && !l.DropPooled? && l in past && (l.h in s.stages ==> UpgradeCaused(s.stages[l.h], l.h, past))
    ensures l.h in Apply(s, l).stages && UpgradeCaused(Apply(s, l).stages[l.h], l.h, past)
  {
  }

  lemma {:induction false} RefusedStep(s: State, l: Label)
    requires Enabled(s, l) && !l.DropPooled?
    ensures l.h in Apply(s, l).stages
    ensures Apply(s, l).stages[l.h].Refused? <==> TurnsAway(s, l, l.h) || (l.h in s.stages && s.stages[l.h].Refused?)
  {
  }

  /** Only the handler that moves gets another stage. */
  lemma {:induction false} CauseMoves(s: State, t: State, l: Label, h: Handler, past: seq<Label>, turnedAway: bool)
    requires CauseInv(s, h, past, turnedAway) && !l.DropPooled? && l.h in t.stages
    requires t.stages == s.stages[l.h := t.stages[l.h]]
    requires t.stages[l.h].Refused? <==> TurnsAway(s, l, l.h) || (l.h in s.stages && s.stages[l.h].Refused?)
    requires l.h == h ==> HookCaused(t.stages[h], h, past + [l]) && UpgradeCaused(t.stages[h], h, past + [l])
    ensures CauseInv(t, h, past + [l], turnedAway || TurnsAway(s, l, h))
  {
    if h in s.stages {
      StillCaused(s.stages[h], h, past, l);
    }
  }

  lemma {:induction false} CauseStep(s: State, l: Label, h: Handler, past: seq<Label>, turnedAway: bool)
    requires CauseInv(s, h, past, turnedAway) && Enabled(s, l)
    ensures CauseInv(Apply(s, l), h, past + [l], turnedAway || TurnsAway(s, l, h))
  {
    if h in s.stages {
      StillCaused(s.stages[h], h, past, l);
    }
    if !l.DropPooled? {
      assert (past + [l])[|past|] == l;
      StageMoves(s, l);
      RefusedStep(s, l);
      if l.h == h {
        MoveHook(s, l, past + [l]);
        MoveUpgrade(s, l, past + [l]);
      }
      CauseMoves(s, Apply(s, l), l, h, past, turnedAway);
    }
  }

  lemma {:induction false} RunCause(s: State, ls: seq<Label>, t: State, h: Handler, past: seq<Label>, turnedAway: bool)
    requires CauseInv(s, h, past, turnedAway) && Runs(s, ls, t)
    ensures CauseInv(t, h, past + ls, turnedAway || TurnedAway(s, ls, h))
    decreases |ls|
  {
    if ls == [] {
      assert past + ls == past;
    } else {
      CauseStep(s, ls[0], h, past, turnedAway);
      RunCause(Apply(s, ls[0]), ls[1..], t, h, past + [ls[0]], turnedAway || TurnsAway(s, ls[0], h));
      assert past + [ls[0]] + ls[1..] == past + ls;
    }
  }

  /** Over every run: a handler is refused exactly if all slots were taken when it asked; it serves only after its
      tenant hook succeeded and is turned back by the hook only after that failed; a WebSocket handler goes on only
      after its upgrade succeeded, and only such a handler cleans the rate limiter. */
  lemma {:induction false} StagesHaveCauses(s: State, ls: seq<Label>, t: State, h: Handler)
    requires Init(s) && Runs(s, ls, t)
    ensures h in t.stages && t.stages[h].Refused? <==> TurnedAway(s, ls, h)
    ensures h in t.stages && t.stages[h].Running? ==> Hook(h, true) in ls
    ensures h in t.stages && (t.stages[h].HookFailed? || t.stages[h].Rejected?) ==> Hook(h, false) in ls
    ensures h in t.stages && (t.stages[h] == Leased(WebSocket) || t.stages[h] == Running(WebSocket)) ==>
      Upgrade(h, true) in ls
    ensures Enabled(t, Forget(h)) ==> Upgrade(h, true) in ls && Hook(h, true) in ls
    ensures h in t.stages && t.stages[h].UpgradeFailed? ==> Upgrade(h, false) in ls
  {
    RunCause(s, ls, t, h, [], false);
    assert [] + ls == ls;
  }

  // ----- The rate limiter -----

  /** The handler has given its client struct back. */
  predicate GaveBack(s: State, h: Handler) {
    h in s.stages && h in s.ids && (s.stages[h].Returned? || s.stages[h].Released? || s.stages[h].Done?)
  }

  lemma {:induction false} LimiterStep(s: State, l: Label, h: Handler)
    requires LeaseInv(s) && IdInv(s) && Enabled(s, l) && GaveBack(s, h)
    ensures GaveBack(Apply(s, l), h) && Apply(s, l).ids[h] == s.ids[h]
    ensures s.ids[h] in Apply(s, l).limiters <==> s.ids[h] in s.limiters
  {
    if l.Forget? || l.Limit? {
      var c := s.lease[l.h];
      if IdField(s, c) != 0 {
        var g :| Holds(s, g, c);
        assert s.ids[g] != s.ids[h];
      }
    }
  }

  lemma {:induction false} LimiterRun(s: State, ls: seq<Label>, t: State, h: Handler)
    requires Inv(s) && Runs(s, ls, t) && GaveBack(s, h)
    ensures h in t.ids && t.ids[h] == s.ids[h]
    ensures s.ids[h] in t.limiters <==> s.ids[h] in s.limiters
    decreases |ls|
  {
    if ls == [] {
    } else {
      LimiterStep(s, ls[0], h);
      RunInv(s, ls[..1], Apply(s, ls[0]));
      LimiterRun(Apply(s, ls[0]), ls[1..], t, h);
    }
  }

  /** The rate limiter entry of a closed connection is never cleaned: by then the struct carries no id, or
      the id of the next connection it serves. The entry exists for good exactly when it existed when the
      struct went back to the pool. */
  lemma {:induction false} LimiterStateStays(init: State, before: seq<Label>, s: State, after: seq<Label>,
      t: State, h: Handler)
    requires Init(init) && Runs(init, before, s) && Runs(s, after, t) && GaveBack(s, h)
    ensures h in t.ids && t.ids[h] == s.ids[h]
    ensures s.ids[h] in t.limiters <==> s.ids[h] in s.limiters
  {
    assert Inv(init);
    RunInv(init, before, s);
    LimiterRun(s, after, t, h);
  }

  /** The entry of a connection being served survives a step exactly unless the step is the late cleanup of an
      earlier connection on the same struct. */
  lemma {:induction false} ServedEntrySurvivesIff(init: State, before: seq<Label>, s: State, l: Label, g: Handler)
    requires Init(init) && Runs(init, before, s) && Enabled(s, l)
    requires g in s.stages && HasLease(s.stages[g]) && g in s.lease && g in s.ids && s.ids[g] in s.limiters
    ensures s.ids[g] in Apply(s, l).limiters <==> !(l.Forget? && s.lease[l.h] == s.lease[g])
  {
    assert Inv(init);
    RunInv(init, before, s);
    assert Holds(s, g, s.lease[g]);
    if l.Forget? {
      var c := s.lease[l.h];
      if c != s.lease[g] && IdField(s, c) != 0 {
        var k :| Holds(s, k, c);
        assert s.ids[k] != s.ids[g];
      }
    }
  }

  lemma {:induction false} RunsExtend(s: State, ls: seq<Label>, m: State, l: Label)
    requires Runs(s, ls, m) && Enabled(m, l)
    ensures Runs(s, ls + [l], Apply(m, l))
    decreases |ls|
  {
    if ls == [] {
      assert ls + [l] == [l] && [l][1..] == [];
      assert Runs(Apply(m, l), [], Apply(m, l));
    } else {
      assert (ls + [l])[0] == ls[0] && (ls + [l])[1..] == ls[1..] + [l];
      RunsExtend(Apply(s, ls[0]), ls[1..], m, l);
    }
  }

  /** A WebSocket handler holds the struct `c` under the next client id. */
  function Leasing(m: State, h: Handler, c: Struct): State {
    m.(sem := m.sem + 1, made := m.made + {c}, free := m.free - {c}, nextId := m.nextId + 1,
       idOf := m.idOf[c := m.nextId + 1], ids := m.ids[h := m.nextId + 1], lease := m.lease[h := c],
       stages := m.stages[h := Leased(WebSocket)])
  }

  lemma {:induction false} LeaseUp(s: State, ls: seq<Label>, m: State, h: Handler, c: Struct) returns (ls': seq<Label>)
    requires Runs(s, ls, m) && h !in m.stages && m.sem < m.max && (c in m.free || c !in m.made)
    ensures Runs(s, ls', Leasing(m, h, c))
  {
    var m1 := m.(sem := m.sem + 1, stages := m.stages[h := Acquired(WebSocket)]);
    RunsExtend(s, ls, m, Acquire(h, WebSocket));
    var m2 := m1.(stages := m.stages[h := Upgraded]);
    assert m1.stages[h := Upgraded] == m2.stages;
    RunsExtend(s, ls + [Acquire(h, WebSocket)], m1, Upgrade(h, true));
    assert m2.stages[h := Leased(WebSocket)] == m.stages[h := Leased(WebSocket)];
    RunsExtend(s, ls + [Acquire(h, WebSocket)] + [Upgrade(h, true)], m2, Lease(h, c));
    ls' := ls + [Acquire(h, WebSocket)] + [Upgrade(h, true)] + [Lease(h, c)];
  }

  lemma {:induction false} GoLive(s: State, ls: seq<Label>, m: State, h: Handler) returns (ls': seq<Label>)
    requires Runs(s, ls, m) && h in m.stages && m.stages[h] == Leased(WebSocket) && h in m.lease
    ensures Runs(s, ls', m.(clients := m.clients + {m.lease[h]}, current := m.current + 1,
                            stages := m.stages[h := Running(WebSocket)]))
  {
    var m1 := m.(stages := m.stages[h := Hooked]);
    RunsExtend(s, ls, m, Hook(h, true));
    var m2 := m.(clients := m.clients + {m.lease[h]}, stages := m.stages[h := Tracked(WebSocket)]);
    assert m1.stages[h := Tracked(WebSocket)] == m2.stages;
    RunsExtend(s, ls + [Hook(h, true)], m1, Track(h));
    assert m2.stages[h := Running(WebSocket)] == m.stages[h := Running(WebSocket)];
    RunsExtend(s, ls + [Hook(h, true)] + [Track(h)], m2, Count(h));
    ls' := ls + [Hook(h, true)] + [Track(h)] + [Count(h)];
  }

  /** Served: leased, tracked and counted. */
  function Serving(m: State, h: Handler, c: Struct): State {
    Leasing(m, h, c).(clients := m.clients + {c}, current := m.current + 1, stages := m.stages[h := Running(WebSocket)])
  }

  lemma {:induction false} Connect(s: State, ls: seq<Label>, m: State, h: Handler, c: Struct) returns (ls': seq<Label>)
    requires Runs(s, ls, m) && h !in m.stages && m.sem < m.max && (c in m.free || c !in m.made)
    ensures Runs(s, ls', Serving(m, h, c))
  {
    ls' := LeaseUp(s, ls, m, h, c);
    assert m.stages[h := Leased(WebSocket)][h := Running(WebSocket)] == m.stages[h := Running(WebSocket)];
    ls' := GoLive(s, ls', Leasing(m, h, c), h);
  }

  /** Torn down up to the rate limiter: the struct is back in the pool and the slot is free. */
  function TornDown(m: State, h: Handler): State
    requires h in m.lease
  {
    var c := m.lease[h];
    m.(clients := m.clients - {c}, current := m.current - 1, free := m.free + {c}, idOf := m.idOf[c := 0],
       sem := m.sem - 1, stages := m.stages[h := Released])
  }

  lemma {:induction false} TearDown(s: State, ls: seq<Label>, m: State, h: Handler) returns (ls': seq<Label>)
    requires Runs(s, ls, m) && h in m.stages && m.stages[h] == Running(WebSocket) && h in m.lease && m.sem > 0
    ensures Runs(s, ls', TornDown(m, h))
  {
    var c := m.lease[h];
    var m1 := m.(clients := m.clients - {c}, stages := m.stages[h := Untracked(true)]);
    RunsExtend(s, ls, m, Untrack(h));
    var m2 := m1.(current := m.current - 1, stages := m.stages[h := Uncounted(true)]);
    assert m1.stages[h := Uncounted(true)] == m2.stages;
    RunsExtend(s, ls + [Untrack(h)], m1, Uncount(h));
    var m3 := m2.(free := m.free + {c}, idOf := m.idOf[c := 0], stages := m.stages[h := Returned(true)]);
    assert m2.stages[h := Returned(true)] == m3.stages;
    RunsExtend(s, ls + [Untrack(h)] + [Uncount(h)], m2, Return(h));
    assert m3.stages[h := Released] == m.stages[h := Released];
    RunsExtend(s, ls + [Untrack(h)] + [Uncount(h)] + [Return(h)], m3, Release(h));
    ls' := ls + [Untrack(h)] + [Uncount(h)] + [Return(h)] + [Release(h)];
  }

  /** A connection that is served, checked against the rate limiter and closed leaves its entry behind. */
  lemma {:induction false} LimiterLeaks(s: State) returns (ls: seq<Label>, t: State)
    requires Init(s) && s.max >= 1
    ensures Runs(s, ls, t) && 0 in t.stages && t.stages[0] == Done && 0 in t.ids && t.ids[0] in t.limiters
  {
    ls := Connect(s, [], s, 0, 0);
    var m := Serving(s, 0, 0);
    RunsExtend(s, ls, m, Limit(0));
    var m1 := Apply(m, Limit(0));
    ls := TearDown(s, ls + [Limit(0)], m1, 0);
    RunsExtend(s, ls, TornDown(m1, 0), Forget(0));
    ls, t := ls + [Forget(0)], Apply(TornDown(m1, 0), Forget(0));
  }

  /** A second connection takes over the struct before the first one's late cleanup, which then deletes the
      second one's entry while it is being served. */
  lemma {:induction false} CleanupHitsNext(s: State) returns (ls: seq<Label>, m: State)
    requires Init(s) && s.max >= 1
    ensures Runs(s, ls, m) && 1 in m.stages && m.stages[1] == Running(WebSocket) && 1 in m.ids && m.ids[1] in m.limiters
    ensures Enabled(m, Forget(0)) && m.ids[1] !in Apply(m, Forget(0)).limiters
  {
    ls := Connect(s, [], s, 0, 0);
    var m1 := Serving(s, 0, 0);
    ls := TearDown(s, ls, m1, 0);
    var m2 := TornDown(m1, 0);
    ls := Connect(s, ls, m2, 1, 0);
    var m3 := Serving(m2, 1, 0);
    RunsExtend(s, ls, m3, Limit(1));
    ls, m := ls + [Limit(1)], Apply(m3, Limit(1));
  }
}
