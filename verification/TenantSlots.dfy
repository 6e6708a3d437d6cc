/** Per-tenant connection slots on the gateway (ws/internal/gateway/tenant_connections.go): an atomic counter
    per tenant, a compare-and-swap loop that takes a slot and an unconditional decrement that returns it. */
module TenantSlots {
  import opened Common

  type Proc = int
  type Tenant = string

  /** One connection attempt. `limit` is the limit read together with the counter. */
  datatype Stage =
    | Trying(tenant: Tenant, limit: int)
    | Loaded(tenant: Tenant, limit: int, current: int)
    | Refused
    | Holding(tenant: Tenant)
    | Underflowed(tenant: Tenant)
    | Released

  datatype State = State(
    counters: map<Tenant, int>,
    limits: map<Tenant, int>,
    defaultLimit: int,
    procs: map<Proc, Stage>)

  datatype Label =
    | Find(p: Proc, tenant: Tenant) | Load(p: Proc) | Refuse(p: Proc) | Swap(p: Proc)
    | Release(p: Proc) | Clamp(p: Proc) | SetLimit(tenant: Tenant, limit: int) | SetDefaultLimit(limit: int)

  function LimitOf(s: State, tenant: Tenant): int {
    if tenant in s.limits && s.limits[tenant] > 0 then s.limits[tenant] else s.defaultLimit
  }

  function CounterOf(s: State, tenant: Tenant): int {
    if tenant in s.counters then s.counters[tenant] else 0
  }

  predicate Enabled(s: State, l: Label) {
    match l
    case Find(p, _) => p !in s.procs
    case Load(p) => p in s.procs && s.procs[p].Trying?
    case Refuse(p) => p in s.procs && s.procs[p].Loaded? && s.procs[p].current >= s.procs[p].limit
    case Swap(p) => p in s.procs && s.procs[p].Loaded? && s.procs[p].current < s.procs[p].limit
    case Release(p) => p in s.procs && s.procs[p].Holding?
    case Clamp(p) => p in s.procs && s.procs[p].Underflowed?
    case SetLimit(_, _) => true
    case SetDefaultLimit(_) => true
  }

  /** A counter is created on first use; counter and limit are read under one lock. */
  function DoFind(s: State, p: Proc, tenant: Tenant): State {
    s.(counters := s.counters[tenant := CounterOf(s, tenant)], procs := s.procs[p := Trying(tenant, LimitOf(s, tenant))])
  }

  /** The swap succeeds only if the counter still has the loaded value; otherwise the loop starts over. */
  function DoSwap(s: State, p: Proc): State
    requires Enabled(s, Swap(p))
  {
    var st := s.procs[p];
    if CounterOf(s, st.tenant) == st.current then
      s.(counters := s.counters[st.tenant := st.current + 1], procs := s.procs[p := Holding(st.tenant)])
    else s.(procs := s.procs[p := Trying(st.tenant, st.limit)])
  }

  /** Nothing happens without a counter; a negative result is to be clamped in a separate store. */
  function DoRelease(s: State, p: Proc): State
    requires Enabled(s, Release(p))
  {
    var tenant := s.procs[p].tenant;
    if tenant !in s.counters then s.(procs := s.procs[p := Released])
    else
      var left := s.counters[tenant] - 1;
      s.(counters := s.counters[tenant := left],
         procs := s.procs[p := if left < 0 then Underflowed(tenant) else Released])
  }

  function Apply(s: State, l: Label): State
    requires Enabled(s, l)
  {
    match l
    case Find(p, tenant) => DoFind(s, p, tenant)
    case Load(p) =>
      var st := s.procs[p];
      s.(procs := s.procs[p := Loaded(st.tenant, st.limit, CounterOf(s, st.tenant))])
    case Refuse(p) => s.(procs := s.procs[p := Refused])
    case Swap(p) => DoSwap(s, p)
    case Release(p) => DoRelease(s, p)
    case Clamp(p) => s.(counters := s.counters[s.procs[p].tenant := 0], procs := s.procs[p := Released])
    case SetLimit(tenant, limit) =>
      s.(limits := if limit <= 0 then s.limits - {tenant} else s.limits[tenant := limit])
    case SetDefaultLimit(limit) => s.(defaultLimit := if limit > 0 then limit else s.defaultLimit)
  }

  function Holds(tenant: Tenant): Stage -> bool {
    (st: Stage) => st == Holding(tenant)
  }

  /** The attempts that hold one of the tenant's slots. */
  function Holders(s: State, tenant: Tenant): set<Proc> {
    Where(s.procs, Holds(tenant))
  }

  /** A run in which the tenant's limit never exceeds `bound`. */
  ghost predicate Runs(tenant: Tenant, bound: int, s: State, ls: seq<Label>, t: State)
    decreases |ls|
  {
    && LimitOf(s, tenant) <= bound
    && if ls == [] then s == t else Enabled(s, ls[0]) && Runs(tenant, bound, Apply(s, ls[0]), ls[1..], t)
  }

  predicate Init(s: State) {
    s.counters == map[] && s.procs == map[]
  }

  ghost predicate CountsExact(s: State) {
    forall tenant :: CounterOf(s, tenant) == |Holders(s, tenant)|
  }

  predicate NoneUnderflowed(s: State) {
    forall p :: p in s.procs ==> !s.procs[p].Underflowed?
  }

  /** An attempt in the loop has its counter, and its limit is one that was in force. */
  predicate LimitsBounded(tenant: Tenant, bound: int, s: State) {
    && (forall p :: p in s.procs && s.procs[p].Trying? && s.procs[p].tenant == tenant ==> s.procs[p].limit <= bound)
    && (forall p :: p in s.procs && s.procs[p].Loaded? && s.procs[p].tenant == tenant ==> s.procs[p].limit <= bound)
    && CounterOf(s, tenant) <= Max(0, bound)
  }

  ghost predicate Inv(tenant: Tenant, bound: int, s: State) {
    && CountsExact(s)
    && NoneUnderflowed(s)
    && (forall p :: p in s.procs && s.procs[p].Holding? ==> s.procs[p].tenant in s.counters)
    && LimitsBounded(tenant, bound, s)
  }

  lemma {:induction false} CountsStep(s: State, l: Label, tenant: Tenant)
    requires CountsExact(s) && NoneUnderflowed(s) && Enabled(s, l)
    requires forall p :: p in s.procs && s.procs[p].Holding? ==> s.procs[p].tenant in s.counters
    ensures CounterOf(Apply(s, l), tenant) == |Holders(Apply(s, l), tenant)|
  {
    var t := Apply(s, l);
    assert CounterOf(s, tenant) == |Holders(s, tenant)|;
    if !l.SetLimit? && !l.SetDefaultLimit? {
      WhereUpdate(s.procs, Holds(tenant), l.p, t.procs[l.p]);
      assert t.procs == s.procs[l.p := t.procs[l.p]];
    }
  }

  /** A holder's counter is positive, so returning a slot never underflows. */
  lemma {:induction false} ReleaseStays(s: State, p: Proc)
    requires CountsExact(s) && Enabled(s, Release(p))
    ensures CounterOf(s, s.procs[p].tenant) >= 1
  {
    assert p in Holders(s, s.procs[p].tenant);
  }

  lemma {:induction false} InvStep(tenant: Tenant, bound: int, s: State, l: Label)
    requires Inv(tenant, bound, s) && Enabled(s, l) && LimitOf(s, tenant) <= bound
    ensures Inv(tenant, bound, Apply(s, l))
  {
    forall x ensures CounterOf(Apply(s, l), x) == |Holders(Apply(s, l), x)| {
      CountsStep(s, l, x);
    }
    if l.Release? {
      ReleaseStays(s, l.p);
    }
  }

  lemma {:induction false} RunInv(tenant: Tenant, bound: int, s: State, ls: seq<Label>, t: State)
    requires Inv(tenant, bound, s) && Runs(tenant, bound, s, ls, t)
    ensures Inv(tenant, bound, t)
    decreases |ls|
  {
    if ls == [] {
    } else {
      InvStep(tenant, bound, s, ls[0]);
      RunInv(tenant, bound, Apply(s, ls[0]), ls[1..], t);
    }
  }

  /** In every interleaving of the compare-and-swap loops, releases and limit changes, a tenant's counter
      is the number of slots held and never exceeds the largest limit in force during the run; the clamp
      is never reached. */
  lemma {:induction false} SlotSafety(tenant: Tenant, bound: int, s: State, ls: seq<Label>, t: State)
    requires Init(s) && Runs(tenant, bound, s, ls, t)
    ensures CounterOf(t, tenant) == |Holders(t, tenant)|
    ensures 0 <= CounterOf(t, tenant) <= Max(0, bound)
    ensures forall p :: !Enabled(t, Clamp(p))
  {
    assert forall x :: Holders(s, x) == {};
    RunInv(tenant, bound, s, ls, t);
  }

  /** An attempt nobody interferes with takes a slot exactly when one is free, and returning it restores
      the counter. */
  lemma {:induction false} AttemptAlone(s: State, p: Proc, tenant: Tenant)
    requires p !in s.procs && CounterOf(s, tenant) >= 0
    ensures var loaded := Apply(DoFind(s, p, tenant), Load(p));
      && (Enabled(loaded, Swap(p)) <==> CounterOf(s, tenant) < LimitOf(s, tenant))
      && (Enabled(loaded, Refuse(p)) <==> CounterOf(s, tenant) >= LimitOf(s, tenant))
      && (Enabled(loaded, Swap(p)) ==>
            && var held := Apply(loaded, Swap(p));
            && held.procs[p] == Holding(tenant)
            && CounterOf(held, tenant) == CounterOf(s, tenant) + 1
            && Apply(held, Release(p)).procs[p] == Released
            && CounterOf(Apply(held, Release(p)), tenant) == CounterOf(s, tenant))
  {
  }

  /** The attempt reads a counter that has reached its limit. */
  predicate ReadsFull(s: State, l: Label, p: Proc) {
    l == Load(p) && p in s.procs && s.procs[p].Trying? && CounterOf(s, s.procs[p].tenant) >= s.procs[p].limit
  }

  ghost predicate EverReadsFull(s: State, ls: seq<Label>, p: Proc)
    decreases |ls|
  {
    ls != [] && Enabled(s, ls[0]) && (ReadsFull(s, ls[0], p) || EverReadsFull(Apply(s, ls[0]), ls[1..], p))
  }

  /** An attempt is refused, or about to be. */
  predicate IsTurnedDown(s: State, p: Proc) {
    p in s.procs && (s.procs[p].Refused? || (s.procs[p].Loaded? && s.procs[p].current >= s.procs[p].limit))
  }

  lemma {:induction false} RunTurnedDown(tenant: Tenant, bound: int, s: State, ls: seq<Label>, t: State, p: Proc)
    requires Runs(tenant, bound, s, ls, t) && IsTurnedDown(t, p)
    ensures IsTurnedDown(s, p) || EverReadsFull(s, ls, p)
    decreases |ls|
  {
    if ls == [] {
    } else {
      RunTurnedDown(tenant, bound, Apply(s, ls[0]), ls[1..], t, p);
    }
  }

  /** In every interleaving an attempt is refused only if it read a counter that had reached its limit; losing a
      race never refuses it. */
  lemma {:induction false} RefusedOnlyWhenFull(tenant: Tenant, bound: int, s: State, ls: seq<Label>, t: State, p: Proc)
    requires Init(s) && Runs(tenant, bound, s, ls, t) && p in t.procs && t.procs[p].Refused?
    ensures EverReadsFull(s, ls, p)
  {
    RunTurnedDown(tenant, bound, s, ls, t, p);
  }

  /** The last limit set for the tenant, if any was. */
  function LastLimit(ls: seq<Label>, tenant: Tenant): Option<int> {
    if ls == [] then None
    else
      var later := LastLimit(ls[1..], tenant);
      if later.Some? then later
      else if ls[0].SetLimit? && ls[0].tenant == tenant then Some(ls[0].limit)
      else None
  }

  /** The last positive default set, or the initial one. */
  function LastDefault(ls: seq<Label>, initial: int): int {
    if ls == [] then initial
    else LastDefault(ls[1..], if ls[0].SetDefaultLimit? && ls[0].limit > 0 then ls[0].limit else initial)
  }

  predicate LimitsPositive(s: State) {
    forall tenant :: tenant in s.limits ==> s.limits[tenant] > 0
  }

  /** Over every run the limit in force is what the history of the setters says: the last limit set for the
      tenant if that is positive, and the default then in force if it is not; without one, what the tenant had
      before. No other step and no other tenant matters. */
  lemma {:induction false} LimitFromHistory(s: State, ls: seq<Label>, t: State, tenant: Tenant, bound: int)
    requires Runs(tenant, bound, s, ls, t) && LimitsPositive(s)
    ensures LimitsPositive(t) && t.defaultLimit == LastDefault(ls, s.defaultLimit)
    ensures LimitOf(t, tenant) ==
      match LastLimit(ls, tenant)
      case Some(limit) => if limit > 0 then limit else LastDefault(ls, s.defaultLimit)
      case None => if tenant in s.limits then s.limits[tenant] else LastDefault(ls, s.defaultLimit)
    decreases |ls|
  {
    if ls == [] {
    } else {
      LimitFromHistory(Apply(s, ls[0]), ls[1..], t, tenant, bound);
    }
  }
}
