/** Token revocation against connection registration on the gateway
    (ws/internal/gateway: gateway.go, connection_registry.go, sse.go;
    ws/internal/shared/provapi/revocation_stream.go). */
module Revocation {
  import opened Common

  type Conn = int

  /** Key of the per-subject index: tenant and subject joined by a colon. */
  datatype Key = Key(text: string)

  function SubjectKey(tenant: string, sub: string): Key {
    Key(tenant + ":" + sub)
  }

  /** Tenant slugs contain no colon. */
  predicate IsSlug(tenant: string) {
    ':' !in tenant
  }

  /** Between slugs the joined key tells tenant and subject apart. */
  lemma {:induction false} KeyInjective(t1: string, s1: string, t2: string, s2: string)
    requires IsSlug(t1) && IsSlug(t2) && SubjectKey(t1, s1) == SubjectKey(t2, s2)
    ensures t1 == t2 && s1 == s2
  {
    var k1, k2 := t1 + ":" + s1, t2 + ":" + s2;
    assert k1[|t1|] == ':' && k2[|t2|] == ':';
    assert forall i :: 0 <= i < |t1| ==> k1[i] == t1[i];
    assert forall i :: 0 <= i < |t2| ==> k2[i] == t2[i];
    assert k1[..|t1|] == t1 && k2[..|t2|] == t2;
    assert k1[|t1| + 1..] == s1 && k2[|t2| + 1..] == s2;
  }

  /** The claims a connection authenticated with; they stay fixed. */
  datatype Claims = Claims(tenant: string, sub: string, jti: string, iat: int) {
    function SubKey(): Key { SubjectKey(tenant, sub) }
  }

  // ----- The connection registry -----

  datatype Registry = Registry(bySubject: map<Key, set<Conn>>, byJti: map<string, Conn>)

  function SubjectConns(r: Registry, k: Key): set<Conn> {
    if k in r.bySubject then r.bySubject[k] else {}
  }

  function Registered(r: Registry, conn: Conn, cl: Claims): Registry {
    Registry(
      if cl.sub != "" then r.bySubject[cl.SubKey() := SubjectConns(r, cl.SubKey()) + {conn}] else r.bySubject,
      if cl.jti != "" then r.byJti[cl.jti := conn] else r.byJti)
  }

  function Unregistered(r: Registry, conn: Conn, cl: Claims): Registry {
    var left := SubjectConns(r, cl.SubKey()) - {conn};
    Registry(
      if cl.sub == "" || cl.SubKey() !in r.bySubject then r.bySubject
      else if left == {} then r.bySubject - {cl.SubKey()}
      else r.bySubject[cl.SubKey() := left],
      if cl.jti != "" then r.byJti - {cl.jti} else r.byJti)
  }

  class ConnectionRegistry {
    var bySubject: map<Key, set<Conn>>
    var byJti: map<string, Conn>

    ghost function Value(): Registry
      reads this
    {
      Registry(bySubject, byJti)
    }

    constructor ()
      ensures Value() == Registry(map[], map[])
    {
      bySubject, byJti := map[], map[];
    }

    method Register(conn: Conn, cl: Claims)
      modifies this
      ensures Value() == Registered(old(Value()), conn, cl)
    {
      if cl.jti != "" {
        byJti := byJti[cl.jti := conn];
      }
      if cl.sub != "" {
        var key := SubjectKey(cl.tenant, cl.sub);
        if key !in bySubject {
          bySubject := bySubject[key := {}];
        }
        bySubject := bySubject[key := bySubject[key] + {conn}];
      }
    }

    method Unregister(conn: Conn, cl: Claims)
      modifies this
      ensures Value() == Unregistered(old(Value()), conn, cl)
    {
      if cl.jti != "" {
        byJti := byJti - {cl.jti};
      }
      if cl.sub != "" {
        var key := SubjectKey(cl.tenant, cl.sub);
        if key in bySubject {
          var conns := bySubject[key] - {conn};
          bySubject := bySubject[key := conns];
          if conns == {} {
            bySubject := bySubject - {key};
          }
        }
      }
    }

    method FindByJTI(jti: string) returns (conn: Option<Conn>)
      ensures conn.Some? <==> jti in byJti
      ensures conn.Some? ==> conn.value == byJti[jti]
    {
      conn := if jti in byJti then Some(byJti[jti]) else None;
    }

    /** All connections of a subject, in arbitrary order. */
    method FindBySub(tenant: string, sub: string) returns (result: seq<Conn>)
      ensures NoDuplicates(result)
      ensures Elements(result) == SubjectConns(Value(), SubjectKey(tenant, sub))
    {
      var key := SubjectKey(tenant, sub);
      if key !in bySubject {
        return [];
      }
      result := ListOf(bySubject[key]);
    }
  }

  /** Unregistering right after registering restores the subject index; it restores the token index
      exactly when no other connection held the token's entry. */
  lemma {:induction false} UnregisterUndoesRegister(r: Registry, conn: Conn, cl: Claims)
    requires conn !in SubjectConns(r, cl.SubKey()) && (cl.SubKey() in r.bySubject ==> r.bySubject[cl.SubKey()] != {})
    ensures Unregistered(Registered(r, conn, cl), conn, cl).bySubject == r.bySubject
    ensures Unregistered(Registered(r, conn, cl), conn, cl).byJti == r.byJti <==> cl.jti == "" || cl.jti !in r.byJti
  {
    var k := cl.SubKey();
    assert SubjectConns(r, k) + {conn} - {conn} == SubjectConns(r, k);
    if cl.sub != "" && k !in r.bySubject {
      assert r.bySubject[k := {conn}] - {k} == r.bySubject;
    }
    if cl.jti != "" && cl.jti !in r.byJti {
      assert r.byJti[cl.jti := conn] - {cl.jti} == r.byJti;
    }
  }

  // ----- The revocation snapshot -----

  datatype Entry =
    | TokenRev(tenant: string, jti: string, expiresAt: int)
    | UserRev(tenant: string, sub: string, revokedAt: int, expiresAt: int)

  /** One element of a stream delta. */
  datatype Item = Item(entry: Entry, removed: bool)

  datatype JtiEntry = JtiEntry(tenant: string, expiresAt: int)
  datatype SubEntry = SubEntry(revokedAt: int, expiresAt: int)

  datatype Snapshot = Snapshot(jtis: map<string, JtiEntry>, subs: map<Key, SubEntry>)

  function IsRevoked(snap: Snapshot, cl: Claims): bool {
    || (cl.jti != "" && cl.jti in snap.jtis && snap.jtis[cl.jti].tenant == cl.tenant)
    || (cl.sub != "" && cl.SubKey() in snap.subs && cl.iat < snap.subs[cl.SubKey()].revokedAt)
  }

  function Prune(snap: Snapshot, now: int): Snapshot {
    Snapshot(map k | k in snap.jtis && snap.jtis[k].expiresAt > now :: snap.jtis[k],
             map k | k in snap.subs && snap.subs[k].expiresAt > now :: snap.subs[k])
  }

  function ApplyItem(snap: Snapshot, item: Item, now: int): Snapshot {
    match item.entry
    case TokenRev(tenant, jti, expiresAt) =>
      if item.removed then snap.(jtis := snap.jtis - {jti})
      else if expiresAt > now then snap.(jtis := snap.jtis[jti := JtiEntry(tenant, expiresAt)])
      else snap
    case UserRev(tenant, sub, revokedAt, expiresAt) =>
      if item.removed then snap.(subs := snap.subs - {SubjectKey(tenant, sub)})
      else if expiresAt > now then snap.(subs := snap.subs[SubjectKey(tenant, sub) := SubEntry(revokedAt, expiresAt)])
      else snap
  }

  function ApplyItems(snap: Snapshot, items: seq<Item>, now: int): Snapshot {
    if items == [] then snap
    else ApplyItem(ApplyItems(snap, items[..|items| - 1], now), items[|items| - 1], now)
  }

  /** The snapshot stored for a delta: expired entries go, then the items apply in order. */
  function Delta(snap: Snapshot, items: seq<Item>, now: int): Snapshot {
    ApplyItems(Prune(snap, now), items, now)
  }

  const EMPTY := Snapshot(map[], map[])

  /** The entries of a message whose callback fires, in order. */
  function Callbacks(items: seq<Item>, now: int): seq<Entry> {
    if items == [] then [] else
    var rest := Callbacks(items[..|items| - 1], now);
    var last := items[|items| - 1];
    if !last.removed && last.entry.expiresAt > now then rest + [last.entry] else rest
  }

  lemma {:induction false} ItemStep(base: Snapshot, items: seq<Item>, i: nat, now: int)
    requires i < |items|
    ensures ApplyItems(base, items[..i + 1], now) == ApplyItem(ApplyItems(base, items[..i], now), items[i], now)
    ensures Callbacks(items[..i + 1], now) ==
      Callbacks(items[..i], now) + if !items[i].removed && items[i].entry.expiresAt > now then [items[i].entry] else []
  {
    assert items[..i + 1][..i] == items[..i];
  }

  /** The copy-on-write update: unexpired entries are copied, the items applied, the callbacks collected. */
  method ApplyDelta(was: Snapshot, items: seq<Item>, now: int) returns (snap: Snapshot, callbacks: seq<Entry>)
    ensures snap == Delta(was, items, now) && callbacks == Callbacks(items, now)
  {
    var jtis := map k | k in was.jtis && was.jtis[k].expiresAt > now :: was.jtis[k];
    var subs := map k | k in was.subs && was.subs[k].expiresAt > now :: was.subs[k];
    for i := 0 to |items|
      invariant Snapshot(jtis, subs) == ApplyItems(Prune(was, now), items[..i], now)
    {
      ItemStep(Prune(was, now), items, i, now);
      match items[i].entry {
        case TokenRev(tenant, jti, expiresAt) =>
          if items[i].removed {
            jtis := jtis - {jti};
          } else if expiresAt > now {
            jtis := jtis[jti := JtiEntry(tenant, expiresAt)];
          }
        case UserRev(tenant, sub, revokedAt, expiresAt) =>
          if items[i].removed {
            subs := subs - {SubjectKey(tenant, sub)};
          } else if expiresAt > now {
            subs := subs[SubjectKey(tenant, sub) := SubEntry(revokedAt, expiresAt)];
          }
      }
    }
    assert items[..|items|] == items;
    snap := Snapshot(jtis, subs);
    callbacks := [];
    for i := 0 to |items|
      invariant callbacks == Callbacks(items[..i], now)
    {
      ItemStep(was, items, i, now);
      if !items[i].removed && items[i].entry.expiresAt > now {
        callbacks := callbacks + [items[i].entry];
      }
    }
  }

  /** The callbacks of a message are those of its unexpired additions. */
  lemma {:induction false} CallbackIff(items: seq<Item>, now: int, e: Entry)
    ensures e in Callbacks(items, now) <==> Item(e, false) in items && e.expiresAt > now
  {
    if items == [] {
    } else {
      CallbackIff(items[..|items| - 1], now, e);
      assert items == items[..|items| - 1] + [items[|items| - 1]];
    }
  }

  /** Does the revocation apply to a connection with these claims? */
  predicate Matches(e: Entry, cl: Claims) {
    match e
    case TokenRev(tenant, jti, _) => cl.jti != "" && cl.jti == jti && cl.tenant == tenant
    case UserRev(tenant, sub, revokedAt, _) => cl.sub != "" && cl.tenant == tenant && cl.sub == sub && cl.iat < revokedAt
  }

  /** The snapshot still knows the revocation. */
  predicate Covered(snap: Snapshot, e: Entry) {
    match e
    case TokenRev(tenant, jti, _) => jti in snap.jtis && snap.jtis[jti].tenant == tenant
    case UserRev(tenant, sub, revokedAt, _) =>
      SubjectKey(tenant, sub) in snap.subs && revokedAt <= snap.subs[SubjectKey(tenant, sub)].revokedAt
  }

  lemma {:induction false} CoveredIsRevoked(snap: Snapshot, e: Entry, cl: Claims)
    requires Covered(snap, e) && Matches(e, cl)
    ensures IsRevoked(snap, cl)
  {
  }

  /** An item that could take the revocation `e` out of the snapshot: a removal, another tenant's use of
      the same jti, or an older cutoff for the same subject. */
  predicate Displaces(item: Item, e: Entry) {
    match (item.entry, e)
    case (TokenRev(t, j, _), TokenRev(tenant, jti, _)) => j == jti && (item.removed || t != tenant)
    case (UserRev(t, u, at, _), UserRev(tenant, sub, revokedAt, _)) =>
      SubjectKey(t, u) == SubjectKey(tenant, sub) && (item.removed || at < revokedAt)
    case _ => false
  }

  lemma {:induction false} ItemsKeep(snap: Snapshot, items: seq<Item>, now: int, e: Entry)
    requires forall i :: 0 <= i < |items| ==> !Displaces(items[i], e)
    requires Covered(snap, e) || e in Callbacks(items, now)
    ensures Covered(ApplyItems(snap, items, now), e)
  {
    if items == [] {
    } else {
      var front, last := items[..|items| - 1], items[|items| - 1];
      if Covered(snap, e) || e in Callbacks(front, now) {
        ItemsKeep(snap, front, now, e);
      }
    }
  }

  /** The snapshot slot that covers `e` is past its expiry. */
  predicate SlotExpired(snap: Snapshot, e: Entry, now: int)
    requires Covered(snap, e)
  {
    match e
    case TokenRev(_, jti, _) => snap.jtis[jti].expiresAt <= now
    case UserRev(tenant, sub, _, _) => snap.subs[SubjectKey(tenant, sub)].expiresAt <= now
  }

  /** A delta keeps every revocation it neither displaces nor lets expire, and adds those it carries. */
  lemma {:induction false} DeltaKeeps(snap: Snapshot, items: seq<Item>, now: int, e: Entry)
    requires forall i :: 0 <= i < |items| ==> !Displaces(items[i], e)
    requires (Covered(snap, e) && !SlotExpired(snap, e, now)) || e in Callbacks(items, now)
    ensures Covered(Delta(snap, items, now), e)
  {
    ItemsKeep(Prune(snap, now), items, now, e);
  }

  /** The item has an effect on the snapshot: it removes, or it adds something unexpired. */
  predicate IsEffective(item: Item, now: int) {
    item.removed || item.entry.expiresAt > now
  }

  /** The last effective item of the delta for the token. */
  function LastForToken(items: seq<Item>, jti: string, now: int): Option<Item> {
    if items == [] then None
    else
      var last := items[|items| - 1];
      if last.entry.TokenRev? && last.entry.jti == jti && IsEffective(last, now) then Some(last)
      else LastForToken(items[..|items| - 1], jti, now)
  }

  function LastForSubject(items: seq<Item>, k: Key, now: int): Option<Item> {
    if items == [] then None
    else
      var last := items[|items| - 1];
      if last.entry.UserRev? && SubjectKey(last.entry.tenant, last.entry.sub) == k && IsEffective(last, now)
      then Some(last)
      else LastForSubject(items[..|items| - 1], k, now)
  }

  /** The token revocation in force after a delta: the one its last effective item for the token adds, none if that
      item removes, and without such an item what was in force before and has not expired. */
  function TokenInForce(snap: Snapshot, items: seq<Item>, jti: string, now: int): Option<JtiEntry> {
    match LastForToken(items, jti, now)
    case Some(item) =>
      if item.removed || !item.entry.TokenRev? then None else Some(JtiEntry(item.entry.tenant, item.entry.expiresAt))
    case None => if jti in snap.jtis && snap.jtis[jti].expiresAt > now then Some(snap.jtis[jti]) else None
  }

  function SubjectInForce(snap: Snapshot, items: seq<Item>, k: Key, now: int): Option<SubEntry> {
    match LastForSubject(items, k, now)
    case Some(item) =>
      if item.removed || !item.entry.UserRev? then None else Some(SubEntry(item.entry.revokedAt, item.entry.expiresAt))
    case None => if k in snap.subs && snap.subs[k].expiresAt > now then Some(snap.subs[k]) else None
  }

  /** A delta leaves exactly the revocations in force, and nothing that has expired. */
  lemma {:induction false} DeltaExact(snap: Snapshot, items: seq<Item>, now: int, jti: string, k: Key)
    ensures var after := Delta(snap, items, now);
      && TokenInForce(snap, items, jti, now) == (if jti in after.jtis then Some(after.jtis[jti]) else None)
      && SubjectInForce(snap, items, k, now) == (if k in after.subs then Some(after.subs[k]) else None)
      && (jti in after.jtis ==> after.jtis[jti].expiresAt > now)
      && (k in after.subs ==> after.subs[k].expiresAt > now)
  {
    if items == [] {
    } else {
      DeltaExact(snap, items[..|items| - 1], now, jti, k);
    }
  }

  /** After a delta, a connection is revoked exactly if the revocation in force for its token is of its tenant, or
      the one for its subject has a later cutoff. In particular a lifted revocation lets it pass. */
  lemma {:induction false} RevokedAfterDeltaIff(snap: Snapshot, items: seq<Item>, now: int, cl: Claims)
    ensures IsRevoked(Delta(snap, items, now), cl) <==>
      var token := TokenInForce(snap, items, cl.jti, now);
      var subject := SubjectInForce(snap, items, cl.SubKey(), now);
      || (cl.jti != "" && token.Some? && token.value.tenant == cl.tenant)
      || (cl.sub != "" && subject.Some? && cl.iat < subject.value.revokedAt)
  {
    DeltaExact(snap, items, now, cl.jti, cl.SubKey());
  }

  /** If the last effective items for its token and for its subject are removals, a connection passes. */
  lemma {:induction false} LiftedPasses(snap: Snapshot, items: seq<Item>, now: int, cl: Claims)
    requires LastForToken(items, cl.jti, now).Some? && LastForToken(items, cl.jti, now).value.removed
    requires LastForSubject(items, cl.SubKey(), now).Some? && LastForSubject(items, cl.SubKey(), now).value.removed
    ensures !IsRevoked(Delta(snap, items, now), cl)
  {
    RevokedAfterDeltaIff(snap, items, now, cl);
  }

  // ----- The race -----

  /** A connection handler: upgraded, registered, found revoked, checked, gone. */
  datatype Stage = Connecting | JustRegistered | Condemned | Settled | Gone

  /** The revocation stream goroutine, between its deltas or in a fan-out. */
  datatype Stream = StreamIdle | FanningOut(todo: seq<Entry>) | ForceClosing(found: set<Conn>, todo: seq<Entry>)

  datatype State = State(
    reg: Registry,
    snap: Snapshot,
    stream: Stream,
    stages: map<Conn, Stage>,
    closed: set<Conn>,
    received: set<Entry>,    // revocations whose callback a delta has called for
    retained: set<Entry>,    // of those, the ones the snapshot has covered ever since
    fanned: set<Entry>)      // of those, the ones whose fan-out has looked up the registry since

  datatype Label =
    | StoreDelta(items: seq<Item>, now: int) | StoreWhole(entries: seq<Entry>, now: int)
    | FanOut | CloseFound(c: Conn) | NextEntry
    | Register(c: Conn) | Recheck(c: Conn) | CloseCondemned(c: Conn) | Unregister(c: Conn)

  function StageOf(s: State, c: Conn): Stage {
    if c in s.stages then s.stages[c] else Connecting
  }

  /** The handler has registered and not yet unregistered. */
  predicate IsLive(s: State, c: Conn) {
    StageOf(s, c) == JustRegistered || StageOf(s, c) == Condemned || StageOf(s, c) == Settled
  }

  /** What the fan-out of one revocation finds in the registry. */
  function Found(claims: Conn -> Claims, r: Registry, e: Entry): set<Conn> {
    match e
    case TokenRev(_, jti, _) => if jti in r.byJti then {r.byJti[jti]} else {}
    case UserRev(tenant, sub, revokedAt, _) =>
      set c | c in SubjectConns(r, SubjectKey(tenant, sub)) && claims(c).iat < revokedAt
  }

  /** One callback of the fan-out: the connections it force-closes. */
  method HandleRevocation(registry: ConnectionRegistry, claims: Conn -> Claims, e: Entry) returns (closed: set<Conn>)
    ensures closed == Found(claims, registry.Value(), e)
  {
    closed := {};
    match e {
      case TokenRev(_, jti, _) =>
        var conn := registry.FindByJTI(jti);
        if conn.Some? {
          closed := {conn.value};
        }
      case UserRev(tenant, sub, revokedAt, _) =>
        var conns := registry.FindBySub(tenant, sub);
        for i := 0 to |conns|
          invariant closed == set c | c in conns[..i] && claims(c).iat < revokedAt
        {
          if claims(conns[i]).iat >= revokedAt {
            continue;
          }
          closed := closed + {conns[i]};
        }
        assert conns[..|conns|] == conns;
        assert forall c :: c in conns <==> c in Elements(conns);
    }
  }

  predicate Enabled(s: State, l: Label) {
    match l
    case StoreDelta(items, _) => s.stream == StreamIdle && forall i :: 0 <= i < |items| ==> IsSlug(items[i].entry.tenant)
    case StoreWhole(entries, _) => s.stream == StreamIdle && forall i :: 0 <= i < |entries| ==> IsSlug(entries[i].tenant)
    case FanOut => s.stream.FanningOut? && s.stream.todo != []
    case CloseFound(c) => s.stream.ForceClosing? && c in s.stream.found
    case NextEntry => (s.stream.ForceClosing? && s.stream.found == {}) || s.stream == FanningOut([])
    case Register(c) => StageOf(s, c) == Connecting
    case Recheck(c) => StageOf(s, c) == JustRegistered
    case CloseCondemned(c) => StageOf(s, c) == Condemned
    case Unregister(c) => StageOf(s, c) == Settled
  }

  function CoveredBy(snap: Snapshot, es: set<Entry>): set<Entry> {
    set e | e in es && Covered(snap, e)
  }

  /** A message of the stream: the new snapshot is stored first, the callbacks follow. */
  function DoStore(s: State, base: Snapshot, items: seq<Item>, now: int): State {
    var snap := ApplyItems(base, items, now);
    var arrived := Elements(Callbacks(items, now));
    s.(snap := snap, stream := FanningOut(Callbacks(items, now)), received := s.received + arrived,
       retained := CoveredBy(snap, s.retained + arrived), fanned := CoveredBy(snap, s.fanned))
  }

  /** A full snapshot has no removals. */
  function Additions(entries: seq<Entry>): seq<Item> {
    seq(|entries|, i requires 0 <= i < |entries| => Item(entries[i], false))
  }

  function Apply(claims: Conn -> Claims, s: State, l: Label): State
    requires Enabled(s, l)
  {
    match l
    case StoreDelta(items, now) => DoStore(s, Prune(s.snap, now), items, now)
    case StoreWhole(entries, now) => DoStore(s, EMPTY, Additions(entries), now)
    case FanOut =>
      var e := s.stream.todo[0];
      s.(stream := ForceClosing(Found(claims, s.reg, e), s.stream.todo[1..]), fanned := s.fanned + {e} * s.retained)
    case CloseFound(c) =>
      s.(stream := ForceClosing(s.stream.found - {c}, s.stream.todo), closed := s.closed + {c})
    case NextEntry =>
      s.(stream := if s.stream == FanningOut([]) then StreamIdle else FanningOut(s.stream.todo))
    case Register(c) =>
      s.(reg := Registered(s.reg, c, claims(c)), stages := s.stages[c := JustRegistered])
    case Recheck(c) =>
      s.(stages := s.stages[c := if IsRevoked(s.snap, claims(c)) then Condemned else Settled])
    case CloseCondemned(c) => s.(stages := s.stages[c := Settled], closed := s.closed + {c})
    case Unregister(c) =>
      s.(reg := Unregistered(s.reg, c, claims(c)), stages := s.stages[c := Gone])
  }

  const START: State :=
    State(Registry(map[], map[]), EMPTY, StreamIdle, map[], {}, {}, {}, {})

  ghost predicate Runs(claims: Conn -> Claims, s: State, ls: seq<Label>, t: State)
    decreases |ls|
  {
    if ls == [] then s == t
    else Enabled(s, ls[0]) && Runs(claims, Apply(claims, s, ls[0]), ls[1..], t)
  }

  /** Connections belong to tenants with a slug. */
  ghost predicate SlugClaims(claims: Conn -> Claims) {
    forall c :: IsSlug(claims(c).tenant)
  }

  /** No two connections ever present the same token. */
  ghost predicate UniqueTokens(claims: Conn -> Claims) {
    forall c, d :: c != d && claims(c).jti != "" ==> claims(c).jti != claims(d).jti
  }

  // ----- No matching connection escapes -----

  ghost predicate SnapshotInv(s: State) {
    && (forall e :: e in s.retained ==> Covered(s.snap, e))
    && s.fanned <= s.retained
  }

  /** While the connection is live, no other live connection presents its token. */
  ghost predicate Alone(claims: Conn -> Claims, s: State, c: Conn) {
    IsLive(s, c) && claims(c).jti != "" ==> forall d :: d != c && IsLive(s, d) ==> claims(d).jti != claims(c).jti
  }

  ghost predicate AloneThroughout(claims: Conn -> Claims, s: State, ls: seq<Label>, c: Conn)
    decreases |ls|
  {
    && Alone(claims, s, c)
    && (ls == [] || (Enabled(s, ls[0]) && AloneThroughout(claims, Apply(claims, s, ls[0]), ls[1..], c)))
  }

  /** The registry finds the connection by its subject; `alone` adds that it does so by its token. */
  ghost predicate Findable(claims: Conn -> Claims, r: Registry, c: Conn, alone: bool) {
    && (claims(c).sub != "" ==> c in SubjectConns(r, claims(c).SubKey()))
    && (alone && claims(c).jti != "" ==> claims(c).jti in r.byJti && r.byJti[claims(c).jti] == c)
  }

  ghost predicate RegistryInv(claims: Conn -> Claims, s: State, c: Conn, alone: bool) {
    IsLive(s, c) ==> Findable(claims, s.reg, c, alone)
  }

  lemma {:induction false} RegisterKeeps(claims: Conn -> Claims, r: Registry, c: Conn, d: Conn, alone: bool)
    requires d == c || Findable(claims, r, d, alone)
    requires d != c && alone && claims(d).jti != "" ==> claims(c).jti != claims(d).jti
    ensures Findable(claims, Registered(r, c, claims(c)), d, alone)
  {
  }

  lemma {:induction false} UnregisterKeeps(claims: Conn -> Claims, r: Registry, c: Conn, d: Conn, alone: bool)
    requires d != c && Findable(claims, r, d, alone)
    requires alone && claims(d).jti != "" ==> claims(c).jti != claims(d).jti
    ensures Findable(claims, Unregistered(r, c, claims(c)), d, alone)
  {
  }

  /** A live connection hit by a finished lookup is closed, about to be closed, or still before its own
      re-check. */
  ghost predicate Caught(claims: Conn -> Claims, s: State, c: Conn, e: Entry) {
    IsLive(s, c) && Matches(e, claims(c)) ==>
      || c in s.closed
      || (s.stream.ForceClosing? && c in s.stream.found)
      || StageOf(s, c) == JustRegistered
      || StageOf(s, c) == Condemned
  }

  /** User revocations always count; token revocations count for a connection alone with its token. */
  ghost predicate CaughtInv(claims: Conn -> Claims, s: State, c: Conn, alone: bool) {
    forall e :: e in s.fanned && (e.UserRev? || alone) ==> Caught(claims, s, c, e)
  }

  ghost predicate Inv(claims: Conn -> Claims, s: State, c: Conn, alone: bool) {
    SnapshotInv(s) && RegistryInv(claims, s, c, alone) && CaughtInv(claims, s, c, alone)
  }

  lemma {:induction false} SnapshotStep(claims: Conn -> Claims, s: State, l: Label)
    requires SnapshotInv(s) && Enabled(s, l)
    ensures SnapshotInv(Apply(claims, s, l))
  {
  }

  lemma {:induction false} RegistryStep(claims: Conn -> Claims, s: State, l: Label, c: Conn, alone: bool)
    requires RegistryInv(claims, s, c, alone) && Enabled(s, l)
    requires alone ==> Alone(claims, s, c) && Alone(claims, Apply(claims, s, l), c)
    ensures RegistryInv(claims, Apply(claims, s, l), c, alone)
  {
    if IsLive(Apply(claims, s, l), c) {
      if l.Register? {
        assert IsLive(Apply(claims, s, l), l.c);
        RegisterKeeps(claims, s.reg, l.c, c, alone);
      } else if l.Unregister? {
        assert IsLive(s, l.c);
        UnregisterKeeps(claims, s.reg, l.c, c, alone);
      }
    }
  }

  lemma {:induction false} CaughtStep(claims: Conn -> Claims, s: State, l: Label, c: Conn, alone: bool, e: Entry)
    requires Inv(claims, s, c, alone) && Enabled(s, l) && (e.UserRev? || alone) && e in Apply(claims, s, l).fanned
    ensures Caught(claims, Apply(claims, s, l), c, e)
  {
    if e in s.fanned {
      assert Caught(claims, s, c, e);
      if l.Recheck? && Matches(e, claims(c)) { CoveredIsRevoked(s.snap, e, claims(c)); }
    } else {
      assert IsLive(s, c) ==> Findable(claims, s.reg, c, alone);
    }
  }

  lemma {:induction false} InvStep(claims: Conn -> Claims, s: State, l: Label, c: Conn, alone: bool)
    requires Inv(claims, s, c, alone) && Enabled(s, l)
    requires alone ==> Alone(claims, s, c) && Alone(claims, Apply(claims, s, l), c)
    ensures Inv(claims, Apply(claims, s, l), c, alone)
  {
    SnapshotStep(claims, s, l);
    RegistryStep(claims, s, l, c, alone);
    forall e | e in Apply(claims, s, l).fanned && (e.UserRev? || alone)
      ensures Caught(claims, Apply(claims, s, l), c, e)
    {
      CaughtStep(claims, s, l, c, alone, e);
    }
  }

  /** In every interleaving, for every connection: user revocations are caught; token revocations are too, and
      the token index lists the connection, if it stayed alone with its token. */
  lemma {:induction false} RunInv(claims: Conn -> Claims, s: State, ls: seq<Label>, t: State, c: Conn, alone: bool)
    requires Inv(claims, s, c, alone) && Runs(claims, s, ls, t)
    requires alone ==> AloneThroughout(claims, s, ls, c)
    ensures Inv(claims, t, c, alone)
    decreases |ls|
  {
    if ls == [] {
    } else {
      InvStep(claims, s, ls[0], c, alone);
      RunInv(claims, Apply(claims, s, ls[0]), ls[1..], t, c, alone);
    }
  }

  /** What the fan-out still has before it. */
  function Todo(stream: Stream): seq<Entry> {
    if stream.StreamIdle? then [] else stream.todo
  }

  /** Every revocation received and still covered has been looked up, or is about to be. */
  ghost predicate FanInv(s: State) {
    && s.retained <= s.received
    && forall e :: e in s.retained ==> e in s.fanned || e in Todo(s.stream)
  }

  lemma {:induction false} FanStep(claims: Conn -> Claims, s: State, l: Label)
    requires SnapshotInv(s) && FanInv(s) && Enabled(s, l)
    ensures FanInv(Apply(claims, s, l))
  {
    var t := Apply(claims, s, l);
    if l.FanOut? {
      assert s.stream.todo == [s.stream.todo[0]] + s.stream.todo[1..];
    }
    forall e | e in t.retained ensures e in t.fanned || e in Todo(t.stream) {
      if l.StoreDelta? || l.StoreWhole? {
        assert e in s.retained || e in Todo(t.stream);
      }
    }
  }

  lemma {:induction false} RunFan(claims: Conn -> Claims, s: State, ls: seq<Label>, t: State)
    requires SnapshotInv(s) && FanInv(s) && Runs(claims, s, ls, t)
    ensures FanInv(t)
    decreases |ls|
  {
    if ls == [] {
    } else {
      SnapshotStep(claims, s, ls[0]);
      FanStep(claims, s, ls[0]);
      RunFan(claims, Apply(claims, s, ls[0]), ls[1..], t);
    }
  }

  /** Over every run: once the stream is idle, every revocation it received and the snapshot has covered ever since
      has been fanned out. */
  lemma {:induction false} AllFannedOut(claims: Conn -> Claims, ls: seq<Label>, t: State, e: Entry)
    requires Runs(claims, START, ls, t) && t.stream == StreamIdle
    ensures e in t.retained <==> e in t.fanned
    ensures e in t.fanned ==> e in t.received && Covered(t.snap, e)
  {
    RunFan(claims, START, ls, t);
    RunInv(claims, START, ls, t, 0, false);
  }

  /** A run after which a registered, re-checked connection is open although a revocation that matches
      it has been fanned out and is still in the snapshot. */
  ghost predicate Escapes(claims: Conn -> Claims, ls: seq<Label>, t: State, c: Conn, e: Entry) {
    && Runs(claims, START, ls, t) && t.stream == StreamIdle
    && StageOf(t, c) == Settled && e in t.fanned && Matches(e, claims(c)) && c !in t.closed
  }

  /** No user revocation escapes the registration window, in any interleaving; no token revocation does
      unless, at some point of the run, another live connection shared the token of the live one. */
  lemma {:induction false} NoRevocationEscapes(claims: Conn -> Claims, ls: seq<Label>, t: State, c: Conn, e: Entry)
    requires Escapes(claims, ls, t, c, e)
    ensures e.TokenRev? && !AloneThroughout(claims, START, ls, c)
  {
    var alone := AloneThroughout(claims, START, ls, c);
    RunInv(claims, START, ls, t, c, alone);
    assert e.UserRev? || alone ==> Caught(claims, t, c, e);
  }

  lemma {:induction false} UniqueIsAlone(claims: Conn -> Claims, s: State, ls: seq<Label>, t: State, c: Conn)
    requires UniqueTokens(claims) && Runs(claims, s, ls, t)
    ensures AloneThroughout(claims, s, ls, c)
    decreases |ls|
  {
    if ls == [] {
    } else {
      UniqueIsAlone(claims, Apply(claims, s, ls[0]), ls[1..], t, c);
    }
  }

  lemma {:induction false} RunsConcat(claims: Conn -> Claims, s: State, ls: seq<Label>, m: State,
      more: seq<Label>, t: State)
    requires Runs(claims, s, ls, m) && Runs(claims, m, more, t)
    ensures Runs(claims, s, ls + more, t)
    decreases |ls|
  {
    if ls == [] {
      assert ls + more == more;
    } else {
      assert (ls + more)[0] == ls[0] && (ls + more)[1..] == ls[1..] + more;
      RunsConcat(claims, Apply(claims, s, ls[0]), ls[1..], m, more, t);
    }
  }

  /** Both connections register and pass their re-check; the token index then lists the second. */
  lemma {:induction false} RegisterBoth(claims: Conn -> Claims, c: Conn, d: Conn) returns (ls: seq<Label>, t: State)
    requires c != d && claims(c).jti != "" && claims(c).jti == claims(d).jti
    ensures Runs(claims, START, ls, t)
    ensures StageOf(t, c) == Settled && t.stream == StreamIdle && t.snap == EMPTY && t.closed == {}
    ensures claims(c).jti in t.reg.byJti && t.reg.byJti[claims(c).jti] == d
  {
    ls := [Register(c), Recheck(c), Register(d), Recheck(d)];
    var s1 := Apply(claims, START, ls[0]);
    var s2 := Apply(claims, s1, ls[1]);
    var s3 := Apply(claims, s2, ls[2]);
    t := Apply(claims, s3, ls[3]);
    assert Runs(claims, s3, ls[3..], t);
    assert Runs(claims, s2, ls[2..], t);
    assert Runs(claims, s1, ls[1..], t);
  }

  /** The delta that carries one token revocation, stored over an empty snapshot. */
  lemma {:induction false} StoreToken(claims: Conn -> Claims, s: State, e: Entry)
    requires e.TokenRev? && IsSlug(e.tenant) && e.expiresAt == 1 && s.stream == StreamIdle && s.snap == EMPTY
    ensures Enabled(s, StoreDelta([Item(e, false)], 0))
    ensures var t := Apply(claims, s, StoreDelta([Item(e, false)], 0));
      && t.stream == FanningOut([e]) && t.received == s.received + {e} && e in t.retained
      && t.reg == s.reg && t.stages == s.stages && t.closed == s.closed
  {
    var item := Item(e, false);
    assert [item][..0] == [];
    assert Callbacks([item], 0) == [e];
    assert Covered(Apply(claims, s, StoreDelta([item], 0)).snap, e);
  }

  /** One token revocation, from its delta to the end of its fan-out. */
  lemma {:induction false} RevokeToken(claims: Conn -> Claims, s: State, d: Conn, tenant: string)
      returns (ls: seq<Label>, t: State)
    requires IsSlug(tenant) && s.stream == StreamIdle && s.snap == EMPTY
    requires claims(d).jti in s.reg.byJti && s.reg.byJti[claims(d).jti] == d
    ensures Runs(claims, s, ls, t) && t.stream == StreamIdle && t.stages == s.stages && t.closed == s.closed + {d}
    ensures t.received == s.received + {TokenRev(tenant, claims(d).jti, 1)}
    ensures TokenRev(tenant, claims(d).jti, 1) in t.fanned
  {
    var e := TokenRev(tenant, claims(d).jti, 1);
    StoreToken(claims, s, e);
    ls := [StoreDelta([Item(e, false)], 0), FanOut, CloseFound(d), NextEntry, NextEntry];
    var s1 := Apply(claims, s, ls[0]);
    var s2 := Apply(claims, s1, ls[1]);
    assert s2.stream == ForceClosing({d}, []);
    var s3 := Apply(claims, s2, ls[2]);
    var s4 := Apply(claims, s3, ls[3]);
    t := Apply(claims, s4, ls[4]);
    assert Runs(claims, s4, ls[4..], t);
    assert Runs(claims, s3, ls[3..], t);
    assert Runs(claims, s2, ls[2..], t);
    assert Runs(claims, s1, ls[1..], t);
  }

  /** Two connections sharing a token: the second registration takes over the token index, and a
      revocation of the token then closes the second only. */
  lemma {:induction false} SharedTokenEscapes(claims: Conn -> Claims, c: Conn, d: Conn)
      returns (ls: seq<Label>, t: State, e: Entry)
    requires SlugClaims(claims) && c != d && claims(c).jti != "" && claims(c).jti == claims(d).jti
    ensures Escapes(claims, ls, t, c, e)
  {
    var first, m := RegisterBoth(claims, c, d);
    var second, last := RevokeToken(claims, m, d, claims(c).tenant);
    RunsConcat(claims, START, first, m, second, last);
    ls, t, e := first + second, last, TokenRev(claims(c).tenant, claims(c).jti, 1);
  }

  /** The revocation protocol is free of escapes exactly when connections do not share tokens. */
  lemma {:induction false} EscapeFreeIff(claims: Conn -> Claims)
    requires SlugClaims(claims)
    ensures UniqueTokens(claims) <==> (forall ls, t, c, e :: !Escapes(claims, ls, t, c, e))
  {
    forall ls, t, c, e | Escapes(claims, ls, t, c, e)
      ensures !UniqueTokens(claims)
    {
      NoRevocationEscapes(claims, ls, t, c, e);
      if UniqueTokens(claims) {
        UniqueIsAlone(claims, START, ls, t, c);
      }
    }
    if !UniqueTokens(claims) {
      var c, d :| c != d && claims(c).jti != "" && claims(c).jti == claims(d).jti;
      var ls, t, e := SharedTokenEscapes(claims, c, d);
    }
  }

  // ----- No other connection is closed -----

  /** A token lookup ignores the tenant, so it can hit another tenant's connection with the same jti. */
  predicate Hits(e: Entry, cl: Claims) {
    Matches(e, cl) || (e.TokenRev? && cl.jti != "" && e.jti == cl.jti)
  }

  ghost predicate IsHit(es: set<Entry>, cl: Claims) {
    exists e :: e in es && Hits(e, cl)
  }

  /** The registry lists connections under their own keys only. */
  ghost predicate IndexExact(claims: Conn -> Claims, r: Registry) {
    && (forall k, c :: c in SubjectConns(r, k) ==> claims(c).sub != "" && claims(c).SubKey() == k)
    && (forall j :: j in r.byJti ==> j != "" && claims(r.byJti[j]).jti == j)
  }

  ghost predicate SubSourced(k: Key, v: SubEntry, es: set<Entry>) {
    exists e :: e in es && e.UserRev? && SubjectKey(e.tenant, e.sub) == k && e.revokedAt == v.revokedAt
  }

  /** Every snapshot entry goes back to a received revocation. */
  ghost predicate Sourced(snap: Snapshot, es: set<Entry>) {
    && (forall j :: j in snap.jtis ==> TokenRev(snap.jtis[j].tenant, j, snap.jtis[j].expiresAt) in es)
    && (forall k :: k in snap.subs ==> SubSourced(k, snap.subs[k], es))
  }

  lemma {:induction false} SourcedGrows(snap: Snapshot, es: set<Entry>, more: set<Entry>)
    requires Sourced(snap, es) && es <= more
    ensures Sourced(snap, more)
  {
    forall k | k in snap.subs ensures SubSourced(k, snap.subs[k], more) {
      assert SubSourced(k, snap.subs[k], es);
    }
  }

  lemma {:induction false} ItemsSourced(snap: Snapshot, items: seq<Item>, now: int, es: set<Entry>)
    requires Sourced(snap, es)
    ensures Sourced(ApplyItems(snap, items, now), es + Elements(Callbacks(items, now)))
  {
    if items == [] {
      SourcedGrows(snap, es, es + Elements(Callbacks(items, now)));
    } else {
      var front, last := items[..|items| - 1], items[|items| - 1];
      ItemsSourced(snap, front, now, es);
      SourcedGrows(ApplyItems(snap, front, now), es + Elements(Callbacks(front, now)), es + Elements(Callbacks(items, now)));
      ItemSourced(ApplyItems(snap, front, now), last, now, es + Elements(Callbacks(items, now)));
    }
  }

  lemma {:induction false} ItemSourced(snap: Snapshot, item: Item, now: int, es: set<Entry>)
    requires Sourced(snap, es) && (!item.removed && item.entry.expiresAt > now ==> item.entry in es)
    ensures Sourced(ApplyItem(snap, item, now), es)
  {
    var after := ApplyItem(snap, item, now);
    forall k | k in after.subs ensures SubSourced(k, after.subs[k], es) {
      assert k in snap.subs ==> SubSourced(k, snap.subs[k], es);
    }
  }

  ghost predicate AllHit(claims: Conn -> Claims, s: State) {
    && (forall c :: c in s.closed ==> IsHit(s.received, claims(c)))
    && (s.stream.ForceClosing? ==> forall c :: c in s.stream.found ==> IsHit(s.received, claims(c)))
    && (forall c :: StageOf(s, c) == Condemned ==> IsHit(s.received, claims(c)))
  }

  predicate SlugEntries(es: set<Entry>) {
    forall e :: e in es ==> IsSlug(e.tenant)
  }

  ghost predicate Blame(claims: Conn -> Claims, s: State) {
    && SlugClaims(claims) && SlugEntries(s.received)
    && IndexExact(claims, s.reg)
    && Sourced(s.snap, s.received)
    && (!s.stream.StreamIdle? ==> forall e :: e in s.stream.todo ==> e in s.received)
    && AllHit(claims, s)
  }

  lemma {:induction false} RevokedIsHit(snap: Snapshot, es: set<Entry>, cl: Claims)
    requires Sourced(snap, es) && SlugEntries(es) && IsSlug(cl.tenant) && IsRevoked(snap, cl)
    ensures IsHit(es, cl)
  {
    if cl.jti != "" && cl.jti in snap.jtis && snap.jtis[cl.jti].tenant == cl.tenant {
      assert Hits(TokenRev(snap.jtis[cl.jti].tenant, cl.jti, snap.jtis[cl.jti].expiresAt), cl);
    } else {
      assert SubSourced(cl.SubKey(), snap.subs[cl.SubKey()], es);
      var v := snap.subs[cl.SubKey()];
      var e :| e in es && e.UserRev? && SubjectKey(e.tenant, e.sub) == cl.SubKey() && e.revokedAt == v.revokedAt;
      KeyInjective(e.tenant, e.sub, cl.tenant, cl.sub);
      assert Hits(e, cl);
    }
  }

  lemma {:induction false} FoundIsHit(claims: Conn -> Claims, r: Registry, e: Entry, c: Conn)
    requires IndexExact(claims, r) && IsSlug(e.tenant) && IsSlug(claims(c).tenant) && c in Found(claims, r, e)
    ensures Hits(e, claims(c))
  {
    if e.UserRev? {
      KeyInjective(e.tenant, e.sub, claims(c).tenant, claims(c).sub);
    }
  }

  lemma {:induction false} CallbackSlugs(items: seq<Item>, now: int)
    requires forall i :: 0 <= i < |items| ==> IsSlug(items[i].entry.tenant)
    ensures SlugEntries(Elements(Callbacks(items, now)))
  {
    if items == [] {
    } else {
      CallbackSlugs(items[..|items| - 1], now);
    }
  }

  lemma {:induction false} PruneSourced(snap: Snapshot, now: int, es: set<Entry>)
    requires Sourced(snap, es)
    ensures Sourced(Prune(snap, now), es)
  {
    forall k | k in Prune(snap, now).subs ensures SubSourced(k, Prune(snap, now).subs[k], es) {
      assert SubSourced(k, snap.subs[k], es);
    }
  }

  lemma {:induction false} BlameStore(claims: Conn -> Claims, s: State, base: Snapshot, items: seq<Item>, now: int)
    requires Blame(claims, s) && Sourced(base, s.received)
    requires forall i :: 0 <= i < |items| ==> IsSlug(items[i].entry.tenant)
    ensures Blame(claims, DoStore(s, base, items, now))
  {
    CallbackSlugs(items, now);
    ItemsSourced(base, items, now, s.received);
    forall c | IsHit(s.received, claims(c)) ensures IsHit(DoStore(s, base, items, now).received, claims(c)) {
      var e :| e in s.received && Hits(e, claims(c));
      assert e in DoStore(s, base, items, now).received;
    }
  }

  lemma {:induction false} BlameFanOut(claims: Conn -> Claims, s: State)
    requires Blame(claims, s) && Enabled(s, FanOut)
    ensures Blame(claims, Apply(claims, s, FanOut))
  {
    var e := s.stream.todo[0];
    forall c | c in Found(claims, s.reg, e) ensures IsHit(s.received, claims(c)) {
      FoundIsHit(claims, s.reg, e, c);
    }
  }

  lemma {:induction false} IndexStep(claims: Conn -> Claims, r: Registry, c: Conn)
    requires IndexExact(claims, r)
    ensures IndexExact(claims, Registered(r, c, claims(c))) && IndexExact(claims, Unregistered(r, c, claims(c)))
  {
    forall k, d | d in SubjectConns(Registered(r, c, claims(c)), k)
      ensures claims(d).sub != "" && claims(d).SubKey() == k
    {
      assert (d == c && claims(c).SubKey() == k && claims(c).sub != "") || d in SubjectConns(r, k);
    }
    forall k, d | d in SubjectConns(Unregistered(r, c, claims(c)), k)
      ensures claims(d).sub != "" && claims(d).SubKey() == k
    {
      assert d in SubjectConns(r, k);
    }
  }

  lemma {:induction false} BlameHandler(claims: Conn -> Claims, s: State, l: Label)
    requires Blame(claims, s) && Enabled(s, l) && !l.StoreDelta? && !l.StoreWhole? && !l.FanOut?
    ensures Blame(claims, Apply(claims, s, l))
  {
    if l.Register? || l.Unregister? {
      IndexStep(claims, s.reg, l.c);
    }
    if l.Recheck? && IsRevoked(s.snap, claims(l.c)) {
      RevokedIsHit(s.snap, s.received, claims(l.c));
    }
  }

  lemma {:induction false} BlameStep(claims: Conn -> Claims, s: State, l: Label)
    requires Blame(claims, s) && Enabled(s, l)
    ensures Blame(claims, Apply(claims, s, l))
  {
    match l
    case StoreDelta(items, now) =>
      PruneSourced(s.snap, now, s.received);
      BlameStore(claims, s, Prune(s.snap, now), items, now);
    case StoreWhole(entries, now) => BlameStore(claims, s, EMPTY, Additions(entries), now);
    case FanOut => BlameFanOut(claims, s);
    case _ => BlameHandler(claims, s, l);
  }

  lemma {:induction false} RunBlame(claims: Conn -> Claims, s: State, ls: seq<Label>, t: State)
    requires Blame(claims, s) && Runs(claims, s, ls, t)
    ensures Blame(claims, t)
    decreases |ls|
  {
    if ls == [] {
    } else {
      BlameStep(claims, s, ls[0]);
      RunBlame(claims, Apply(claims, s, ls[0]), ls[1..], t);
    }
  }

  /** The registry lists live connections only. */
  ghost predicate ListedLive(s: State) {
    && (forall k, c :: c in SubjectConns(s.reg, k) ==> IsLive(s, c))
    && (forall j :: j in s.reg.byJti ==> IsLive(s, s.reg.byJti[j]))
  }

  lemma {:induction false} UnregisterDrops(claims: Conn -> Claims, r: Registry, c: Conn, k: Key)
    requires IndexExact(claims, r)
    ensures c !in SubjectConns(Unregistered(r, c, claims(c)), k)
    ensures forall j :: j in Unregistered(r, c, claims(c)).byJti ==> Unregistered(r, c, claims(c)).byJti[j] != c
  {
    assert c in SubjectConns(r, k) ==> claims(c).SubKey() == k && claims(c).sub != "";
  }

  lemma {:induction false} StillLive(claims: Conn -> Claims, s: State, l: Label, c: Conn)
    requires Enabled(s, l) && l != Unregister(c) && (IsLive(s, c) || l == Register(c))
    ensures IsLive(Apply(claims, s, l), c)
  {
  }

  lemma {:induction false} ListedStep(claims: Conn -> Claims, s: State, l: Label)
    requires IndexExact(claims, s.reg) && ListedLive(s) && Enabled(s, l)
    ensures IndexExact(claims, Apply(claims, s, l).reg) && ListedLive(Apply(claims, s, l))
  {
    var t := Apply(claims, s, l);
    if l.Register? || l.Unregister? {
      IndexStep(claims, s.reg, l.c);
    }
    forall k, c | c in SubjectConns(t.reg, k) ensures IsLive(t, c) {
      if l != Register(c) {
        assert c in SubjectConns(s.reg, k);
        if l.Unregister? {
          UnregisterDrops(claims, s.reg, l.c, k);
        }
      }
      StillLive(claims, s, l, c);
    }
    forall j | j in t.reg.byJti ensures IsLive(t, t.reg.byJti[j]) {
      var c := t.reg.byJti[j];
      if l != Register(c) {
        assert j in s.reg.byJti && s.reg.byJti[j] == c;
        if l.Unregister? {
          UnregisterDrops(claims, s.reg, l.c, claims(l.c).SubKey());
        }
      }
      StillLive(claims, s, l, c);
    }
  }

  lemma {:induction false} RunListed(claims: Conn -> Claims, s: State, ls: seq<Label>, t: State)
    requires IndexExact(claims, s.reg) && ListedLive(s) && Runs(claims, s, ls, t)
    ensures IndexExact(claims, t.reg) && ListedLive(t)
    decreases |ls|
  {
    if ls == [] {
    } else {
      ListedStep(claims, s, ls[0]);
      RunListed(claims, Apply(claims, s, ls[0]), ls[1..], t);
    }
  }

  /** Over every run, a lookup by subject finds exactly the live connections of the subject; a lookup by token
      finds only a live connection with the token, and finds it if it stayed alone with the token while live. */
  lemma {:induction false} LookupsExact(claims: Conn -> Claims, ls: seq<Label>, t: State, c: Conn, k: Key, j: string)
    requires Runs(claims, START, ls, t)
    ensures c in SubjectConns(t.reg, k) <==> IsLive(t, c) && claims(c).sub != "" && claims(c).SubKey() == k
    ensures j in t.reg.byJti ==> j != "" && IsLive(t, t.reg.byJti[j]) && claims(t.reg.byJti[j]).jti == j
    ensures AloneThroughout(claims, START, ls, c) ==>
      (j in t.reg.byJti && t.reg.byJti[j] == c <==> IsLive(t, c) && j != "" && claims(c).jti == j)
  {
    RunInv(claims, START, ls, t, c, AloneThroughout(claims, START, ls, c));
    RunListed(claims, START, ls, t);
  }

  predicate TokenLists(claims: Conn -> Claims, r: Registry, c: Conn) {
    claims(c).jti in r.byJti && r.byJti[claims(c).jti] == c
  }

  /** Another connection with the live one's token registers or unregisters. */
  predicate TakesToken(claims: Conn -> Claims, s: State, l: Label, c: Conn) {
    IsLive(s, c) && (l.Register? || l.Unregister?) && l.c != c && claims(l.c).jti == claims(c).jti
  }

  ghost predicate TokenTaken(claims: Conn -> Claims, s: State, ls: seq<Label>, c: Conn)
    decreases |ls|
  {
    && ls != [] && Enabled(s, ls[0])
    && (TakesToken(claims, s, ls[0], c) || TokenTaken(claims, Apply(claims, s, ls[0]), ls[1..], c))
  }

  lemma {:induction false} NeverListedAgain(claims: Conn -> Claims, s: State, ls: seq<Label>, t: State, c: Conn)
    requires Runs(claims, s, ls, t) && StageOf(s, c) != Connecting && !TokenLists(claims, s.reg, c)
    ensures !TokenLists(claims, t.reg, c)
    decreases |ls|
  {
    if ls == [] {
    } else {
      NeverListedAgain(claims, Apply(claims, s, ls[0]), ls[1..], t, c);
    }
  }

  lemma {:induction false} RunTokenLists(claims: Conn -> Claims, s: State, ls: seq<Label>, t: State, c: Conn)
    requires Runs(claims, s, ls, t) && claims(c).jti != "" && (IsLive(s, c) ==> TokenLists(claims, s.reg, c))
    ensures IsLive(t, c) ==> (TokenLists(claims, t.reg, c) <==> !TokenTaken(claims, s, ls, c))
    decreases |ls|
  {
    if ls == [] {
    } else if TakesToken(claims, s, ls[0], c) {
      NeverListedAgain(claims, Apply(claims, s, ls[0]), ls[1..], t, c);
    } else {
      RunTokenLists(claims, Apply(claims, s, ls[0]), ls[1..], t, c);
    }
  }

  /** Over every run, the token index lists a live connection exactly if no other connection with its token
      registered or unregistered while it was live. */
  lemma {:induction false} TokenListedIff(claims: Conn -> Claims, ls: seq<Label>, t: State, c: Conn)
    requires Runs(claims, START, ls, t) && IsLive(t, c) && claims(c).jti != ""
    ensures TokenLists(claims, t.reg, c) <==> !TokenTaken(claims, START, ls, c)
  {
    RunTokenLists(claims, START, ls, t, c);
  }

  /** Only connections some received revocation hits are ever closed. */
  lemma {:induction false} OnlyHitsClose(claims: Conn -> Claims, ls: seq<Label>, t: State, c: Conn)
    requires SlugClaims(claims) && Runs(claims, START, ls, t) && c in t.closed
    ensures IsHit(t.received, claims(c))
  {
    RunBlame(claims, START, ls, t);
  }

  /** A run that closes a connection no received revocation matches. */
  ghost predicate ClosesInnocent(claims: Conn -> Claims, ls: seq<Label>, t: State, c: Conn) {
    Runs(claims, START, ls, t) && c in t.closed && forall e :: e in t.received ==> !Matches(e, claims(c))
  }

  lemma {:induction false} ForeignTokenCloses(claims: Conn -> Claims, c: Conn) returns (ls: seq<Label>, t: State)
    requires SlugClaims(claims) && claims(c).jti != ""
    ensures ClosesInnocent(claims, ls, t, c)
  {
    var m := Apply(claims, START, Register(c));
    assert Runs(claims, m, [Register(c)][1..], m);
    var more, last := RevokeToken(claims, m, c, claims(c).tenant + "x");
    RunsConcat(claims, START, [Register(c)], m, more, last);
    ls, t := [Register(c)] + more, last;
    assert |claims(c).tenant + "x"| != |claims(c).tenant|;
  }

  /** The lookup by token id does not compare tenants, so exactly the connections that carry one can be
      closed by a revocation that does not match them. */
  lemma {:induction false} InnocentClosedIff(claims: Conn -> Claims, c: Conn)
    requires SlugClaims(claims)
    ensures claims(c).jti != "" <==> exists ls, t :: ClosesInnocent(claims, ls, t, c)
  {
    if claims(c).jti != "" {
      var ls, t := ForeignTokenCloses(claims, c);
    }
    forall ls, t | ClosesInnocent(claims, ls, t, c) ensures claims(c).jti != "" {
      OnlyHitsClose(claims, ls, t, c);
    }
  }
}
