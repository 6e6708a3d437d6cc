/** The reconnect cursor of an event stream (ws/internal/gateway: sse.go, sse_cursor.go). The gateway collects
    the last position per channel and hands it to the client as an opaque event id, which the client presents
    when it reconnects. */
module SseCursor {
  import opened Common

  type Pos = string
  type Cursor = map<Channel, Pos>

  /** A Last-Event-ID header. The token form (version prefix, base64url, JSON) is assumed to round-trip;
      everything that does not parse is foreign. */
  datatype Token = Absent | Foreign | V1(cursor: Cursor)

  function Encode(cursor: Cursor): Token {
    if cursor == map[] then Absent else V1(cursor)
  }

  /** The cursor a header stands for; a missing, foreign or empty token stands for none. */
  function Decode(token: Token): Cursor {
    match token
    case V1(cursor) => cursor
    case _ => map[]
  }

  function Lookup(cursor: Cursor, ch: Channel): Option<Pos> {
    if ch in cursor then Some(cursor[ch]) else None
  }

  /** Keep the entries of the channels this connection requests. */
  method IntersectCursorChannels(cursor: Cursor, channels: seq<Channel>) returns (out: Cursor)
    ensures out == Restrict(cursor, Elements(channels))
  {
    if cursor == map[] {
      return map[];
    }
    var requested := {};
    for i := 0 to |channels|
      invariant requested == Elements(channels[..i])
    {
      requested := requested + {channels[i]};
    }
    assert channels[..|channels|] == channels;
    out := map[];
    var todo := cursor.Keys;
    while todo != {}
      invariant todo <= cursor.Keys
      invariant out == Restrict(cursor, requested - todo)
    {
      var ch :| ch in todo;
      if ch in requested {
        out := out[ch := cursor[ch]];
      }
      todo := todo - {ch};
    }
  }

  function Restrict(cursor: Cursor, channels: set<Channel>): Cursor {
    map ch | ch in cursor && ch in channels :: cursor[ch]
  }

  // ----- One connection -----

  /** What the event loop handles: a frame from the server, with a position or without, or a keep-alive
      tick. */
  datatype Event = Positioned(ch: Channel, pos: Pos) | Plain | Tick

  /** The cursor after the first `n` events. */
  function Advance(base: Cursor, events: seq<Event>, n: nat): Cursor
    requires n <= |events|
  {
    if n == 0 then base else
    var before := Advance(base, events, n - 1);
    match events[n - 1]
    case Positioned(ch, pos) => before[ch := pos]
    case _ => before
  }

  /** The position of the channel's last positioned message among the first `n` events. */
  function LastPos(events: seq<Event>, n: nat, ch: Channel): Option<Pos>
    requires n <= |events|
  {
    if n == 0 then None
    else if events[n - 1].Positioned? && events[n - 1].ch == ch then Some(events[n - 1].pos)
    else LastPos(events, n - 1, ch)
  }

  function OrElse(first: Option<Pos>, second: Option<Pos>): Option<Pos> {
    if first.Some? then first else second
  }

  lemma {:induction false} AdvanceLookup(base: Cursor, events: seq<Event>, n: nat, ch: Channel)
    requires n <= |events|
    ensures Lookup(Advance(base, events, n), ch) == OrElse(LastPos(events, n, ch), Lookup(base, ch))
  {
    if n == 0 {
    } else {
      AdvanceLookup(base, events, n - 1, ch);
    }
  }

  /** Messages, positioned or not, among the events from `lo` to `hi`. */
  function Messages(events: seq<Event>, lo: nat, hi: nat): nat
    requires lo <= hi <= |events|
  {
    if lo == hi then 0 else Messages(events, lo, hi - 1) + One(!events[hi - 1].Tick?)
  }

  function Positions(events: seq<Event>, lo: nat, hi: nat): nat
    requires lo <= hi <= |events|
  {
    if lo == hi then 0 else Positions(events, lo, hi - 1) + One(events[hi - 1].Positioned?)
  }

  /** How many of the first `k` frames up to and including the last one that carries a token. */
  function LastToken(frames: seq<Token>, k: nat): (n: nat)
    requires k <= |frames|
    ensures n <= k
    ensures n == 0 || frames[n - 1] != Absent
    ensures forall i :: n <= i < k ==> frames[i] == Absent
  {
    if k == 0 then 0 else if frames[k - 1] != Absent then k else LastToken(frames, k - 1)
  }

  /** A token is due on frame `k`: a position is unreflected, and the frame is a keep-alive, or no token
      was sent yet, or `everyN` messages have gone by since the last. */
  predicate Due(everyN: int, events: seq<Event>, frames: seq<Token>, k: nat)
    requires k < |events| && k <= |frames|
  {
    var from := LastToken(frames, k);
    && Positions(events, from, k + 1) > 0
    && (events[k].Tick? || from == 0 || (everyN > 0 && Messages(events, from, k + 1) >= everyN))
  }

  /** Frame `k` carries a token exactly when due, and then the whole cursor as of that event. */
  predicate FrameOk(base: Cursor, everyN: int, events: seq<Event>, frames: seq<Token>, k: nat)
    requires k < |frames| <= |events|
  {
    frames[k] == if Due(everyN, events, frames, k) then V1(Advance(base, events, k + 1)) else Absent
  }

  predicate FramesOk(base: Cursor, everyN: int, events: seq<Event>, frames: seq<Token>) {
    && |frames| <= |events|
    && forall k :: 0 <= k < |frames| ==> FrameOk(base, everyN, events, frames, k)
  }

  lemma {:induction false} LastTokenStable(frames: seq<Token>, frame: Token, k: nat)
    requires k <= |frames|
    ensures LastToken(frames + [frame], k) == LastToken(frames, k)
  {
    var m, n := LastToken(frames, k), LastToken(frames + [frame], k);
    assert m > 0 ==> (frames + [frame])[m - 1] == frames[m - 1];
  }

  lemma {:induction false} AppendFrame(base: Cursor, everyN: int, events: seq<Event>, frames: seq<Token>, frame: Token)
    requires FramesOk(base, everyN, events, frames) && |frames| < |events|
    requires frame == if Due(everyN, events, frames, |frames|) then V1(Advance(base, events, |frames| + 1)) else Absent
    ensures FramesOk(base, everyN, events, frames + [frame])
  {
    var more := frames + [frame];
    forall k | 0 <= k < |more| ensures FrameOk(base, everyN, events, more, k) {
      LastTokenStable(frames, frame, k);
      assert k < |frames| ==> FrameOk(base, everyN, events, frames, k);
    }
  }

  /** The four loop variables stand for the history of the connection. */
  predicate LoopInv(base: Cursor, everyN: int, events: seq<Event>, frames: seq<Token>,
                    cursor: Cursor, sinceCursor: int, cursorDirty: bool, cursorSent: bool) {
    && FramesOk(base, everyN, events, frames)
    && var n := |frames|; var from := LastToken(frames, n);
    && cursor == Advance(base, events, n)
    && sinceCursor == Messages(events, from, n)
    && cursorDirty == (Positions(events, from, n) > 0)
    && cursorSent == (from > 0)
    && (cursorDirty ==> cursor != map[])
  }

  /** What one event does to the loop variables when a token goes out exactly if due. */
  lemma {:induction false} LoopStep(base: Cursor, everyN: int, events: seq<Event>, frames: seq<Token>, frame: Token,
                 cursor: Cursor, sinceCursor: int, cursorDirty: bool, cursorSent: bool, moved: Cursor)
    requires |frames| < |events|
    requires LoopInv(base, everyN, events, frames, cursor, sinceCursor, cursorDirty, cursorSent)
    requires var e := events[|frames|];
      moved == if e.Positioned? then cursor[e.ch := e.pos] else cursor
    requires var e := events[|frames|];
      var due := (cursorDirty || e.Positioned?) && (e.Tick? || !cursorSent || (everyN > 0 && sinceCursor + 1 >= everyN));
      frame == if due then V1(moved) else Absent
    ensures var e := events[|frames|];
      LoopInv(base, everyN, events, frames + [frame], moved,
              if frame != Absent then 0 else sinceCursor + One(!e.Tick?),
              frame == Absent && (cursorDirty || e.Positioned?), cursorSent || frame != Absent)
  {
    var i := |frames|;
    assert moved == Advance(base, events, i + 1);
    assert Due(everyN, events, frames, i) <==> frame != Absent;
    AppendFrame(base, everyN, events, frames, frame);
    LastTokenStable(frames, frame, i);
    assert events[i].Positioned? ==> events[i].ch in moved;
  }

  /** The main event loop, up to the last event it handles: the id line of every frame it writes. */
  method EventLoop(lastPos: Cursor, everyN: int, events: seq<Event>) returns (frames: seq<Token>)
    ensures |frames| == |events| && FramesOk(lastPos, everyN, events, frames)
  {
    var cursor, sinceCursor, cursorDirty, cursorSent := lastPos, 0, false, false;
    frames := [];
    for i := 0 to |events|
      invariant |frames| == i
      invariant LoopInv(lastPos, everyN, events, frames, cursor, sinceCursor, cursorDirty, cursorSent)
    {
      ghost var was, since, dirty, sent := cursor, sinceCursor, cursorDirty, cursorSent;
      var frame := Absent;
      if events[i].Tick? {
        if cursorDirty {
          var token := Encode(cursor);
          if token != Absent {
            frame, sinceCursor, cursorDirty, cursorSent := token, 0, false, true;
          }
        }
      } else {
        if events[i].Positioned? {
          cursor := cursor[events[i].ch := events[i].pos];
          assert events[i].ch in cursor;
          cursorDirty := true;
        }
        sinceCursor := sinceCursor + 1;
        if cursorDirty && (!cursorSent || (everyN > 0 && sinceCursor >= everyN)) {
          var token := Encode(cursor);
          if token != Absent {
            frame, sinceCursor, cursorDirty, cursorSent := token, 0, false, true;
          }
        }
      }
      LoopStep(lastPos, everyN, events, frames, frame, was, since, dirty, sent, cursor);
      frames := frames + [frame];
    }
  }

  /** Before the first token nothing positioned has gone out; after it, with a cadence of N, fewer than N
      positioned messages are ever unreflected. */
  lemma {:induction false} BoundedStaleness(base: Cursor, everyN: int, events: seq<Event>, frames: seq<Token>, n: nat)
    requires n <= |frames| && FramesOk(base, everyN, events, frames)
    ensures LastToken(frames, n) == 0 ==> Positions(events, 0, n) == 0
    ensures everyN > 0 ==> Positions(events, LastToken(frames, n), n) < everyN
  {
    if n == 0 {
    } else {
      BoundedStaleness(base, everyN, events, frames, n - 1);
      assert FrameOk(base, everyN, events, frames, n - 1);
      PositionsLe(events, LastToken(frames, n), n);
    }
  }

  /** A keep-alive leaves no position unreflected; a token between keep-alives, after the first, comes only once the
      cadence is reached; every token reflects something new. */
  lemma {:induction false} CadenceKept(base: Cursor, everyN: int, events: seq<Event>, frames: seq<Token>, k: nat)
    requires k < |frames| && FramesOk(base, everyN, events, frames)
    ensures events[k].Tick? ==> Positions(events, LastToken(frames, k + 1), k + 1) == 0
    ensures frames[k] != Absent && !events[k].Tick? && LastToken(frames, k) > 0 ==>
      0 < everyN <= Messages(events, LastToken(frames, k), k + 1)
    ensures frames[k] != Absent ==> Positions(events, LastToken(frames, k), k + 1) > 0
  {
    assert FrameOk(base, everyN, events, frames, k);
  }

  lemma {:induction false} PositionsLe(events: seq<Event>, lo: nat, hi: nat)
    requires lo <= hi <= |events|
    ensures Positions(events, lo, hi) <= Messages(events, lo, hi)
    decreases hi
  {
    if lo == hi {
    } else {
      PositionsLe(events, lo, hi - 1);
    }
  }

  // ----- A chain of connections -----

  /** One connection of a client: what it requests, the cadence in force, what the loop handles, and how
      many of the frames reach the client before the connection is cut. */
  datatype Session = Session(requested: set<Channel>, everyN: int, events: seq<Event>, frames: seq<Token>, received: nat)

  type Connection = c: Session | |c.frames| == |c.events| && c.received <= |c.frames| witness Session({}, 0, [], [], 0)

  /** The frames are those of the event loop, started from the restricted inbound cursor. */
  predicate IsServed(conn: Connection, token: Token) {
    FramesOk(Restrict(Decode(token), conn.requested), conn.everyN, conn.events, conn.frames)
  }

  /** A connection from the inbound header to the last event handled. */
  method HandleSSE(token: Token, channels: seq<Channel>, everyN: int, events: seq<Event>, received: nat)
    returns (conn: Connection)
    requires received <= |events|
    ensures conn.requested == Elements(channels) && conn.everyN == everyN && conn.events == events
    ensures conn.received == received && IsServed(conn, token)
  {
    var lastPos := IntersectCursorChannels(Decode(token), channels);
    var frames := EventLoop(lastPos, everyN, events);
    conn := Session(Elements(channels), everyN, events, frames, received);
  }

  /** How many events the last token the client received accounts for; zero if it received none. */
  function Told(conn: Connection): nat {
    LastToken(conn.frames, conn.received)
  }

  /** The id the client holds after the connection: the last one it received, or the one it had. */
  function Keeps(conn: Connection, token: Token): Token
  {
    var n := Told(conn);
    if n == 0 then token else conn.frames[n - 1]
  }

  /** A chain of reconnects from a held token to another. */
  ghost predicate Chain(start: Token, conns: seq<Connection>, end: Token)
    decreases |conns|
  {
    if conns == [] then start == end
    else IsServed(conns[0], start) && Chain(Keeps(conns[0], start), conns[1..], end)
  }

  /** What the connection leaves the client with for one channel, given what it held before: the last
      position delivered up to the last token received; else what it held, if the channel is requested. A
      connection without a token changes nothing. */
  function Held(conn: Connection, ch: Channel, before: Option<Pos>): Option<Pos>
  {
    var n := Told(conn);
    if n == 0 then before
    else OrElse(LastPos(conn.events, n, ch), if ch in conn.requested then before else None)
  }

  function HeldAfter(conns: seq<Connection>, ch: Channel, before: Option<Pos>): Option<Pos>
    decreases |conns|
  {
    if conns == [] then before else HeldAfter(conns[1..], ch, Held(conns[0], ch, before))
  }

  lemma {:induction false} KeepsIsHeld(conn: Connection, token: Token, ch: Channel)
    requires IsServed(conn, token)
    ensures Lookup(Decode(Keeps(conn, token)), ch) == Held(conn, ch, Lookup(Decode(token), ch))
  {
    var n := Told(conn);
    if n > 0 {
      var base := Restrict(Decode(token), conn.requested);
      assert FrameOk(base, conn.everyN, conn.events, conn.frames, n - 1);
      AdvanceLookup(base, conn.events, n, ch);
    }
  }

  /** Over any chain of reconnects, for every channel, the cursor the client ends up with is the per-channel
      account of what it was delivered. */
  lemma {:induction false} ChainCursor(start: Token, conns: seq<Connection>, end: Token, ch: Channel)
    requires Chain(start, conns, end)
    ensures Lookup(Decode(end), ch) == HeldAfter(conns, ch, Lookup(Decode(start), ch))
    decreases |conns|
  {
    if conns == [] {
    } else {
      KeepsIsHeld(conns[0], start, ch);
      ChainCursor(Keeps(conns[0], start), conns[1..], end, ch);
    }
  }

  /** What the client has been told about: per connection, the events up to the last token it received. */
  function Reflected(conns: seq<Connection>): seq<Event>
    decreases |conns|
  {
    if conns == [] then []
    else conns[0].events[..Told(conns[0])] + Reflected(conns[1..])
  }

  lemma {:induction false} LastPosConcat(a: seq<Event>, n: nat, b: seq<Event>, m: nat, ch: Channel)
    requires n <= |a| && m <= |b|
    ensures LastPos(a[..n] + b, n + m, ch) == OrElse(LastPos(b, m, ch), LastPos(a, n, ch))
    decreases m, n
  {
    if m == 0 {
      LastPosPrefix(a, a[..n] + b, n, ch);
    } else {
      LastPosConcat(a, n, b, m - 1, ch);
    }
  }

  lemma {:induction false} LastPosPrefix(a: seq<Event>, b: seq<Event>, n: nat, ch: Channel)
    requires n <= |a| && n <= |b| && forall i :: 0 <= i < n ==> a[i] == b[i]
    ensures LastPos(a, n, ch) == LastPos(b, n, ch)
  {
    if n == 0 {
    } else {
      LastPosPrefix(a, b, n - 1, ch);
    }
  }

  lemma {:induction false} HeldIsReflected(conns: seq<Connection>, ch: Channel, before: Option<Pos>)
    requires forall i :: 0 <= i < |conns| ==> ch in conns[i].requested
    ensures HeldAfter(conns, ch, before) == OrElse(LastPos(Reflected(conns), |Reflected(conns)|, ch), before)
    decreases |conns|
  {
    if conns == [] {
    } else {
      var n := Told(conns[0]);
      HeldIsReflected(conns[1..], ch, Held(conns[0], ch, before));
      LastPosConcat(conns[0].events, n, Reflected(conns[1..]), |Reflected(conns[1..])|, ch);
    }
  }

  /** A channel requested in every connection of a chain never drops out of the token: its position is the
      last one delivered before the client's last token, across all connections, or the one it started
      with. */
  lemma {:induction false} CursorSurvives(start: Token, conns: seq<Connection>, end: Token, ch: Channel)
    requires Chain(start, conns, end)
    requires forall i :: 0 <= i < |conns| ==> ch in conns[i].requested
    ensures Lookup(Decode(end), ch) == OrElse(LastPos(Reflected(conns), |Reflected(conns)|, ch), Lookup(Decode(start), ch))
    ensures ch in Decode(start) ==> ch in Decode(end)
  {
    ChainCursor(start, conns, end, ch);
    HeldIsReflected(conns, ch, Lookup(Decode(start), ch));
  }

  lemma {:induction false} AbsentStays(conns: seq<Connection>, ch: Channel)
    requires forall i :: 0 <= i < |conns| ==> LastPos(conns[i].events, Told(conns[i]), ch) == None
    ensures HeldAfter(conns, ch, None) == None
    decreases |conns|
  {
    if conns == [] {
    } else {
      AbsentStays(conns[1..], ch);
    }
  }

  /** A channel left out of one connection that hands over a token, and not delivered since, is never
      resurrected: no later token names it, whatever later connections request. */
  lemma {:induction false} NeverResurrected(start: Token, conns: seq<Connection>, end: Token, ch: Channel)
    requires Chain(start, conns, end) && conns != [] && ch !in conns[0].requested
    requires Told(conns[0]) > 0
    requires forall i :: 0 <= i < |conns| ==> LastPos(conns[i].events, Told(conns[i]), ch) == None
    ensures ch !in Decode(end)
  {
    ChainCursor(start, conns, end, ch);
    assert Held(conns[0], ch, Lookup(Decode(start), ch)) == None;
    forall i | 0 <= i < |conns[1..]| ensures conns[1..][i] == conns[i + 1] {
    }
    AbsentStays(conns[1..], ch);
  }
}
