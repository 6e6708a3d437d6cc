/** Lock-free reads of the copy-on-write subscription index (ws/internal/server/connection.go).

    The index maps a channel to a cell holding an immutable client list.  A writer works under the
    mutex and swaps whole lists; `Get` takes the read lock only to fetch the cell and loads the cell
    later, when the cell may have been overwritten or removed from the map. */
module IndexReads {
  import opened Common
  import opened SubscriptionIndexing

  type CellId = nat

  /** A cell that was never stored to holds nothing. */
  type Cell = Option<seq<ClientId>>

  /** The writer holding the mutex, and what it has left to do. */
  datatype Writer =
    | NoWriter
    | Joining(client: ClientId, todo: seq<Channel>)
    | Publishing(client: ClientId, todo: seq<Channel>)   // the cell of todo[0] exists; store to come
    | Dropping(client: ClientId, todo: seq<Channel>)

  datatype Store = Store(cells: map<CellId, Cell>, index: map<Channel, CellId>, next: CellId, writer: Writer)

  datatype Label = LockAdd(client: ClientId, channels: seq<Channel>)
                 | LockRemove(client: ClientId, channels: seq<Channel>)
                 | MapCell | Publish | RemoveHead | Unlock

  function Contents(s: Store, cell: CellId): seq<ClientId> {
    if cell in s.cells && s.cells[cell].Some? then s.cells[cell].value else []
  }

  /** The subscriber list of a channel at one instant. */
  function View(s: Store, ch: Channel): seq<ClientId> {
    if ch in s.index then Contents(s, s.index[ch]) else []
  }

  predicate Enabled(s: Store, l: Label) {
    match l
    case LockAdd(_, _) => s.writer == NoWriter
    case LockRemove(_, _) => s.writer == NoWriter
    case MapCell => s.writer.Joining? && s.writer.todo != []
    case Publish => s.writer.Publishing? && s.writer.todo != [] && s.writer.todo[0] in s.index
    case RemoveHead => s.writer.Dropping? && s.writer.todo != []
    case Unlock => (s.writer.Joining? || s.writer.Dropping?) && s.writer.todo == []
  }

  /** Get or create the cell of the next channel. */
  function DoMapCell(s: Store): Store
    requires Enabled(s, MapCell)
  {
    var ch := s.writer.todo[0];
    var t := s.(writer := Publishing(s.writer.client, s.writer.todo));
    if ch in s.index then t
    else t.(cells := s.cells[s.next := None], index := s.index[ch := s.next], next := s.next + 1)
  }

  /** Swap in the list with the client appended, unless it is there already. */
  function DoPublish(s: Store): Store
    requires Enabled(s, Publish)
  {
    var cell := s.index[s.writer.todo[0]];
    var current := Contents(s, cell);
    var t := s.(writer := Joining(s.writer.client, s.writer.todo[1..]));
    if s.writer.client in current then t
    else t.(cells := s.cells[cell := Some(current + [s.writer.client])])
  }

  /** Swap in the list without the client; a list that would become empty is unmapped instead. */
  function DoRemoveHead(s: Store): Store
    requires Enabled(s, RemoveHead)
  {
    var ch := s.writer.todo[0];
    var t := s.(writer := Dropping(s.writer.client, s.writer.todo[1..]));
    if s.writer.client !in View(s, ch) then t
    else if Leave(View(s, ch), s.writer.client) == [] then t.(index := s.index - {ch})
    else t.(cells := s.cells[s.index[ch] := Some(Leave(View(s, ch), s.writer.client))])
  }

  function Apply(s: Store, l: Label): Store
    requires Enabled(s, l)
  {
    match l
    case LockAdd(c, channels) => s.(writer := Joining(c, channels))
    case LockRemove(c, channels) => s.(writer := Dropping(c, channels))
    case MapCell => DoMapCell(s)
    case Publish => DoPublish(s)
    case RemoveHead => DoRemoveHead(s)
    case Unlock => s.(writer := NoWriter)
  }

  ghost predicate Next(s: Store, t: Store) {
    t == s || exists l :: Enabled(s, l) && t == Apply(s, l)
  }

  ghost predicate StepAt(tr: seq<Store>, i: nat)
    requires 0 < i < |tr|
  {
    Next(tr[i - 1], tr[i])
  }

  /** A run: consecutive states, each a step (or a pause) after the one before. */
  ghost predicate Trace(tr: seq<Store>) {
    && tr != [] && Sound(tr[0])
    && (forall i :: 0 < i < |tr| ==> StepAt(tr, i))
  }

  /** Every mapped cell was allocated, and no two channels share one. */
  ghost predicate Sound(s: Store) {
    && (forall ch :: ch in s.index ==> s.index[ch] < s.next)
    && (forall a, b :: a in s.index && b in s.index && s.index[a] == s.index[b] ==> a == b)
  }

  lemma {:induction false} SoundStep(s: Store, l: Label)
    requires Sound(s) && Enabled(s, l)
    ensures Sound(Apply(s, l))
  {
  }

  lemma {:induction false} TraceSound(tr: seq<Store>, i: nat)
    requires Trace(tr) && i < |tr|
    ensures Sound(tr[i])
  {
    if i == 0 {
    } else {
      TraceSound(tr, i - 1);
      assert StepAt(tr, i);
      if tr[i] != tr[i - 1] {
        var l :| Enabled(tr[i - 1], l) && tr[i] == Apply(tr[i - 1], l);
        SoundStep(tr[i - 1], l);
      }
    }
  }

  /** An unmapped cell: allocated earlier, in no channel's entry. */
  ghost predicate Dead(s: Store, cell: CellId) {
    cell < s.next && forall ch :: ch in s.index ==> s.index[ch] != cell
  }

  /** A dead cell is never stored to and never mapped again. */
  lemma {:induction false} DeadStaysDead(s: Store, l: Label, cell: CellId)
    requires Sound(s) && Enabled(s, l) && Dead(s, cell)
    ensures Dead(Apply(s, l), cell) && Contents(Apply(s, l), cell) == Contents(s, cell)
  {
  }

  /** A mapped cell stays its channel's cell, or dies holding the list the channel had just before. */
  lemma {:induction false} MappedOrDies(s: Store, l: Label, ch: Channel)
    requires Sound(s) && Enabled(s, l) && ch in s.index
    ensures var t := Apply(s, l); var cell := s.index[ch];
            || (ch in t.index && t.index[ch] == cell)
            || (Dead(t, cell) && Contents(t, cell) == View(s, ch))
  {
  }

  /** Is `cell` still the channel's cell, or dead with the contents `list`? */
  ghost predicate MappedOrDead(s: Store, ch: Channel, cell: CellId, list: seq<ClientId>) {
    (ch in s.index && s.index[ch] == cell) || (Dead(s, cell) && Contents(s, cell) == list)
  }

  lemma {:induction false} MappedOrDeadStep(s: Store, t: Store, ch: Channel, cell: CellId, list: seq<ClientId>)
    requires Sound(s) && Next(s, t) && MappedOrDead(s, ch, cell, list)
    ensures MappedOrDead(t, ch, cell, if Dead(s, cell) then list else View(s, ch))
  {
    if t != s {
      var l :| Enabled(s, l) && t == Apply(s, l);
      if Dead(s, cell) { DeadStaysDead(s, l, cell); } else { MappedOrDies(s, l, ch); }
    }
  }

  /** Where a cell fetched at state `i` stands at state `j`: still mapped, or dead with the list its
      channel had at some state `k` in between. */
  lemma {:induction false} FetchedCell(tr: seq<Store>, i: nat, j: nat, ch: Channel) returns (k: nat)
    requires Trace(tr) && i <= j < |tr| && ch in tr[i].index
    ensures i <= k <= j && MappedOrDead(tr[j], ch, tr[i].index[ch], View(tr[k], ch))
    decreases j
  {
    if i == j {
      k := i;
    } else {
      k := FetchedCell(tr, i, j - 1, ch);
      TraceSound(tr, j - 1);
      assert StepAt(tr, j);
      MappedOrDeadStep(tr[j - 1], tr[j], ch, tr[i].index[ch], View(tr[k], ch));
      if !Dead(tr[j - 1], tr[i].index[ch]) { k := j - 1; }
    }
  }

  /** `Get`: the value it returns when it looks the channel up at state `i` and loads at state `j`. */
  function GetResult(tr: seq<Store>, i: nat, j: nat, ch: Channel): seq<ClientId>
    requires i <= j < |tr|
  {
    if ch in tr[i].index then Contents(tr[j], tr[i].index[ch]) else []
  }

  /** Linearizable reads: in every interleaving with writers, the list returned by `Get` is the
      channel's subscriber list at some instant between its lookup and its load. */
  lemma {:induction false} GetIsLinearizable(tr: seq<Store>, i: nat, j: nat, ch: Channel)
    requires Trace(tr) && i <= j < |tr|
    ensures exists k :: i <= k <= j && GetResult(tr, i, j, ch) == View(tr[k], ch)
  {
    if ch in tr[i].index {
      var k := FetchedCell(tr, i, j, ch);
      assert GetResult(tr, i, j, ch) == View(tr[j], ch) || GetResult(tr, i, j, ch) == View(tr[k], ch);
    } else {
      assert GetResult(tr, i, j, ch) == View(tr[i], ch);
    }
  }

  /** The cells implement the index as a value: each writer step changes the channels' lists exactly as
      `AddOne` and `RemoveOne` change the map `m` they stand for. */
  ghost predicate Represents(s: Store, m: Index) {
    forall ch :: View(s, ch) == Subscribers(m, ch)
  }

  lemma {:induction false} WriterRefinesIndex(s: Store, l: Label, m: Index)
    requires Sound(s) && Enabled(s, l) && Represents(s, m)
    ensures l.Publish? ==> Represents(Apply(s, l), AddOne(m, s.writer.todo[0], s.writer.client))
    ensures l.RemoveHead? ==> Represents(Apply(s, l), RemoveOne(m, s.writer.todo[0], s.writer.client))
    ensures !l.Publish? && !l.RemoveHead? ==> Represents(Apply(s, l), m)
  {
    var t := Apply(s, l);
    forall d ensures l.Publish? ==> View(t, d) == Subscribers(AddOne(m, s.writer.todo[0], s.writer.client), d) {
      assert View(s, d) == Subscribers(m, d);
    }
    forall d ensures l.RemoveHead? ==> View(t, d) == Subscribers(RemoveOne(m, s.writer.todo[0], s.writer.client), d) {
      assert View(s, d) == Subscribers(m, d);
    }
    forall d ensures !l.Publish? && !l.RemoveHead? ==> View(t, d) == Subscribers(m, d) {
      assert View(s, d) == Subscribers(m, d);
    }
  }

  ghost predicate Runs(s: Store, ls: seq<Label>, t: Store)
    decreases |ls|
  {
    if ls == [] then s == t else Enabled(s, ls[0]) && Runs(Apply(s, ls[0]), ls[1..], t)
  }

  predicate NoLock(ls: seq<Label>) {
    forall i :: 0 <= i < |ls| ==> !ls[i].LockAdd? && !ls[i].LockRemove?
  }

  lemma {:induction false} OneMore(m: Index, done: seq<Channel>, ch: Channel, c: ClientId)
    ensures AddAll(m, done + [ch], c) == AddOne(AddAll(m, done, c), ch, c)
    ensures RemoveAll(m, done + [ch], c) == RemoveOne(RemoveAll(m, done, c), ch, c)
  {
    assert (done + [ch])[..|done|] == done;
  }

  /** Without a lock the store rests. */
  lemma {:induction false} Rests(s: Store, ls: seq<Label>, t: Store)
    requires s.writer == NoWriter && Runs(s, ls, t) && NoLock(ls)
    ensures t == s
  {
  }

  lemma {:induction false} AddStep(s: Store, l: Label, m: Index, done: seq<Channel>)
    requires Sound(s) && Enabled(s, l) && (s.writer.Joining? || s.writer.Publishing?)
    requires Represents(s, AddAll(m, done, s.writer.client))
    ensures var t := Apply(s, l); var c := s.writer.client; var todo := s.writer.todo;
      && Sound(t)
      && (l.Unlock? ==> t.writer == NoWriter && todo == [] && Represents(t, AddAll(m, done, c)))
      && (l.MapCell? ==> t.writer == Publishing(c, todo) && Represents(t, AddAll(m, done, c)))
      && (l.Publish? ==> t.writer == Joining(c, todo[1..]) && Represents(t, AddAll(m, done + [todo[0]], c)))
  {
    SoundStep(s, l);
    WriterRefinesIndex(s, l, AddAll(m, done, s.writer.client));
    if l.Publish? {
      OneMore(m, done, s.writer.todo[0], s.writer.client);
    }
  }

  lemma {:induction false} RemoveStep(s: Store, l: Label, m: Index, done: seq<Channel>)
    requires Sound(s) && Enabled(s, l) && s.writer.Dropping? && Represents(s, RemoveAll(m, done, s.writer.client))
    ensures var t := Apply(s, l); var c := s.writer.client; var todo := s.writer.todo;
      && Sound(t)
      && (l.Unlock? ==> t.writer == NoWriter && todo == [] && Represents(t, RemoveAll(m, done, c)))
      && (l.RemoveHead? ==> t.writer == Dropping(c, todo[1..]) && Represents(t, RemoveAll(m, done + [todo[0]], c)))
  {
    SoundStep(s, l);
    WriterRefinesIndex(s, l, RemoveAll(m, done, s.writer.client));
    if l.RemoveHead? {
      OneMore(m, done, s.writer.todo[0], s.writer.client);
    }
  }

  /** A writer that has done `done` and has the rest to do ends with all of it done. */
  lemma {:induction false} AddRun(s: Store, ls: seq<Label>, t: Store, m: Index, done: seq<Channel>)
    requires Sound(s) && Runs(s, ls, t) && NoLock(ls) && t.writer == NoWriter
    requires (s.writer.Joining? || s.writer.Publishing?) && Represents(s, AddAll(m, done, s.writer.client))
    ensures Represents(t, AddAll(m, done + s.writer.todo, s.writer.client))
    decreases |ls|
  {
    AddStep(s, ls[0], m, done);
    if ls[0].Unlock? {
      Rests(Apply(s, ls[0]), ls[1..], t);
      assert done + s.writer.todo == done;
    } else if ls[0].Publish? {
      assert done + s.writer.todo == done + [s.writer.todo[0]] + s.writer.todo[1..];
      AddRun(Apply(s, ls[0]), ls[1..], t, m, done + [s.writer.todo[0]]);
    } else {
      AddRun(Apply(s, ls[0]), ls[1..], t, m, done);
    }
  }

  lemma {:induction false} RemoveRun(s: Store, ls: seq<Label>, t: Store, m: Index, done: seq<Channel>)
    requires Sound(s) && Runs(s, ls, t) && NoLock(ls) && t.writer == NoWriter
    requires s.writer.Dropping? && Represents(s, RemoveAll(m, done, s.writer.client))
    ensures Represents(t, RemoveAll(m, done + s.writer.todo, s.writer.client))
    decreases |ls|
  {
    RemoveStep(s, ls[0], m, done);
    if ls[0].Unlock? {
      Rests(Apply(s, ls[0]), ls[1..], t);
      assert done + s.writer.todo == done;
    } else {
      assert done + s.writer.todo == done + [s.writer.todo[0]] + s.writer.todo[1..];
      RemoveRun(Apply(s, ls[0]), ls[1..], t, m, done + [s.writer.todo[0]]);
    }
  }

  /** From taking the lock to giving it back, a writer takes every channel's list from what the index was to what
      adding, or removing, all its channels makes of it. */
  lemma {:induction false} CriticalSection(s: Store, lock: Label, ls: seq<Label>, t: Store, m: Index)
    requires Sound(s) && Represents(s, m) && (lock.LockAdd? || lock.LockRemove?) && Enabled(s, lock)
    requires Runs(Apply(s, lock), ls, t) && NoLock(ls) && t.writer == NoWriter
    ensures lock.LockAdd? ==> Represents(t, AddAll(m, lock.channels, lock.client))
    ensures lock.LockRemove? ==> Represents(t, RemoveAll(m, lock.channels, lock.client))
  {
    SoundStep(s, lock);
    WriterRefinesIndex(s, lock, m);
    assert [] + lock.channels == lock.channels;
    if lock.LockAdd? {
      AddRun(Apply(s, lock), ls, t, m, []);
    } else {
      RemoveRun(Apply(s, lock), ls, t, m, []);
    }
  }
}
