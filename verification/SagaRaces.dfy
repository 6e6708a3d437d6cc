/** Concurrent creations of one tenant (ws/internal/provisioning/service.go). Each call runs the topic saga by
    itself; the topics and the tenant record are shared, and the record is unique. The Kafka adapter acts on its
    calls, but any of them may fail, with or without effect. */
module SagaRaces {

  type Call = int

  datatype Topic = DeadLetter | Default

  /** A call past its first create. The flags say which topics it takes itself to have created. */
  datatype Stage =
    | NeedDefault(dlqHere: bool)
    | NeedInsert(dlqHere: bool, defaultHere: bool)
    | RollDefault(dlqHere: bool, defaultHere: bool)
    | RollDlq(dlqHere: bool)
    | Over

  datatype State = State(topics: set<Topic>, tenant: bool, calls: map<Call, Stage>)

  datatype Label =
    | CreateDlq(c: Call) | FailDlq(c: Call, applied: bool)
    | CreateDefault(c: Call) | FailDefault(c: Call, applied: bool)
    | Insert(c: Call, works: bool)
    | RollbackDefault(c: Call, applied: bool) | RollbackDlq(c: Call, applied: bool)

  predicate Enabled(s: State, l: Label) {
    match l
    case CreateDlq(c) => c !in s.calls
    case FailDlq(c, _) => c !in s.calls
    case CreateDefault(c) => c in s.calls && s.calls[c].NeedDefault?
    case FailDefault(c, _) => c in s.calls && s.calls[c].NeedDefault?
    case Insert(c, _) => c in s.calls && s.calls[c].NeedInsert?
    case RollbackDefault(c, _) => c in s.calls && s.calls[c].RollDefault?
    case RollbackDlq(c, _) => c in s.calls && s.calls[c].RollDlq?
  }

  function Gained(topics: set<Topic>, topic: Topic, applied: bool): set<Topic> {
    if applied then topics + {topic} else topics
  }

  function Dropped(topics: set<Topic>, topic: Topic, applied: bool): set<Topic> {
    if applied then topics - {topic} else topics
  }

  /** What the call concludes from a create that did not fail. */
  predicate TakenAsOwn(reports: bool, topics: set<Topic>, topic: Topic) {
    !(reports && topic in topics)
  }

  /** The record is inserted only if the store works and there is none yet. */
  function DoInsert(s: State, c: Call, works: bool): State
    requires Enabled(s, Insert(c, works))
  {
    var st := s.calls[c];
    if works && !s.tenant then s.(tenant := true, calls := s.calls[c := Over])
    else s.(calls := s.calls[c := RollDefault(st.dlqHere, st.defaultHere)])
  }

  /** `reports` says whether creating an existing topic answers so. */
  function Apply(reports: bool, s: State, l: Label): State
    requires Enabled(s, l)
  {
    match l
    case CreateDlq(c) =>
      s.(topics := s.topics + {DeadLetter},
         calls := s.calls[c := NeedDefault(TakenAsOwn(reports, s.topics, DeadLetter))])
    case FailDlq(c, applied) => s.(topics := Gained(s.topics, DeadLetter, applied), calls := s.calls[c := Over])
    case CreateDefault(c) =>
      s.(topics := s.topics + {Default},
         calls := s.calls[c := NeedInsert(s.calls[c].dlqHere, TakenAsOwn(reports, s.topics, Default))])
    case FailDefault(c, applied) =>
      s.(topics := Gained(s.topics, Default, applied), calls := s.calls[c := RollDlq(s.calls[c].dlqHere)])
    case Insert(c, works) => DoInsert(s, c, works)
    case RollbackDefault(c, applied) =>
      s.(topics := Dropped(s.topics, Default, s.calls[c].defaultHere && applied),
         calls := s.calls[c := RollDlq(s.calls[c].dlqHere)])
    case RollbackDlq(c, applied) =>
      s.(topics := Dropped(s.topics, DeadLetter, s.calls[c].dlqHere && applied), calls := s.calls[c := Over])
  }

  ghost predicate Runs(reports: bool, s: State, ls: seq<Label>, t: State)
    decreases |ls|
  {
    if ls == [] then s == t else Enabled(s, ls[0]) && Runs(reports, Apply(reports, s, ls[0]), ls[1..], t)
  }

  /** Nobody is at work; a tenant that exists has its topics. */
  predicate Init(s: State) {
    s.calls == map[] && (s.tenant ==> DeadLetter in s.topics && Default in s.topics)
  }

  /** The call got past the topic's create and counts on the topic. */
  predicate Relies(st: Stage, topic: Topic) {
    st.NeedInsert? || (st.NeedDefault? && topic == DeadLetter)
  }

  predicate Needed(s: State, topic: Topic) {
    s.tenant || exists c :: c in s.calls && Relies(s.calls[c], topic)
  }

  /** The tenant, and every call still on its way to it, has its topics. */
  predicate Backed(s: State) {
    (Needed(s, DeadLetter) ==> DeadLetter in s.topics) && (Needed(s, Default) ==> Default in s.topics)
  }

  /** A rollback deletes a topic that the tenant or another call needs. */
  predicate Undercuts(s: State, l: Label) {
    || (l.RollbackDefault? && l.c in s.calls && s.calls[l.c].RollDefault?
        && s.calls[l.c].defaultHere && l.applied && Needed(s, Default))
    || (l.RollbackDlq? && l.c in s.calls && s.calls[l.c].RollDlq?
        && s.calls[l.c].dlqHere && l.applied && Needed(s, DeadLetter))
  }

  ghost predicate Undercut(reports: bool, s: State, ls: seq<Label>)
    decreases |ls|
  {
    ls != [] && Enabled(s, ls[0]) && (Undercuts(s, ls[0]) || Undercut(reports, Apply(reports, s, ls[0]), ls[1..]))
  }

  ghost predicate BackedThroughout(reports: bool, s: State, ls: seq<Label>)
    decreases |ls|
  {
    Backed(s) && (ls == [] || (Enabled(s, ls[0]) && BackedThroughout(reports, Apply(reports, s, ls[0]), ls[1..])))
  }

  /** A step makes a topic needed only if it puts it in place or it was needed before; a failing call stops
      needing its topics. */
  lemma {:induction false} NeededAfter(reports: bool, s: State, l: Label, topic: Topic)
    requires Enabled(s, l)
    ensures Needed(Apply(reports, s, l), topic) ==>
      Needed(s, topic) || (l.CreateDlq? && topic == DeadLetter) || (l.CreateDefault? && topic in {DeadLetter, Default})
    ensures (l.RollbackDefault? || l.RollbackDlq?) && Needed(s, topic) ==> Needed(Apply(reports, s, l), topic)
  {
    var t := Apply(reports, s, l);
    if Needed(t, topic) && !t.tenant {
      var c :| c in t.calls && Relies(t.calls[c], topic);
      assert c != l.c ==> c in s.calls && s.calls[c] == t.calls[c];
    }
    if (l.RollbackDefault? || l.RollbackDlq?) && Needed(s, topic) && !s.tenant {
      var c :| c in s.calls && Relies(s.calls[c], topic);
      assert c in t.calls && t.calls[c] == s.calls[c];
    }
  }

  lemma {:induction false} BackedStep(reports: bool, s: State, l: Label)
    requires Backed(s) && Enabled(s, l)
    ensures Backed(Apply(reports, s, l)) <==> !Undercuts(s, l)
  {
    NeededAfter(reports, s, l, DeadLetter);
    NeededAfter(reports, s, l, Default);
    if l.CreateDefault? {
      assert Relies(s.calls[l.c], DeadLetter);
    }
    if l.Insert? {
      assert Relies(s.calls[l.c], DeadLetter) && Relies(s.calls[l.c], Default);
    }
  }

  /** Over every run, the tenant and the calls on their way to it keep their topics exactly if no rollback
      deletes a topic that the tenant or another call needs. */
  lemma {:induction false} BackedIff(reports: bool, s: State, ls: seq<Label>, t: State)
    requires Backed(s) && Runs(reports, s, ls, t)
    ensures BackedThroughout(reports, s, ls) <==> !Undercut(reports, s, ls)
    decreases |ls|
  {
    if ls == [] {
    } else {
      BackedStep(reports, s, ls[0]);
      if !Undercuts(s, ls[0]) {
        BackedIff(reports, Apply(reports, s, ls[0]), ls[1..], t);
      }
    }
  }

  lemma {:induction false} RunBacked(reports: bool, s: State, ls: seq<Label>, t: State)
    requires Backed(s) && Runs(reports, s, ls, t) && !Undercut(reports, s, ls)
    ensures Backed(t)
    decreases |ls|
  {
    if ls == [] {
    } else {
      BackedStep(reports, s, ls[0]);
      RunBacked(reports, Apply(reports, s, ls[0]), ls[1..], t);
    }
  }

  /** In such a run an existing tenant has both topics. */
  lemma {:induction false} TenantHasTopics(reports: bool, s: State, ls: seq<Label>, t: State)
    requires Init(s) && Runs(reports, s, ls, t) && !Undercut(reports, s, ls) && t.tenant
    ensures DeadLetter in t.topics && Default in t.topics
  {
    RunBacked(reports, s, ls, t);
  }

  // ----- Topics and calls from their history -----

  /** Is the topic there after the step, given whether it was before? */
  predicate TopicNext(s: State, l: Label, topic: Topic, was: bool) {
    match l
    case CreateDlq(_) => was || topic == DeadLetter
    case FailDlq(_, applied) => was || (applied && topic == DeadLetter)
    case CreateDefault(_) => was || topic == Default
    case FailDefault(_, applied) => was || (applied && topic == Default)
    case Insert(_, _) => was
    case RollbackDefault(c, applied) =>
      was && !(applied && topic == Default && c in s.calls && s.calls[c].RollDefault? && s.calls[c].defaultHere)
    case RollbackDlq(c, applied) =>
      was && !(applied && topic == DeadLetter && c in s.calls && s.calls[c].RollDlq? && s.calls[c].dlqHere)
  }

  ghost predicate TopicLast(reports: bool, s: State, ls: seq<Label>, topic: Topic, was: bool)
    decreases |ls|
  {
    if ls == [] || !Enabled(s, ls[0]) then was
    else TopicLast(reports, Apply(reports, s, ls[0]), ls[1..], topic, TopicNext(s, ls[0], topic, was))
  }

  /** Over every run a topic is there exactly if the last call that took effect on it created it. */
  lemma {:induction false} TopicsFromHistory(reports: bool, s: State, ls: seq<Label>, t: State, topic: Topic)
    requires Runs(reports, s, ls, t)
    ensures topic in t.topics <==> TopicLast(reports, s, ls, topic, topic in s.topics)
    decreases |ls|
  {
    if ls == [] {
    } else {
      TopicsFromHistory(reports, Apply(reports, s, ls[0]), ls[1..], t, topic);
    }
  }

  predicate Has(past: seq<Label>, a: Label, b: Label) {
    a in past || b in past
  }

  /** What the labels `past` must hold for a call to be at the stage. */
  predicate Caused(st: Stage, c: Call, past: seq<Label>) {
    match st
    case NeedDefault(_) => CreateDlq(c) in past
    case NeedInsert(_, _) => CreateDlq(c) in past && CreateDefault(c) in past
    case RollDefault(_, _) => Has(past, Insert(c, true), Insert(c, false))
    case RollDlq(_) =>
      || Has(past, FailDefault(c, true), FailDefault(c, false))
      || Has(past, RollbackDefault(c, true), RollbackDefault(c, false))
    case Over =>
      || Has(past, FailDlq(c, true), FailDlq(c, false)) || Insert(c, true) in past
      || Has(past, RollbackDlq(c, true), RollbackDlq(c, false))
  }

  lemma {:induction false} StillCaused(st: Stage, c: Call, past: seq<Label>, l: Label)
    requires Caused(st, c, past)
    ensures Caused(st, c, past + [l])
  {
  }

  lemma {:induction false} MoveCaused(reports: bool, s: State, l: Label, past: seq<Label>)
    requires Enabled(s, l) && (l.c in s.calls ==> Caused(s.calls[l.c], l.c, past + [l]))
    ensures l.c in Apply(reports, s, l).calls && Caused(Apply(reports, s, l).calls[l.c], l.c, past + [l])
  {
    assert (past + [l])[|past|] == l;
  }

  lemma {:induction false} RunCaused(reports: bool, s: State, ls: seq<Label>, t: State, c: Call, past: seq<Label>)
    requires Runs(reports, s, ls, t) && (c in s.calls ==> Caused(s.calls[c], c, past))
    ensures c in t.calls ==> Caused(t.calls[c], c, past + ls)
    decreases |ls|
  {
    if ls == [] {
      assert past + ls == past;
    } else {
      if c in s.calls {
        StillCaused(s.calls[c], c, past, ls[0]);
      }
      if ls[0].c == c {
        MoveCaused(reports, s, ls[0], past);
      }
      RunCaused(reports, Apply(reports, s, ls[0]), ls[1..], t, c, past + [ls[0]]);
      assert past + [ls[0]] + ls[1..] == past + ls;
    }
  }

  /** Over every run a call is over only if its first create failed, or it inserted the record, or it went through
      its rollback; it rolls back only after a failed create or a failed insert. */
  lemma {:induction false} CallsRollBack(reports: bool, s: State, ls: seq<Label>, t: State, c: Call)
    requires Init(s) && Runs(reports, s, ls, t) && c in t.calls
    ensures Caused(t.calls[c], c, ls)
  {
    RunCaused(reports, s, ls, t, c, []);
    assert [] + ls == ls;
  }

  // ----- One creation at a time -----

  /** At most one call is in flight. */
  predicate Serial(s: State) {
    forall c, d :: c in s.calls && d in s.calls && !s.calls[c].Over? && !s.calls[d].Over? ==> c == d
  }

  ghost predicate SerialThroughout(reports: bool, s: State, ls: seq<Label>)
    decreases |ls|
  {
    Serial(s) && (ls == [] || (Enabled(s, ls[0]) && SerialThroughout(reports, Apply(reports, s, ls[0]), ls[1..])))
  }

  predicate OwnsNothing(st: Stage) {
    match st
    case NeedDefault(dlqHere) => !dlqHere
    case NeedInsert(dlqHere, defaultHere) => !dlqHere && !defaultHere
    case RollDefault(dlqHere, defaultHere) => !dlqHere && !defaultHere
    case RollDlq(dlqHere) => !dlqHere
    case Over => true
  }

  /** Once the tenant exists, a call in flight takes no topic as its own. */
  predicate Unowned(s: State) {
    s.tenant ==> forall c :: c in s.calls ==> OwnsNothing(s.calls[c])
  }

  lemma {:induction false} SerialStep(s: State, l: Label)
    requires Backed(s) && Unowned(s) && Serial(s) && Enabled(s, l)
    ensures !Undercuts(s, l) && Unowned(Apply(true, s, l))
  {
    if (l.RollbackDefault? || l.RollbackDlq?) && !s.tenant {
      forall c | c in s.calls ensures !Relies(s.calls[c], Default) && !Relies(s.calls[c], DeadLetter) {
        assert c != l.c ==> s.calls[c].Over?;
      }
    }
  }

  lemma {:induction false} RunSerial(s: State, ls: seq<Label>, t: State)
    requires Backed(s) && Unowned(s) && Runs(true, s, ls, t) && SerialThroughout(true, s, ls)
    ensures !Undercut(true, s, ls)
    decreases |ls|
  {
    if ls == [] {
    } else {
      SerialStep(s, ls[0]);
      BackedStep(true, s, ls[0]);
      RunSerial(Apply(true, s, ls[0]), ls[1..], t);
    }
  }

  /** A run of creations one after the other in which a rollback takes a topic that is needed. */
  ghost predicate SerialUndercut(reports: bool, s: State, ls: seq<Label>, t: State) {
    Init(s) && Runs(reports, s, ls, t) && SerialThroughout(reports, s, ls) && Undercut(reports, s, ls)
  }

  /** The tenant exists; a second creation takes its topics as new, cannot insert, and rolls back. */
  lemma {:induction false} SecondCreation() returns (s: State, ls: seq<Label>, t: State)
    ensures SerialUndercut(false, s, ls, t)
  {
    s := State({DeadLetter, Default}, true, map[]);
    ls := [CreateDlq(0), CreateDefault(0), Insert(0, true), RollbackDefault(0, true)];
    var s1 := Apply(false, s, ls[0]);
    var s2 := Apply(false, s1, ls[1]);
    var s3 := Apply(false, s2, ls[2]);
    t := Apply(false, s3, ls[3]);
    assert s3.calls[0] == RollDefault(true, true);
    assert Runs(false, s3, ls[3..], t) && SerialThroughout(false, s3, ls[3..]) && Undercut(false, s3, ls[3..]);
    assert Runs(false, s2, ls[2..], t) && SerialThroughout(false, s2, ls[2..]) && Undercut(false, s2, ls[2..]);
    assert Runs(false, s1, ls[1..], t) && SerialThroughout(false, s1, ls[1..]) && Undercut(false, s1, ls[1..]);
  }

  /** Creations of a tenant one after the other, whatever fails, never take away a topic that is needed, exactly
      if the adapter reports existing topics. */
  lemma {:induction false} SerialSafeIff(reports: bool)
    ensures reports <==> forall s, ls, t :: !SerialUndercut(reports, s, ls, t)
  {
    forall s, ls, t | SerialUndercut(reports, s, ls, t) ensures !reports {
      if reports {
        RunSerial(s, ls, t);
      }
    }
    if !reports {
      var s, ls, t := SecondCreation();
    }
  }

  /** Two calls at a time are too many even then: the first creates the topics, the second finds them and inserts
      the record, the first cannot insert and rolls back. The tenant is left without topics. */
  lemma {:induction false} LiveTenantLosesTopics() returns (ls: seq<Label>, t: State)
    ensures Init(State({}, false, map[])) && Runs(true, State({}, false, map[]), ls, t)
    ensures t.tenant && t.topics == {}
  {
    var s0 := State({}, false, map[]);
    ls := [CreateDlq(0), CreateDefault(0), CreateDlq(1), CreateDefault(1), Insert(1, true), Insert(0, true),
           RollbackDefault(0, true), RollbackDlq(0, true)];
    var s1 := Apply(true, s0, ls[0]);
    var s2 := Apply(true, s1, ls[1]);
    var s3 := Apply(true, s2, ls[2]);
    var s4 := Apply(true, s3, ls[3]);
    assert s4.calls[0] == NeedInsert(true, true) && s4.calls[1] == NeedInsert(false, false);
    var s5 := Apply(true, s4, ls[4]);
    var s6 := Apply(true, s5, ls[5]);
    var s7 := Apply(true, s6, ls[6]);
    t := Apply(true, s7, ls[7]);
    assert t.topics == {};
    assert Runs(true, s7, ls[7..], t);
    assert Runs(true, s6, ls[6..], t);
    assert Runs(true, s5, ls[5..], t);
    assert Runs(true, s4, ls[4..], t);
    assert Runs(true, s3, ls[3..], t);
    assert Runs(true, s2, ls[2..], t);
    assert Runs(true, s1, ls[1..], t);
  }
}
