/** What concurrent writers and topic deletions do to the topics that routing rules refer to
    (ws/internal/provisioning/service.go). */
module RuleTopics {
  import opened TopicRouting
  import opened RoutingService
  import opened RoutingRaces

  /** A stored rule refers to the topic, or a writer in flight has found it. */
  predicate Needed(s: State, suffix: Suffix) {
    AnyMentions(s.rules, suffix) || exists w :: w in s.writers && suffix in Probed(s.writers[w])
  }

  /** A topic goes while it is needed. */
  predicate Undercuts(s: State, l: Label) {
    l.Commit? && l.w in s.writers && s.writers[l.w].Deleting? && Needed(s, s.writers[l.w].s)
  }

  ghost predicate Undercut(cfg: Config, s: State, ls: seq<Label>)
    decreases |ls|
  {
    ls != [] && Enabled(cfg, s, ls[0]) && (Undercuts(s, ls[0]) || Undercut(cfg, Apply(cfg, s, ls[0]), ls[1..]))
  }

  /** The topics of all stored rules exist, and so do those a writer in flight has found. */
  predicate AllProvisioned(s: State) {
    Provisioned(s.rules, s.topics) && forall w :: w in s.writers ==> Probed(s.writers[w]) <= s.topics
  }

  lemma {:induction false} StillProvisioned(rules: seq<Rule>, topics: set<Suffix>, s: Suffix)
    requires Provisioned(rules, topics) && !AnyMentions(rules, s)
    ensures Provisioned(rules, topics - {s})
  {
    forall i | 0 <= i < |rules| ensures RuleProvisioned(rules[i], topics - {s}) {
      assert RuleProvisioned(rules[i], topics) && !Mentions(rules[i], s);
    }
  }

  lemma {:induction false} MoreProvisioned(rules: seq<Rule>, topics: set<Suffix>, more: set<Suffix>)
    requires Provisioned(rules, topics) && topics <= more
    ensures Provisioned(rules, more)
  {
    forall i | 0 <= i < |rules| ensures RuleProvisioned(rules[i], more) {
      assert RuleProvisioned(rules[i], topics);
    }
  }

  lemma {:induction false} MentionUnprovisioned(rules: seq<Rule>, topics: set<Suffix>, suffix: Suffix)
    requires AnyMentions(rules, suffix) && suffix != DEFAULT && suffix !in topics
    ensures !Provisioned(rules, topics)
  {
    var i :| 0 <= i < |rules| && Mentions(rules[i], suffix);
    assert suffix in [rules[i].ingress] + rules[i].egress;
    assert !RuleProvisioned(rules[i], topics);
  }

  lemma {:induction false} DeleteStep(cfg: Config, s: State, l: Label)
    requires AllProvisioned(s) && IntentsOk(s, cfg) && Enabled(cfg, s, l) && l.Commit? && s.writers[l.w].Deleting?
    ensures AllProvisioned(Apply(cfg, s, l)) <==> !Undercuts(s, l)
  {
    var t, suffix := Apply(cfg, s, l), s.writers[l.w].s;
    assert IntentOk(s.writers[l.w], cfg);
    if AnyMentions(s.rules, suffix) {
      MentionUnprovisioned(s.rules, t.topics, suffix);
    } else {
      StillProvisioned(s.rules, s.topics, suffix);
      forall w | w in s.writers ensures Probed(t.writers[w]) == Probed(s.writers[w]) {
      }
    }
  }

  /** A step keeps all topics in place exactly if it deletes none that is needed. */
  lemma {:induction false} ProvisionedStep(cfg: Config, s: State, l: Label)
    requires AllProvisioned(s) && IntentsOk(s, cfg) && Enabled(cfg, s, l)
    ensures AllProvisioned(Apply(cfg, s, l)) <==> !Undercuts(s, l)
  {
    if l.Commit? && s.writers[l.w].Deleting? {
      DeleteStep(cfg, s, l);
    } else if l.Commit? && s.writers[l.w].Replacing? {
      MoreProvisioned(s.writers[l.w].rules, s.writers[l.w].probed, s.topics);
    } else if l.CreateTopic? {
      MoreProvisioned(s.rules, s.topics, s.topics + {l.s});
    }
  }

  lemma {:induction false} IntentsStep(cfg: Config, s: State, l: Label)
    requires IntentsOk(s, cfg) && Enabled(cfg, s, l)
    ensures IntentsOk(Apply(cfg, s, l), cfg)
  {
  }

  ghost predicate ProvisionedThroughout(cfg: Config, s: State, ls: seq<Label>)
    decreases |ls|
  {
    && AllProvisioned(s)
    && (ls == [] || (Enabled(cfg, s, ls[0]) && ProvisionedThroughout(cfg, Apply(cfg, s, ls[0]), ls[1..])))
  }

  /** The topics of the stored rules, and those found by writers in flight, exist throughout a run exactly if no
      deletion goes through while a stored rule refers to the topic or a writer in flight has found it. */
  lemma {:induction false} ProvisionedIff(cfg: Config, degree: nat, s: State, ls: seq<Label>, t: State)
    requires AllProvisioned(s) && IntentsOk(s, cfg) && Runs(cfg, degree, s, ls, t)
    ensures ProvisionedThroughout(cfg, s, ls) <==> !Undercut(cfg, s, ls)
    decreases |ls|
  {
    if ls == [] {
    } else {
      ProvisionedStep(cfg, s, ls[0]);
      IntentsStep(cfg, s, ls[0]);
      if !Undercuts(s, ls[0]) {
        ProvisionedIff(cfg, degree, Apply(cfg, s, ls[0]), ls[1..], t);
      }
    }
  }

  // ----- Deletions apart from the other writers -----

  /** No add or replacement is in flight while a deletion is. */
  predicate Apart(s: State) {
    forall v, w :: v in s.writers && w in s.writers && s.writers[v].Deleting? ==>
      !s.writers[w].Adding? && !s.writers[w].Replacing?
  }

  ghost predicate ApartThroughout(cfg: Config, s: State, ls: seq<Label>)
    decreases |ls|
  {
    Apart(s) && (ls == [] || (Enabled(cfg, s, ls[0]) && ApartThroughout(cfg, Apply(cfg, s, ls[0]), ls[1..])))
  }

  /** No stored rule mentions a topic that is about to be deleted. */
  predicate DeletesClear(s: State) {
    forall w :: w in s.writers && s.writers[w].Deleting? ==> !AnyMentions(s.rules, s.writers[w].s)
  }

  lemma {:induction false} RunApart(cfg: Config, degree: nat, s: State, ls: seq<Label>, t: State)
    requires DeletesClear(s) && Runs(cfg, degree, s, ls, t) && ApartThroughout(cfg, s, ls)
    ensures !Undercut(cfg, s, ls)
    decreases |ls|
  {
    if ls == [] {
    } else {
      RunApart(cfg, degree, Apply(cfg, s, ls[0]), ls[1..], t);
    }
  }

  /** If no add or replacement is ever in flight together with a topic deletion, no rule is ever without its
      topics. */
  lemma {:induction false} ApartIsSafe(cfg: Config, degree: nat, ls: seq<Label>, t: State)
    requires Runs(cfg, degree, START, ls, t) && ApartThroughout(cfg, START, ls)
    ensures ProvisionedThroughout(cfg, START, ls) && Provisioned(t.rules, t.topics)
  {
    RunApart(cfg, degree, START, ls, t);
    ProvisionedIff(cfg, degree, START, ls, t);
    LastProvisioned(cfg, degree, START, ls, t);
  }

  lemma {:induction false} LastProvisioned(cfg: Config, degree: nat, s: State, ls: seq<Label>, t: State)
    requires Runs(cfg, degree, s, ls, t) && ProvisionedThroughout(cfg, s, ls)
    ensures AllProvisioned(t)
    decreases |ls|
  {
    if ls == [] {
    } else {
      LastProvisioned(cfg, degree, Apply(cfg, s, ls[0]), ls[1..], t);
    }
  }

  // ----- A rule without its topic -----

  /** The topics an add looks up, in its order. */
  function Asked(r: Rule): seq<Suffix> {
    (if r.ingress == DEFAULT then [] else [r.ingress]) + r.egress
  }

  /** All topics of the rule can be created. */
  predicate Creatable(r: Rule, cfg: Config) {
    forall i :: 0 <= i < |Asked(r)| ==> cfg.suffixOk(Asked(r)[i])
  }

  function FirstAsked(r: Rule, n: nat): set<Suffix>
    requires n <= |Asked(r)|
  {
    set i | 0 <= i < n :: Asked(r)[i]
  }

  /** An empty table while writer 0 looks up the topics of `r`. */
  function Looking(r: Rule, topics: set<Suffix>, n: nat): State
    requires n <= |Asked(r)|
  {
    State([], topics, map[0 := Adding(r, FirstAsked(r, n))])
  }

  function Creating(r: Rule, n: nat): State
    requires n <= |Asked(r)|
  {
    State([], FirstAsked(r, n), map[])
  }

  lemma {:induction false} AskedOk(cfg: Config, r: Rule, i: nat)
    requires RuleOk(r, cfg) && i < |Asked(r)|
    ensures Mentions(r, Asked(r)[i]) && Asked(r)[i] != EMPTY && !Reserved(Asked(r)[i])
  {
    if r.ingress == DEFAULT {
      assert EgressOk(r, r.egress[i]);
    } else if i > 0 {
      assert EgressOk(r, r.egress[i - 1]);
    }
  }

  lemma {:induction false} CreateAll(cfg: Config, r: Rule, n: nat, rest: seq<Label>, t: State) returns (ls: seq<Label>)
    requires RuleOk(r, cfg) && Creatable(r, cfg) && n <= |Asked(r)|
    requires Runs(cfg, 1, Creating(r, n), rest, t)
    ensures Runs(cfg, 1, START, ls, t)
  {
    if n == 0 {
      assert Creating(r, 0) == START;
      ls := rest;
    } else {
      AskedOk(cfg, r, n - 1);
      var l := CreateTopic(Asked(r)[n - 1]);
      assert Adders(Creating(r, n - 1)) == {};
      assert Apply(cfg, Creating(r, n - 1), l) == Creating(r, n);
      RunsPrepend(cfg, 1, Creating(r, n - 1), l, rest, t);
      ls := CreateAll(cfg, r, n - 1, [l] + rest, t);
    }
  }

  lemma {:induction false} StartLooking(cfg: Config, r: Rule, topics: set<Suffix>, rest: seq<Label>, t: State)
    requires RuleOk(r, cfg) && EgressAllowed([r], cfg) && WithinLimits(1, cfg)
    requires Runs(cfg, 1, Looking(r, topics, 0), rest, t)
    ensures Runs(cfg, 1, State([], topics, map[]), [CheckAdd(0, r)] + rest, t)
  {
    var s := State([], topics, map[]);
    assert Adders(s) == {} && FirstAsked(r, 0) == {};
    assert Apply(cfg, s, CheckAdd(0, r)) == Looking(r, topics, 0);
    RunsPrepend(cfg, 1, s, CheckAdd(0, r), rest, t);
  }

  lemma {:induction false} ProbeAll(cfg: Config, r: Rule, topics: set<Suffix>, n: nat, rest: seq<Label>, t: State)
      returns (ls: seq<Label>)
    requires RuleOk(r, cfg) && n <= |Asked(r)| && (forall i :: 0 <= i < |Asked(r)| ==> Asked(r)[i] in topics)
    requires Runs(cfg, 1, Looking(r, topics, n), rest, t)
    ensures Runs(cfg, 1, Looking(r, topics, 0), ls, t)
  {
    if n == 0 {
      ls := rest;
    } else {
      AskedOk(cfg, r, n - 1);
      var l := Probe(0, Asked(r)[n - 1]);
      var m := Looking(r, topics, n - 1);
      assert Adders(m) == {0};
      assert m.writers[0].probed + {Asked(r)[n - 1]} == Looking(r, topics, n).writers[0].probed;
      assert Apply(cfg, m, l).writers == Looking(r, topics, n).writers;
      RunsPrepend(cfg, 1, m, l, rest, t);
      ls := ProbeAll(cfg, r, topics, n - 1, [l] + rest, t);
    }
  }

  lemma {:induction false} FirstInsert(cfg: Config, r: Rule, probed: set<Suffix>)
    requires RuleOk(r, cfg)
    ensures Committed([], Adding(r, probed)) == [r]
  {
    assert [] + [r] == [r];
    forall i | 0 <= i < |r.egress| ensures r.egress[i] != r.ingress {
      assert EgressOk(r, r.egress[i]);
    }
  }

  /** With all topics found, the rule goes in and the topic goes. */
  lemma {:induction false} CommitBoth(cfg: Config, r: Rule, suffix: Suffix, s: State) returns (ls: seq<Label>, t: State)
    requires RuleOk(r, cfg) && Mentions(r, suffix) && !Reserved(suffix) && s.rules == []
    requires s.writers.Keys == {0} && s.writers[0].Adding? && s.writers[0].r == r && Ready(s.writers[0])
    ensures Runs(cfg, 1, s, ls, t) && t.rules == [r] && !Provisioned(t.rules, t.topics)
  {
    var s1 := s.(writers := s.writers[1 := Deleting(suffix)]);
    var s2 := State([r], s.topics, s1.writers[0 := Finished]);
    t := State([r], s.topics - {suffix}, s2.writers[1 := Finished]);
    assert Adders(s) == {0} && Adders(s1) == {0} && Adders(s2) == {} && Adders(t) == {};
    FirstInsert(cfg, r, s.writers[0].probed);
    assert s1 == Apply(cfg, s, CheckDelete(1, suffix));
    assert s2 == Apply(cfg, s1, Commit(0));
    assert t == Apply(cfg, s2, Commit(1));
    RunsPrepend(cfg, 1, s2, Commit(1), [], t);
    RunsPrepend(cfg, 1, s1, Commit(0), [Commit(1)], t);
    RunsPrepend(cfg, 1, s, CheckDelete(1, suffix), [Commit(0)] + [Commit(1)], t);
    ls := [CheckDelete(1, suffix)] + ([Commit(0)] + [Commit(1)]);
    assert Mentions(t.rules[0], suffix);
    MentionUnprovisioned(t.rules, t.topics, suffix);
  }

  lemma {:induction false} AllAsked(cfg: Config, r: Rule)
    requires RuleOk(r, cfg)
    ensures Ready(Adding(r, FirstAsked(r, |Asked(r)|)))
  {
    var all := FirstAsked(r, |Asked(r)|);
    forall s | s in [r.ingress] + r.egress ensures s == DEFAULT || s in all {
      assert s == DEFAULT || s in Asked(r);
    }
  }

  /** One add and one deletion are enough to leave a rule without a topic: any valid rule whose topics can be
      created, and any of its topics but the default, will do. */
  lemma {:induction false} DanglingReference(cfg: Config, r: Rule, suffix: Suffix) returns (ls: seq<Label>, t: State)
    requires RuleOk(r, cfg) && EgressAllowed([r], cfg) && WithinLimits(1, cfg) && Creatable(r, cfg)
    requires Mentions(r, suffix) && suffix != DEFAULT
    ensures Runs(cfg, 1, START, ls, t) && t.rules == [r] && !Provisioned(t.rules, t.topics)
  {
    var n := |Asked(r)|;
    var made := Creating(r, n);
    assert suffix in Asked(r);
    var i :| 0 <= i < n && Asked(r)[i] == suffix;
    AskedOk(cfg, r, i);
    AllAsked(cfg, r);
    ls, t := CommitBoth(cfg, r, suffix, Looking(r, made.topics, n));
    ls := ProbeAll(cfg, r, made.topics, n, ls, t);
    StartLooking(cfg, r, made.topics, ls, t);
    ls := CreateAll(cfg, r, n, [CheckAdd(0, r)] + ls, t);
  }
}
