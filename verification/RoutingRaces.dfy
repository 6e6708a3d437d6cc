/** Concurrent writers of one tenant's routing rules (ws/internal/provisioning/service.go,
    ws/internal/provisioning/repository/routing_rules.go). An add checks the limits first, then looks up its topics
    one by one, and inserts later; the insert re-checks disjointness and uniqueness under the tenant's lock. A
    replacement set is checked by itself, looks up its topics in the same way and is swapped in later under the
    same lock. A topic deletion looks for rules that mention the topic first and deletes later; it takes no lock. */
module RoutingRaces {
  import opened Common
  import opened TopicRouting
  import opened RoutingService

  type Writer = int

  /** A writer between its first check and its commit, with the topics it has found so far, or finished. */
  datatype Intent =
    | Adding(r: Rule, probed: set<Suffix>) | Replacing(rules: seq<Rule>, probed: set<Suffix>) | Deleting(s: Suffix)
    | Finished

  datatype State = State(rules: seq<Rule>, topics: set<Suffix>, writers: map<Writer, Intent>)

  datatype Label =
    | CheckAdd(w: Writer, r: Rule) | CheckReplace(w: Writer, rules: seq<Rule>) | Probe(w: Writer, s: Suffix)
    | CheckDelete(w: Writer, s: Suffix) | Commit(w: Writer) | Abandon(w: Writer) | DeleteAll | CreateTopic(s: Suffix)

  /** Both the configured and the edition's limit. */
  predicate WithinLimits(n: int, cfg: Config) {
    WithinMax(n, cfg.maxRules) && WithinMax(n, cfg.editionRules)
  }

  predicate AnyMentions(rules: seq<Rule>, s: Suffix) {
    exists i :: 0 <= i < |rules| && Mentions(rules[i], s)
  }

  /** The writer has to find the topic before it commits; the default topic is not looked up. */
  predicate Asks(intent: Intent, s: Suffix) {
    match intent
    case Adding(r, _) => s != DEFAULT && Mentions(r, s)
    case Replacing(rules, _) => s != DEFAULT && AnyMentions(rules, s)
    case _ => false
  }

  /** The writer has found all topics it asks for. */
  predicate Ready(intent: Intent) {
    match intent
    case Adding(r, probed) => RuleProvisioned(r, probed)
    case Replacing(rules, probed) => Provisioned(rules, probed)
    case Deleting(_) => true
    case Finished => false
  }

  predicate Enabled(cfg: Config, s: State, l: Label) {
    match l
    case CheckAdd(w, r) =>
      w !in s.writers && RuleOk(r, cfg) && EgressAllowed([r], cfg) && WithinLimits(|s.rules| + 1, cfg)
    case CheckReplace(w, rules) =>
      w !in s.writers && RulesOk(rules, cfg) && EgressAllowed(rules, cfg) && WithinLimits(|rules|, cfg)
    case Probe(w, suffix) => w in s.writers && Asks(s.writers[w], suffix) && suffix in s.topics
    case CheckDelete(w, suffix) => w !in s.writers && !Reserved(suffix) && !AnyMentions(s.rules, suffix)
    case Commit(w) => w in s.writers && Ready(s.writers[w])
    case Abandon(w) => w in s.writers
    case DeleteAll => true
    case CreateTopic(suffix) => suffix != EMPTY && !Reserved(suffix) && cfg.suffixOk(suffix)
  }

  function Probed(intent: Intent): set<Suffix> {
    if intent.Adding? || intent.Replacing? then intent.probed else {}
  }

  /** What the insert transaction decides under the lock. */
  predicate Insertable(rules: seq<Rule>, r: Rule) {
    Disjoint(rules + [r]) && forall i :: 0 <= i < |rules| ==> KeysDiffer(rules[i], r)
  }

  /** The rules after a writer's transaction. */
  function Committed(rules: seq<Rule>, intent: Intent): seq<Rule> {
    match intent
    case Adding(r, _) => if Insertable(rules, r) then rules + [r] else rules
    case Replacing(wanted, _) => wanted
    case _ => rules
  }

  function CommittedTopics(topics: set<Suffix>, intent: Intent): set<Suffix> {
    if intent.Deleting? then topics - {intent.s} else topics
  }

  function Apply(cfg: Config, s: State, l: Label): State
    requires Enabled(cfg, s, l)
  {
    match l
    case CheckAdd(w, r) => s.(writers := s.writers[w := Adding(r, {})])
    case CheckReplace(w, rules) => s.(writers := s.writers[w := Replacing(rules, {})])
    case Probe(w, suffix) => s.(writers := s.writers[w := s.writers[w].(probed := s.writers[w].probed + {suffix})])
    case CheckDelete(w, suffix) => s.(writers := s.writers[w := Deleting(suffix)])
    case Commit(w) =>
      s.(rules := Committed(s.rules, s.writers[w]), topics := CommittedTopics(s.topics, s.writers[w]),
         writers := s.writers[w := Finished])
    case Abandon(w) => s.(writers := s.writers[w := Finished])
    case DeleteAll => s.(rules := [])
    case CreateTopic(suffix) => s.(topics := s.topics + {suffix})
  }

  predicate IsAdding(intent: Intent) {
    intent.Adding?
  }

  function Adders(s: State): set<Writer> {
    Where(s.writers, IsAdding)
  }

  /** A run with at most `degree` adds in flight. */
  ghost predicate Runs(cfg: Config, degree: nat, s: State, ls: seq<Label>, t: State)
    decreases |ls|
  {
    && |Adders(s)| <= degree
    && if ls == [] then s == t else Enabled(cfg, s, ls[0]) && Runs(cfg, degree, Apply(cfg, s, ls[0]), ls[1..], t)
  }

  const START: State := State([], {}, map[])

  predicate IntentOk(intent: Intent, cfg: Config) {
    match intent
    case Adding(r, _) => RuleOk(r, cfg)
    case Replacing(rules, _) => RulesOk(rules, cfg) && WithinLimits(|rules|, cfg)
    case Deleting(suffix) => !Reserved(suffix)
    case Finished => true
  }

  predicate IntentsOk(s: State, cfg: Config) {
    forall w :: w in s.writers ==> IntentOk(s.writers[w], cfg)
  }

  ghost predicate Inv(cfg: Config, degree: nat, s: State) {
    && StoredOk(s.rules, cfg) && IntentsOk(s, cfg)
    && WithinLimits(|s.rules| + |Adders(s)| - degree, cfg)
  }

  lemma {:induction false} CommittedOk(cfg: Config, rules: seq<Rule>, intent: Intent)
    requires StoredOk(rules, cfg) && IntentOk(intent, cfg)
    ensures StoredOk(Committed(rules, intent), cfg)
    ensures intent.Replacing? ==> WithinLimits(|Committed(rules, intent)|, cfg)
    ensures !intent.Replacing? ==> |Committed(rules, intent)| <= |rules| + One(intent.Adding?)
  {
    if intent.Adding? && Insertable(rules, intent.r) {
      StoredAppend(rules, intent.r, cfg);
    }
  }

  lemma {:induction false} InvStep(cfg: Config, degree: nat, s: State, l: Label)
    requires Inv(cfg, degree, s) && Enabled(cfg, s, l) && |Adders(Apply(cfg, s, l))| <= degree
    ensures Inv(cfg, degree, Apply(cfg, s, l))
  {
    match l
    case CheckAdd(w, r) => WhereUpdate(s.writers, IsAdding, w, Adding(r, {}));
    case CheckReplace(w, rules) => WhereUpdate(s.writers, IsAdding, w, Replacing(rules, {}));
    case Probe(w, _) => WhereUpdate(s.writers, IsAdding, w, Apply(cfg, s, l).writers[w]);
    case CheckDelete(w, suffix) => WhereUpdate(s.writers, IsAdding, w, Deleting(suffix));
    case Commit(w) =>
      WhereUpdate(s.writers, IsAdding, w, Finished);
      CommittedOk(cfg, s.rules, s.writers[w]);
    case Abandon(w) => WhereUpdate(s.writers, IsAdding, w, Finished);
    case _ =>
  }

  lemma {:induction false} RunInv(cfg: Config, degree: nat, s: State, ls: seq<Label>, t: State)
    requires Inv(cfg, degree, s) && Runs(cfg, degree, s, ls, t)
    ensures Inv(cfg, degree, t)
    decreases |ls|
  {
    if ls == [] {
    } else {
      InvStep(cfg, degree, s, ls[0]);
      RunInv(cfg, degree, Apply(cfg, s, ls[0]), ls[1..], t);
    }
  }

  /** In every interleaving of adds, replacements and deletions the stored rules stay valid, with distinct
      patterns and priorities and with ingress and egress disjoint; the configured and the edition's rule
      limit are overshot by no more than the number of adds in flight. */
  lemma {:induction false} RacesKeepDisjoint(cfg: Config, degree: nat, ls: seq<Label>, t: State)
    requires Runs(cfg, degree, START, ls, t)
    ensures Disjoint(t.rules) && UniqueKeys(t.rules)
    ensures forall i :: 0 <= i < |t.rules| ==> RuleOk(t.rules[i], cfg)
    ensures WithinLimits(|t.rules| - degree, cfg)
  {
    assert Adders(START) == {};
    RunInv(cfg, degree, START, ls, t);
  }

  /** Is the rule stored after the step, given whether it was before? A commit that inserts it or brings it with a
      replacement puts it in; any other replacement and a deletion of all rules take it out. */
  predicate StoredNext(s: State, l: Label, r: Rule, was: bool) {
    match l
    case Commit(w) =>
      if w !in s.writers then was
      else if s.writers[w].Adding? then was || (s.writers[w].r == r && Insertable(s.rules, r))
      else if s.writers[w].Replacing? then r in s.writers[w].rules
      else was
    case DeleteAll => false
    case _ => was
  }

  ghost predicate StoredLast(cfg: Config, s: State, ls: seq<Label>, r: Rule, was: bool)
    decreases |ls|
  {
    if ls == [] || !Enabled(cfg, s, ls[0]) then was
    else StoredLast(cfg, Apply(cfg, s, ls[0]), ls[1..], r, StoredNext(s, ls[0], r, was))
  }

  /** Over every run a rule is stored exactly if the last transaction that decides about it put it in. */
  lemma {:induction false} RulesFromHistory(cfg: Config, degree: nat, s: State, ls: seq<Label>, t: State, r: Rule)
    requires Runs(cfg, degree, s, ls, t)
    ensures r in t.rules <==> StoredLast(cfg, s, ls, r, r in s.rules)
    decreases |ls|
  {
    if ls == [] {
    } else {
      RulesFromHistory(cfg, degree, Apply(cfg, s, ls[0]), ls[1..], t, r);
    }
  }

  /** A writer that committed or gave up never acts again. */
  lemma {:induction false} FinishedStays(cfg: Config, degree: nat, s: State, l: Label, ls: seq<Label>, t: State)
    requires (l.Commit? || l.Abandon?) && Enabled(cfg, s, l) && Runs(cfg, degree, Apply(cfg, s, l), ls, t)
    ensures l.w in t.writers && t.writers[l.w] == Finished && Commit(l.w) !in ls
  {
    RunFinished(cfg, degree, Apply(cfg, s, l), ls, t, l.w);
  }

  lemma {:induction false} RunFinished(cfg: Config, degree: nat, s: State, ls: seq<Label>, t: State, w: Writer)
    requires w in s.writers && s.writers[w] == Finished && Runs(cfg, degree, s, ls, t)
    ensures w in t.writers && t.writers[w] == Finished && Commit(w) !in ls
    decreases |ls|
  {
    if ls == [] {
    } else {
      RunFinished(cfg, degree, Apply(cfg, s, ls[0]), ls[1..], t, w);
    }
  }

  lemma {:induction false} RunsPrepend(cfg: Config, degree: nat, s: State, l: Label, ls: seq<Label>, t: State)
    requires |Adders(s)| <= degree && Enabled(cfg, s, l) && Runs(cfg, degree, Apply(cfg, s, l), ls, t)
    ensures Runs(cfg, degree, s, [l] + ls, t)
  {
    assert ([l] + ls)[0] == l && ([l] + ls)[1..] == ls;
  }
}
