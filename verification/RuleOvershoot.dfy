/** How far concurrent writers can take a tenant's routing rules past the limit: a run that attains the bound
    (ws/internal/provisioning/service.go). */
module RuleOvershoot {
  import opened Common
  import opened TopicRouting
  import opened RoutingService
  import opened RoutingRaces

  /** A valid rule on the default topic alone. */
  predicate Simple(r: Rule, cfg: Config) {
    RuleOk(r, cfg) && r.ingress == DEFAULT && r.egress == []
  }

  predicate SimpleRules(rules: seq<Rule>, cfg: Config) {
    UniqueKeys(rules) && forall i :: 0 <= i < |rules| ==> Simple(rules[i], cfg)
  }

  /** The first `k` adders have passed their checks, the first `done` of them have committed. */
  function Writers(adds: seq<Rule>, k: nat, done: nat): map<Writer, Intent>
    requires done <= k <= |adds|
  {
    map w | 0 <= w < k :: if w < done then Finished else Adding(adds[w], {})
  }

  lemma {:induction false} AddersOf(adds: seq<Rule>, k: nat, done: nat, more: map<Writer, Intent>)
    requires done <= k <= |adds| && Writers(adds, k, done).Keys !! more.Keys
    requires forall w :: w in more ==> !more[w].Adding?
    ensures |Where(Writers(adds, k, done) + more, IsAdding)| <= k
  {
    SubRange(Where(Writers(adds, k, done) + more, IsAdding), k);
  }

  lemma {:induction false} SubRange(s: set<Writer>, k: nat)
    requires forall w :: w in s ==> 0 <= w < k
    ensures |s| <= k
  {
    if k == 0 {
      assert forall w :: w !in s;
    } else {
      SubRange(s - {k - 1}, k - 1);
      SizeWithout(s, k - 1);
    }
  }

  lemma {:induction false} SimpleProvisioned(rules: seq<Rule>, cfg: Config, topics: set<Suffix>)
    requires SimpleRules(rules, cfg)
    ensures Provisioned(rules, topics) && Disjoint(rules)
  {
    forall i | 0 <= i < |rules| ensures RuleProvisioned(rules[i], topics) {
      assert Simple(rules[i], cfg);
    }
    forall i, j | 0 <= i < |rules| && 0 <= j < |rules| ensures rules[j].ingress !in rules[i].egress {
      assert Simple(rules[i], cfg);
    }
  }

  lemma {:induction false} RunsAppend(cfg: Config, degree: nat, s: State, ls: seq<Label>, m: State, l: Label)
    requires Runs(cfg, degree, s, ls, m) && Enabled(cfg, m, l) && |Adders(Apply(cfg, m, l))| <= degree
    ensures Runs(cfg, degree, s, ls + [l], Apply(cfg, m, l))
    decreases |ls|
  {
    if ls == [] {
      assert Runs(cfg, degree, Apply(cfg, m, l), [], Apply(cfg, m, l));
      RunsPrepend(cfg, degree, s, l, [], Apply(cfg, m, l));
      assert [] + [l] == [l] + [];
    } else {
      RunsAppend(cfg, degree, Apply(cfg, s, ls[0]), ls[1..], m, l);
      assert (ls + [l])[0] == ls[0] && (ls + [l])[1..] == ls[1..] + [l];
    }
  }

  function Checking(adds: seq<Rule>, k: nat): State
    requires k <= |adds|
  {
    State([], {}, Writers(adds, k, 0))
  }

  lemma {:induction false} CheckingAdders(adds: seq<Rule>, k: nat)
    requires k <= |adds|
    ensures |Adders(Checking(adds, k))| <= |adds|
  {
    AddersOf(adds, k, 0, map[]);
    assert Writers(adds, k, 0) + map[] == Writers(adds, k, 0);
  }

  lemma {:induction false} CheckNext(cfg: Config, adds: seq<Rule>, k: nat)
    requires k < |adds| && Simple(adds[k], cfg) && WithinLimits(1, cfg)
    ensures Enabled(cfg, Checking(adds, k), CheckAdd(k, adds[k]))
    ensures Apply(cfg, Checking(adds, k), CheckAdd(k, adds[k])) == Checking(adds, k + 1)
  {
    assert Writers(adds, k, 0)[k := Adding(adds[k], {})] == Writers(adds, k + 1, 0);
  }

  lemma {:induction false} CheckAll(cfg: Config, adds: seq<Rule>, k: nat, before: seq<Label>, m: State)
      returns (ls: seq<Label>, t: State)
    requires k <= |adds| && WithinLimits(1, cfg)
    requires forall i :: 0 <= i < |adds| ==> Simple(adds[i], cfg)
    requires m == Checking(adds, k) && Runs(cfg, |adds|, START, before, m)
    ensures Runs(cfg, |adds|, START, ls, t) && t == Checking(adds, |adds|)
    decreases |adds| - k
  {
    if k == |adds| {
      ls, t := before, m;
    } else {
      CheckNext(cfg, adds, k);
      CheckingAdders(adds, k + 1);
      RunsAppend(cfg, |adds|, START, before, m, CheckAdd(k, adds[k]));
      ls, t := CheckAll(cfg, adds, k + 1, before + [CheckAdd(k, adds[k])], Checking(adds, k + 1));
    }
  }

  /** The state after the replacement and the first `done` inserts. */
  function Overshooting(rules: seq<Rule>, n: nat, done: nat): State
    requires n + done <= |rules|
  {
    var adds := rules[n..];
    State(rules[..n + done], {}, Writers(adds, |adds|, done)[-1 := Finished])
  }

  lemma {:induction false} OvershootingAdders(rules: seq<Rule>, n: nat, done: nat)
    requires n + done <= |rules|
    ensures |Adders(Overshooting(rules, n, done))| <= |rules| - n
  {
    var adds := rules[n..];
    AddersOf(adds, |adds|, done, map[-1 := Finished]);
    assert Writers(adds, |adds|, done) + map[-1 := Finished] == Writers(adds, |adds|, done)[-1 := Finished];
  }

  lemma {:induction false} InsertNext(cfg: Config, rules: seq<Rule>, k: nat)
    requires SimpleRules(rules, cfg) && k < |rules|
    ensures Committed(rules[..k], Adding(rules[k], {})) == rules[..k + 1]
  {
    assert rules[..k] + [rules[k]] == rules[..k + 1];
    forall i | 0 <= i < k ensures KeysDiffer(rules[..k][i], rules[k]) {
      assert KeysDiffer(rules[i], rules[k]);
    }
    assert SimpleRules(rules[..k + 1], cfg);
    SimpleProvisioned(rules[..k + 1], cfg, {});
  }

  lemma {:induction false} CommitNext(cfg: Config, rules: seq<Rule>, n: nat, done: nat)
    requires SimpleRules(rules, cfg) && n + done < |rules|
    ensures Enabled(cfg, Overshooting(rules, n, done), Commit(done))
    ensures Apply(cfg, Overshooting(rules, n, done), Commit(done)) == Overshooting(rules, n, done + 1)
  {
    var m, t := Overshooting(rules, n, done), Overshooting(rules, n, done + 1);
    assert m.writers[done] == Adding(rules[n + done], {});
    InsertNext(cfg, rules, n + done);
    assert m.writers[done := Finished] == t.writers;
  }

  lemma {:induction false} CommitOne(cfg: Config, degree: nat, rules: seq<Rule>, n: nat, done: nat,
      ls: seq<Label>, m: State)
    requires SimpleRules(rules, cfg) && n + done < |rules| && degree == |rules| - n
    requires m == Overshooting(rules, n, done) && Runs(cfg, degree, START, ls, m)
    ensures Runs(cfg, degree, START, ls + [Commit(done)], Overshooting(rules, n, done + 1))
  {
    CommitNext(cfg, rules, n, done);
    OvershootingAdders(rules, n, done + 1);
    RunsAppend(cfg, degree, START, ls, m, Commit(done));
  }

  lemma {:induction false} CommitAll(cfg: Config, degree: nat, rules: seq<Rule>, n: nat, done: nat,
      before: seq<Label>, m: State)
      returns (ls: seq<Label>, t: State)
    requires SimpleRules(rules, cfg) && n + done <= |rules| && degree == |rules| - n
    requires m == Overshooting(rules, n, done) && Runs(cfg, degree, START, before, m)
    ensures Runs(cfg, degree, START, ls, t) && t.rules == rules
    decreases |rules| - done
  {
    if n + done == |rules| {
      ls, t := before, m;
    } else {
      CommitOne(cfg, degree, rules, n, done, before, m);
      ls, t := CommitAll(cfg, degree, rules, n, done + 1, before + [Commit(done)], Overshooting(rules, n, done + 1));
    }
  }

  lemma {:induction false} ReplaceBetween(cfg: Config, rules: seq<Rule>, n: nat, before: seq<Label>)
      returns (ls: seq<Label>)
    requires SimpleRules(rules, cfg) && 1 <= n <= |rules| && WithinLimits(n, cfg)
    requires Runs(cfg, |rules| - n, START, before, Checking(rules[n..], |rules| - n))
    ensures Runs(cfg, |rules| - n, START, ls, Overshooting(rules, n, 0))
  {
    var adds, base := rules[n..], rules[..n];
    var m := Checking(adds, |adds|);
    assert SimpleRules(base, cfg);
    SimpleProvisioned(base, cfg, {});
    var c := CheckReplace(-1, base);
    AddersOf(adds, |adds|, 0, map[-1 := Replacing(base, {})]);
    assert m.writers + map[-1 := Replacing(base, {})] == m.writers[-1 := Replacing(base, {})];
    RunsAppend(cfg, |adds|, START, before, m, c);
    OvershootingAdders(rules, n, 0);
    assert m.writers[-1 := Replacing(base, {})][-1 := Finished] == m.writers[-1 := Finished];
    assert Apply(cfg, Apply(cfg, m, c), Commit(-1)) == Overshooting(rules, n, 0);
    RunsAppend(cfg, |adds|, START, before + [c], Apply(cfg, m, c), Commit(-1));
    ls := before + [c] + [Commit(-1)];
  }

  /** The bound is attained: for any `n` within both limits and any valid rules on the default topic with
      distinct keys, `n` of them can come in as a replacement between the checks and the inserts of the
      others. With `n` the limit and `d` adds in flight the table ends up with `n + d` rules. */
  lemma {:induction false} LimitOvershot(cfg: Config, n: nat, rules: seq<Rule>) returns (ls: seq<Label>, t: State)
    requires 1 <= n <= |rules| && WithinLimits(n, cfg) && SimpleRules(rules, cfg)
    ensures Runs(cfg, |rules| - n, START, ls, t) && t.rules == rules
  {
    var adds := rules[n..];
    assert Writers(adds, 0, 0) == map[] && Adders(START) == {};
    ls, t := CheckAll(cfg, adds, 0, [], START);
    ls := ReplaceBetween(cfg, rules, n, ls);
    ls, t := CommitAll(cfg, |rules| - n, rules, n, 0, ls, Overshooting(rules, n, 0));
  }
}
