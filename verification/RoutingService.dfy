/** The routing rules and topics of one tenant (ws/internal/provisioning/service.go,
    ws/internal/provisioning/repository/routing_rules.go): the service operations one at a time over stores that
    can fail. */
module RoutingService {
  import opened Common
  import opened TopicRouting

  /** A store write that works, fails, or commits although the caller sees a failure. */
  datatype Write = Works | Fails | FailsCommitted

  /** Injected failures: the tenant lookup, the reads of the rule and topic tables, the existence check of
      single topics, the final write. */
  datatype Faults = Faults(lookup: bool, read: bool, probes: set<Suffix>, write: Write)

  predicate Mentions(r: Rule, s: Suffix) {
    s == r.ingress || s in r.egress
  }

  predicate RuleProvisioned(r: Rule, topics: set<Suffix>) {
    forall s :: s in [r.ingress] + r.egress ==> s == DEFAULT || s in topics
  }

  predicate Provisioned(rules: seq<Rule>, topics: set<Suffix>) {
    forall i :: 0 <= i < |rules| ==> RuleProvisioned(rules[i], topics)
  }

  predicate Reserved(s: Suffix) {
    s == DEFAULT || s == DEAD_LETTER
  }

  predicate TopicsOk(topics: set<Suffix>) {
    forall s :: s in topics ==> !Reserved(s) && s != EMPTY
  }

  /** What every stored rule set satisfies, its size aside. */
  predicate StoredOk(rules: seq<Rule>, cfg: Config) {
    (forall i :: 0 <= i < |rules| ==> RuleOk(rules[i], cfg)) && UniqueKeys(rules) && Disjoint(rules)
  }

  function Normalized(r: Rule, cfg: Config): Rule {
    r.(pattern := cfg.normalize(r.pattern))
  }

  function NormalizedAll(rules: seq<Rule>, cfg: Config): seq<Rule> {
    seq(|rules|, i requires 0 <= i < |rules| => Normalized(rules[i], cfg))
  }

  predicate EgressAllowed(rules: seq<Rule>, cfg: Config) {
    cfg.egressAllowed || forall i :: 0 <= i < |rules| ==> rules[i].egress == []
  }

  /** The lookups of the rules' topics all answer. */
  predicate ChecksAnswer(rules: seq<Rule>, faults: Faults) {
    forall i, s :: 0 <= i < |rules| && s in [rules[i].ingress] + rules[i].egress ==> s == DEFAULT || s !in faults.probes
  }

  /** A replacement set is accepted. */
  predicate ReplaceOk(cfg: Config, active: bool, topics: set<Suffix>, rules: seq<Rule>) {
    && active && WithinMax(|rules|, cfg.editionRules) && RulesOk(rules, cfg)
    && EgressAllowed(rules, cfg) && Provisioned(rules, topics)
  }

  /** One more rule is accepted. */
  predicate AddOk(cfg: Config, active: bool, topics: set<Suffix>, rules: seq<Rule>, r: Rule) {
    && active && RuleOk(r, cfg) && EgressAllowed([r], cfg)
    && WithinMax(|rules| + 1, cfg.maxRules) && WithinMax(|rules| + 1, cfg.editionRules)
    && Disjoint(rules + [r]) && RuleProvisioned(r, topics)
    && forall i :: 0 <= i < |rules| ==> KeysDiffer(rules[i], r)
  }

  /** A topic can be created. */
  predicate CreateOk(cfg: Config, active: bool, topics: set<Suffix>, s: Suffix, maxTopics: int) {
    && active && s != EMPTY && !Reserved(s) && cfg.suffixOk(s)
    && WithinMax(|topics| + 1, maxTopics) && WithinMax(|topics| + 1, cfg.editionTopics) && s !in topics
  }

  /** A topic can be deleted. */
  predicate DeleteOk(topics: set<Suffix>, rules: seq<Rule>, s: Suffix) {
    !Reserved(s) && s in topics && forall i :: 0 <= i < |rules| ==> !Mentions(rules[i], s)
  }

  predicate SameTopics(a: seq<Rule>, b: seq<Rule>) {
    |a| == |b| && forall i :: 0 <= i < |a| ==> a[i].ingress == b[i].ingress && a[i].egress == b[i].egress
  }

  lemma {:induction false} StoredAppend(rules: seq<Rule>, r: Rule, cfg: Config)
    requires StoredOk(rules, cfg) && RuleOk(r, cfg) && Disjoint(rules + [r])
    requires forall i :: 0 <= i < |rules| ==> KeysDiffer(rules[i], r)
    ensures StoredOk(rules + [r], cfg)
  {
    UniqueKeysAppend(rules, r);
  }

  lemma {:induction false} DisjointByTopics(a: seq<Rule>, b: seq<Rule>, r: Rule)
    requires SameTopics(a, b)
    ensures Disjoint(a + [r]) <==> Disjoint(b + [r])
  {
    var x, y := a + [r], b + [r];
    forall i | 0 <= i < |x| ensures x[i].ingress == y[i].ingress && x[i].egress == y[i].egress {
    }
  }

  lemma {:induction false} SingleRule(r: Rule, cfg: Config, topics: set<Suffix>)
    ensures RulesOk([r], cfg.(maxRules := 0)) <==> RuleOk(r, cfg)
    ensures Provisioned([r], topics) <==> RuleProvisioned(r, topics)
    ensures EgressAllowed([r], cfg) <==> cfg.egressAllowed || r.egress == []
  {
    assert [r][0] == r;
    var one := cfg.(maxRules := 0);
    assert RuleOk(r, one) <==> RuleOk(r, cfg);
  }

  class TenantRouting {
    const cfg: Config
    var active: bool
    var rules: seq<Rule>
    var topics: set<Suffix>

    ghost predicate Valid()
      reads this
    {
      && StoredOk(rules, cfg) && Provisioned(rules, topics) && TopicsOk(topics)
      && WithinMax(|rules|, cfg.maxRules) && WithinMax(|rules|, cfg.editionRules)
    }

    constructor (cfg: Config)
      ensures Valid() && this.cfg == cfg && active && rules == [] && topics == {}
    {
      this.cfg := cfg;
      active, rules, topics := true, [], {};
    }

    /** Reading the rules normalizes them and skips rows the matcher rejects; no stored rule is skipped. */
    method GetAll() returns (result: seq<Rule>)
      requires Valid()
      ensures SameTopics(result, rules)
    {
      result := [];
      for i := 0 to |rules|
        invariant SameTopics(result, rules[..i])
      {
        assert RuleOk(rules[i], cfg);
        if cfg.matchOk(cfg.normalize(rules[i].pattern)) {
          result := result + [Normalized(rules[i], cfg)];
        }
      }
    }

    method EnsureTopicProvisioned(s: Suffix, faults: Faults) returns (err: Option<Error>)
      ensures err == None <==> s == DEFAULT || (s in topics && s !in faults.probes)
      ensures err.Some? ==> err.value == if s in faults.probes then StoreFailure else NotProvisioned
    {
      if s == DEFAULT {
        return None;
      }
      if s in faults.probes {
        return Some(StoreFailure);
      }
      err := if s in topics then None else Some(NotProvisioned);
    }

    method EnsureAllProvisioned(newRules: seq<Rule>, faults: Faults) returns (err: Option<Error>)
      ensures err == None <==> Provisioned(newRules, topics) && ChecksAnswer(newRules, faults)
    {
      var seen := {};
      for i := 0 to |newRules|
        invariant forall s :: s in seen ==> s == DEFAULT || (s in topics && s !in faults.probes)
        invariant forall k, s :: 0 <= k < i && s in [newRules[k].ingress] + newRules[k].egress ==> s in seen
      {
        var suffixes := [newRules[i].ingress] + newRules[i].egress;
        for m := 0 to |suffixes|
          invariant forall s :: s in seen ==> s == DEFAULT || (s in topics && s !in faults.probes)
          invariant forall k, s :: 0 <= k < i && s in [newRules[k].ingress] + newRules[k].egress ==> s in seen
          invariant forall s :: s in suffixes[..m] ==> s in seen
        {
          if suffixes[m] in seen {
            continue;
          }
          err := EnsureTopicProvisioned(suffixes[m], faults);
          if err.Some? {
            assert suffixes[m] in [newRules[i].ingress] + newRules[i].egress;
            return;
          }
          seen := seen + {suffixes[m]};
        }
        assert suffixes[..|suffixes|] == suffixes;
      }
      err := None;
    }

    method ReplaceRoutingRules(request: seq<Rule>, faults: Faults) returns (err: Option<Error>)
      requires Valid()
      modifies this`rules
      ensures Valid()
      ensures var wanted := NormalizedAll(request, cfg);
        var ok := ReplaceOk(cfg, active, topics, wanted) && ChecksAnswer(wanted, faults) && !faults.lookup;
        && (err == None <==> ok && faults.write == Works)
        && rules == (if ok && faults.write != Fails then wanted else old(rules))      ensures err == None ==> active && (cfg.egressAllowed || forall i :: 0 <= i < |rules| ==> rules[i].egress == [])
      ensures err == None ==> SameTopics(rules, request)
      ensures err == None ==> forall i :: 0 <= i < |rules| ==> rules[i].pattern == cfg.normalize(request[i].pattern)
    {
      if faults.lookup {
        return Some(StoreFailure);
      }
      if !active {
        return Some(TenantNotActive);
      }
      if cfg.editionRules > 0 && |request| > cfg.editionRules {
        return Some(EditionLimit);
      }
      var newRules := NormalizedAll(request, cfg);
      err := ValidateRoutingRules(newRules, cfg);
      if err.Some? {
        return;
      }
      if !EgressAllowed(newRules, cfg) {
        return Some(EditionLimit);
      }
      err := EnsureAllProvisioned(newRules, faults);
      if err.Some? {
        return;
      }
      if faults.write != Fails {
        rules := newRules;
      }
      err := if faults.write == Works then None else Some(StoreFailure);
    }

    method AddRoutingRule(request: Rule, faults: Faults) returns (err: Option<Error>)
      requires Valid()
      modifies this`rules
      ensures Valid()
      ensures var r := Normalized(request, cfg);
        var ok := AddOk(cfg, active, topics, old(rules), r) && ChecksAnswer([r], faults) && !faults.lookup && !faults.read;
        && (err == None <==> ok && faults.write == Works)
        && rules == (if ok && faults.write != Fails then old(rules) + [r] else old(rules))
      ensures err == None ==> active && (cfg.egressAllowed || request.egress == [])
      ensures err == None ==> rules[|rules| - 1].pattern == cfg.normalize(request.pattern)
    {
      if faults.lookup {
        return Some(StoreFailure);
      }
      if !active {
        return Some(TenantNotActive);
      }
      var r := Normalized(request, cfg);
      SingleRule(r, cfg, topics);
      err := ValidateRoutingRules([r], cfg.(maxRules := 0));
      if err.Some? {
        return;
      }
      if !EgressAllowed([r], cfg) {
        return Some(EditionLimit);
      }
      if faults.read {
        return Some(StoreFailure);
      }
      if cfg.maxRules > 0 && |rules| >= cfg.maxRules {
        return Some(TooManyRules);
      }
      if cfg.editionRules > 0 && |rules| + 1 > cfg.editionRules {
        return Some(EditionLimit);
      }
      var existing := GetAll();
      DisjointByTopics(existing, rules, r);
      err := ValidateEgressDisjoint(existing + [r]);
      if err.Some? {
        return;
      }
      err := EnsureAllProvisioned([r], faults);
      if err.Some? {
        return;
      }
      err := Insert(r, faults.write);
    }

    /** The insert transaction: disjointness is checked again, then the unique constraints. */
    method Insert(r: Rule, write: Write) returns (err: Option<Error>)
      requires StoredOk(rules, cfg) && RuleOk(r, cfg)
      modifies this`rules
      ensures var ok := Disjoint(old(rules) + [r]) && forall i :: 0 <= i < |old(rules)| ==> KeysDiffer(old(rules)[i], r);
        && (err == None <==> ok && write == Works)
        && rules == (if ok && write != Fails then old(rules) + [r] else old(rules))
      ensures StoredOk(rules, cfg)
    {
      err := ValidateEgressDisjoint(rules + [r]);
      if err.Some? {
        return;
      }
      for i := 0 to |rules|
        invariant forall k :: 0 <= k < i ==> KeysDiffer(rules[k], r)
      {
        if rules[i].priority == r.priority {
          return Some(DuplicatePriority);
        }
        if rules[i].pattern == r.pattern {
          return Some(DuplicatePattern);
        }
      }
      if write != Fails {
        StoredAppend(rules, r, cfg);
        rules := rules + [r];
      }
      err := if write == Works then None else Some(StoreFailure);
    }

    method DeleteRoutingRules(faults: Faults) returns (err: Option<Error>)
      requires Valid()
      modifies this`rules
      ensures Valid()
      ensures err == None <==> !faults.lookup && faults.write == Works
      ensures rules == if !faults.lookup && faults.write != Fails then [] else old(rules)
    {
      if faults.lookup {
        return Some(StoreFailure);
      }
      if faults.write != Fails {
        rules := [];
      }
      err := if faults.write == Works then None else Some(StoreFailure);
    }

    /** `maxTopics` is the tenant's quota, or the configured one if it has none. */
    method CreateTopic(s: Suffix, maxTopics: int, faults: Faults) returns (err: Option<Error>)
      requires Valid()
      modifies this`topics
      ensures Valid()
      ensures var ok := CreateOk(cfg, active, old(topics), s, maxTopics) && !faults.lookup && !faults.read;
        && (err == None <==> ok && faults.write == Works)
        && topics == (if ok && faults.write != Fails then old(topics) + {s} else old(topics))
      ensures err == None ==>
        && active && s != EMPTY && s != DEFAULT && s != DEAD_LETTER && cfg.suffixOk(s) && s !in old(topics)
        && WithinMax(|topics|, maxTopics) && WithinMax(|topics|, cfg.editionTopics)
    {
      if faults.lookup {
        return Some(StoreFailure);
      }
      if !active {
        return Some(TenantNotActive);
      }
      if s == EMPTY {
        return Some(InvalidTopicSuffix);
      }
      if Reserved(s) {
        return Some(ReservedSuffix);
      }
      if !cfg.suffixOk(s) {
        return Some(InvalidTopicSuffix);
      }
      if faults.read {
        return Some(StoreFailure);
      }
      if maxTopics > 0 && |topics| + 1 > maxTopics {
        return Some(QuotaExceeded);
      }
      if cfg.editionTopics > 0 && |topics| >= cfg.editionTopics {
        return Some(EditionLimit);
      }
      if s in topics {
        return Some(if faults.write == Works then TopicExists else StoreFailure);
      }
      if faults.write != Fails {
        topics := topics + {s};
      }
      err := if faults.write == Works then None else Some(StoreFailure);
    }

    method DeleteTopic(s: Suffix, faults: Faults) returns (err: Option<Error>)
      requires Valid()
      modifies this`topics
      ensures Valid()
      ensures var ok := DeleteOk(old(topics), rules, s) && !faults.lookup && !faults.read;
        && (err == None <==> ok && faults.write == Works)
        && topics == (if ok && faults.write != Fails then old(topics) - {s} else old(topics))
      ensures err == None ==> s != DEFAULT && s != DEAD_LETTER && s in old(topics)
      ensures !faults.lookup && (s == DEFAULT || s == DEAD_LETTER) ==> err == Some(ReservedSuffix)
    {
      if faults.lookup {
        return Some(StoreFailure);
      }
      if Reserved(s) {
        return Some(ReservedSuffix);
      }
      if faults.read {
        return Some(StoreFailure);
      }
      var all := GetAll();
      for i := 0 to |all|
        invariant forall k :: 0 <= k < i ==> !Mentions(rules[k], s)
      {
        if s in [all[i].ingress] + all[i].egress {
          assert Mentions(rules[i], s);
          return Some(TopicReferenced);
        }
      }
      if s !in topics {
        return Some(TopicNotFound);
      }
      if faults.write != Fails {
        topics := topics - {s};
      }
      err := if faults.write == Works then None else Some(StoreFailure);
    }
  }
}
