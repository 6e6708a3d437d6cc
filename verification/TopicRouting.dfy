/** Topic routing rules and the topic sets derived from them (ws/internal/provisioning/topic_routing.go,
    ws/internal/shared/routing/constants.go). */
module TopicRouting {
  import opened Common

  datatype Suffix = Suffix(name: string)

  const DEFAULT := Suffix("default")
  const DEAD_LETTER := Suffix("dead-letter")
  const EMPTY := Suffix("")

  datatype Rule = Rule(pattern: string, ingress: Suffix, egress: seq<Suffix>, priority: int)

  /** Limits (zero switches a limit off), the edition, and the checks on names, which are parameters here:
      pattern normalization, pattern syntax, the matcher's own check, topic name syntax. */
  datatype Config = Config(
    maxRules: int, maxTopicsPerRule: int,
    editionRules: int, editionTopics: int, egressAllowed: bool,
    normalize: string -> string, syntaxOk: string -> bool, matchOk: string -> bool, suffixOk: Suffix -> bool)
  {
    predicate PatternOk(pattern: string) {
      syntaxOk(pattern) && matchOk(normalize(pattern))
    }
  }

  datatype Error =
    | EmptyRules | TooManyRules | EmptyPattern | InvalidPattern | DuplicatePattern | DuplicatePriority
    | MissingIngress | ReservedSuffix | TooManyTopics | DuplicateEgress | EgressIngressOverlap
    | TenantNotActive | EditionLimit | NotProvisioned | InvalidTopicSuffix | QuotaExceeded | TopicExists
    | TopicNotFound | TopicReferenced | StoreFailure

  // ----- What a valid rule set is -----

  predicate WithinMax(n: int, max: int) {
    max > 0 ==> n <= max
  }

  predicate EgressOk(r: Rule, suffix: Suffix) {
    suffix != EMPTY && suffix != DEFAULT && suffix != DEAD_LETTER && suffix != r.ingress
  }

  predicate RuleTopicsOk(r: Rule, maxTopics: int) {
    && r.ingress != EMPTY && r.ingress != DEAD_LETTER
    && WithinMax(1 + |r.egress|, maxTopics)
    && (forall i :: 0 <= i < |r.egress| ==> EgressOk(r, r.egress[i]))
    && NoDuplicates(r.egress)
  }

  predicate RuleOk(r: Rule, cfg: Config) {
    r.pattern != "" && RuleTopicsOk(r, cfg.maxTopicsPerRule) && cfg.PatternOk(r.pattern)
  }

  /** No suffix is consumed for one rule and written as a copy for another. */
  predicate Disjoint(rules: seq<Rule>) {
    forall i, j :: 0 <= i < |rules| && 0 <= j < |rules| ==> rules[j].ingress !in rules[i].egress
  }

  predicate KeysDiffer(a: Rule, b: Rule) {
    a.pattern != b.pattern && a.priority != b.priority
  }

  predicate UniqueKeys(rules: seq<Rule>) {
    forall i, j :: 0 <= i < j < |rules| ==> KeysDiffer(rules[i], rules[j])
  }

  predicate RulesOk(rules: seq<Rule>, cfg: Config) {
    && rules != [] && WithinMax(|rules|, cfg.maxRules)
    && (forall i :: 0 <= i < |rules| ==> RuleOk(rules[i], cfg))
    && UniqueKeys(rules) && Disjoint(rules)
  }

  // ----- Validators -----

  /** What each rejection of a single rule's destinations means. */
  predicate Explains(r: Rule, maxTopics: int, e: Error) {
    match e
    case MissingIngress => r.ingress == EMPTY
    case TooManyTopics => !WithinMax(1 + |r.egress|, maxTopics)
    case ReservedSuffix => r.ingress == DEAD_LETTER || exists s :: s in r.egress && s in {EMPTY, DEFAULT, DEAD_LETTER}
    case EgressIngressOverlap => r.ingress in r.egress
    case DuplicateEgress => !NoDuplicates(r.egress)
    case _ => false
  }

  method ValidateRuleTopics(r: Rule, maxTopics: int) returns (err: Option<Error>)
    ensures err == None <==> RuleTopicsOk(r, maxTopics)
    ensures err.Some? ==> Explains(r, maxTopics, err.value)
    ensures err == None && maxTopics > 0 ==> |r.egress| < maxTopics
  {
    if r.ingress == EMPTY {
      return Some(MissingIngress);
    }
    if r.ingress == DEAD_LETTER {
      return Some(ReservedSuffix);
    }
    if maxTopics > 0 && 1 + |r.egress| > maxTopics {
      return Some(TooManyTopics);
    }
    var seen := {};
    for i := 0 to |r.egress|
      invariant seen == Elements(r.egress[..i]) && NoDuplicates(r.egress[..i])
      invariant forall k :: 0 <= k < i ==> EgressOk(r, r.egress[k])
    {
      var suffix := r.egress[i];
      if suffix == EMPTY || suffix == DEFAULT || suffix == DEAD_LETTER {
        assert suffix in r.egress;
        return Some(ReservedSuffix);
      }
      if suffix == r.ingress {
        return Some(EgressIngressOverlap);
      }
      if suffix in seen {
        var k :| 0 <= k < i && r.egress[k] == suffix;
        return Some(DuplicateEgress);
      }
      AppendFresh(r.egress[..i], suffix);
      assert r.egress[..i + 1] == r.egress[..i] + [suffix];
      seen := seen + {suffix};
    }
    assert r.egress[..|r.egress|] == r.egress;
    return None;
  }

  method ValidateEgressDisjoint(rules: seq<Rule>) returns (err: Option<Error>)
    ensures err == None <==> Disjoint(rules)
    ensures err.Some? ==> err.value == EgressIngressOverlap
  {
    var deliveries := {};
    for i := 0 to |rules|
      invariant forall s :: s in deliveries <==> exists k :: 0 <= k < i && rules[k].ingress == s
    {
      deliveries := deliveries + {rules[i].ingress};
    }
    for i := 0 to |rules|
      invariant forall k, j :: 0 <= k < i && 0 <= j < |rules| ==> rules[j].ingress !in rules[k].egress
    {
      for m := 0 to |rules[i].egress|
        invariant forall j :: 0 <= j < |rules| ==> rules[j].ingress !in rules[i].egress[..m]
      {
        if rules[i].egress[m] in deliveries {
          var j :| 0 <= j < |rules| && rules[j].ingress == rules[i].egress[m];
          return Some(EgressIngressOverlap);
        }
      }
      assert rules[i].egress[..|rules[i].egress|] == rules[i].egress;
    }
    return None;
  }

  lemma {:induction false} UniqueKeysAppend(rules: seq<Rule>, r: Rule)
    requires UniqueKeys(rules) && forall i :: 0 <= i < |rules| ==> KeysDiffer(rules[i], r)
    ensures UniqueKeys(rules + [r])
  {
    var more := rules + [r];
    forall i, j | 0 <= i < j < |more| ensures KeysDiffer(more[i], more[j]) {
      if j < |rules| {
        assert KeysDiffer(rules[i], rules[j]);
      } else {
        assert KeysDiffer(rules[i], r);
      }
    }
  }

  function Patterns(rules: seq<Rule>, n: nat): set<string>
    requires n <= |rules|
  {
    set k | 0 <= k < n :: rules[k].pattern
  }

  function Priorities(rules: seq<Rule>, n: nat): set<int>
    requires n <= |rules|
  {
    set k | 0 <= k < n :: rules[k].priority
  }

  /** A rule whose keys are unseen extends the unique ones; a seen key is a duplicate. */
  lemma {:induction false} SeenKeys(rules: seq<Rule>, i: nat)
    requires i < |rules| && UniqueKeys(rules[..i])
    ensures Patterns(rules, i + 1) == Patterns(rules, i) + {rules[i].pattern}
    ensures Priorities(rules, i + 1) == Priorities(rules, i) + {rules[i].priority}
    ensures rules[i].pattern !in Patterns(rules, i) && rules[i].priority !in Priorities(rules, i) ==> UniqueKeys(rules[..i + 1])
    ensures rules[i].pattern in Patterns(rules, i) || rules[i].priority in Priorities(rules, i) ==> !UniqueKeys(rules)
  {
    if rules[i].pattern in Patterns(rules, i) {
      var k :| 0 <= k < i && rules[k].pattern == rules[i].pattern;
      assert !KeysDiffer(rules[k], rules[i]);
    } else if rules[i].priority in Priorities(rules, i) {
      var k :| 0 <= k < i && rules[k].priority == rules[i].priority;
      assert !KeysDiffer(rules[k], rules[i]);
    } else {
      UniqueKeysAppend(rules[..i], rules[i]);
      assert rules[..i + 1] == rules[..i] + [rules[i]];
    }
  }

  method ValidateRoutingRules(rules: seq<Rule>, cfg: Config) returns (err: Option<Error>)
    ensures err == None <==> RulesOk(rules, cfg)
    ensures err == Some(EmptyRules) <==> rules == []
    ensures err == Some(TooManyRules) <==> rules != [] && !WithinMax(|rules|, cfg.maxRules)
    ensures err == Some(DuplicatePattern) || err == Some(DuplicatePriority) ==> !UniqueKeys(rules)
    ensures err == Some(EmptyPattern) || err == Some(InvalidPattern) ==>
      exists i :: 0 <= i < |rules| && (rules[i].pattern == "" || !cfg.PatternOk(rules[i].pattern))
  {
    if rules == [] {
      return Some(EmptyRules);
    }
    if cfg.maxRules > 0 && |rules| > cfg.maxRules {
      return Some(TooManyRules);
    }
    var seenPatterns, seenPriorities := {}, {};
    for i := 0 to |rules|
      invariant forall k :: 0 <= k < i ==> RuleOk(rules[k], cfg)
      invariant UniqueKeys(rules[..i])
      invariant seenPatterns == Patterns(rules, i) && seenPriorities == Priorities(rules, i)
    {
      var r := rules[i];
      if r.pattern == "" {
        return Some(EmptyPattern);
      }
      var topicsErr := ValidateRuleTopics(r, cfg.maxTopicsPerRule);
      if topicsErr.Some? {
        return topicsErr;
      }
      SeenKeys(rules, i);
      if r.pattern in seenPatterns {
        return Some(DuplicatePattern);
      }
      seenPatterns := seenPatterns + {r.pattern};
      if r.priority in seenPriorities {
        return Some(DuplicatePriority);
      }
      seenPriorities := seenPriorities + {r.priority};
      if !cfg.PatternOk(r.pattern) {
        return Some(InvalidPattern);
      }
    }
    assert rules[..|rules|] == rules;
    err := ValidateEgressDisjoint(rules);
  }

  // ----- Derived topic sets -----

  /** The first occurrences of a sequence, in order. */
  function Dedup(s: seq<Suffix>): (d: seq<Suffix>)
    ensures NoDuplicates(d) && Elements(d) == Elements(s)
  {
    if s == [] then [] else
    var front, last := Dedup(s[..|s| - 1]), s[|s| - 1];
    assert s == s[..|s| - 1] + [last];
    if last in front then front
    else
      AppendFresh(front, last);
      front + [last]
  }

  /** The topics the platform consumes for the first `n` rules, before duplicates are dropped. */
  function Consumed(rules: seq<Rule>, n: nat): seq<Suffix>
    requires n <= |rules|
  {
    if n == 0 then [DEFAULT]
    else if rules[n - 1].ingress == EMPTY then Consumed(rules, n - 1)
    else Consumed(rules, n - 1) + [rules[n - 1].ingress]
  }

  function ConsumeSet(rules: seq<Rule>): set<Suffix> {
    Elements(Consumed(rules, |rules|))
  }

  /** `before`, then the copies of the first `m` egress topics that are not consumed. */
  function Kept(before: seq<Suffix>, egress: seq<Suffix>, m: nat, consumed: set<Suffix>): seq<Suffix>
    requires m <= |egress|
  {
    if m == 0 then before
    else if egress[m - 1] == EMPTY || egress[m - 1] in consumed then Kept(before, egress, m - 1, consumed)
    else Kept(before, egress, m - 1, consumed) + [egress[m - 1]]
  }

  /** The copies written for other consumers by the first `n` rules, minus what is consumed. */
  function Copied(rules: seq<Rule>, n: nat, consumed: set<Suffix>): seq<Suffix>
    requires n <= |rules|
  {
    if n == 0 then []
    else Kept(Copied(rules, n - 1, consumed), rules[n - 1].egress, |rules[n - 1].egress|, consumed)
  }

  /** The topics to consume: the default topic and the ingress topics, first occurrences in order. */
  function ConsumeList(rules: seq<Rule>): seq<Suffix> {
    Dedup(Consumed(rules, |rules|))
  }

  /** The topics to create only: the egress topics that are not consumed, first occurrences in order. */
  function CreateOnlyList(rules: seq<Rule>): seq<Suffix> {
    Dedup(Copied(rules, |rules|, ConsumeSet(rules)))
  }

  /** The seen-set idiom keeps first occurrences. */
  lemma {:induction false} DedupAppend(s: seq<Suffix>, x: Suffix, seen: set<Suffix>)
    requires seen == Elements(Dedup(s))
    ensures Dedup(s + [x]) == if x in seen then Dedup(s) else Dedup(s) + [x]
    ensures Elements(Dedup(s + [x])) == seen + {x}
  {
    assert (s + [x])[..|s|] == s;
    if x in seen {
      assert seen + {x} == seen;
    } else {
      AppendFresh(Dedup(s), x);
    }
  }

  lemma {:induction false} DedupOne(x: Suffix)
    ensures Dedup([x]) == [x] && Elements(Dedup([x])) == {x}
  {
    assert [] + [x] == [x];
    DedupAppend([], x, {});
  }

  method ConsumeTopicSuffixes(rules: seq<Rule>) returns (suffixes: seq<Suffix>)
    ensures suffixes == ConsumeList(rules)
  {
    suffixes := [DEFAULT];
    var seen := {DEFAULT};
    DedupOne(DEFAULT);
    for i := 0 to |rules|
      invariant suffixes == Dedup(Consumed(rules, i)) && seen == Elements(Dedup(Consumed(rules, i)))
    {
      var ingress := rules[i].ingress;
      if ingress == EMPTY {
        continue;
      }
      DedupAppend(Consumed(rules, i), ingress, seen);
      if ingress in seen {
        continue;
      }
      seen := seen + {ingress};
      suffixes := suffixes + [ingress];
    }
  }

  method CreateOnlyTopicSuffixes(rules: seq<Rule>) returns (suffixes: seq<Suffix>)
    ensures suffixes == CreateOnlyList(rules)
  {
    var consume := ConsumeTopicSuffixes(rules);
    var consumed := {};
    for i := 0 to |consume|
      invariant consumed == Elements(consume[..i])
    {
      consumed := consumed + {consume[i]};
    }
    assert consume[..|consume|] == consume;
    suffixes := [];
    var seen := {};
    for i := 0 to |rules|
      invariant suffixes == Dedup(Copied(rules, i, consumed)) && seen == Elements(Dedup(Copied(rules, i, consumed)))
    {
      var egress := rules[i].egress;
      ghost var before := Copied(rules, i, consumed);
      for m := 0 to |egress|
        invariant suffixes == Dedup(Kept(before, egress, m, consumed))
        invariant seen == Elements(Dedup(Kept(before, egress, m, consumed)))
      {
        var suffix := egress[m];
        if suffix == EMPTY || suffix in consumed {
          continue;
        }
        DedupAppend(Kept(before, egress, m, consumed), suffix, seen);
        if suffix in seen {
          continue;
        }
        seen := seen + {suffix};
        suffixes := suffixes + [suffix];
      }
    }
  }

  predicate IsIngress(rules: seq<Rule>, n: nat, s: Suffix)
    requires n <= |rules|
  {
    exists i :: 0 <= i < n && rules[i].ingress == s
  }

  predicate IsEgress(rules: seq<Rule>, n: nat, s: Suffix)
    requires n <= |rules|
  {
    exists i :: 0 <= i < n && s in rules[i].egress
  }

  lemma {:induction false} ConsumedMembers(rules: seq<Rule>, n: nat, s: Suffix)
    requires n <= |rules|
    ensures s in Consumed(rules, n) <==> s == DEFAULT || (s != EMPTY && IsIngress(rules, n, s))
  {
    if n == 0 {
    } else {
      ConsumedMembers(rules, n - 1, s);
      assert IsIngress(rules, n, s) <==> IsIngress(rules, n - 1, s) || rules[n - 1].ingress == s;
    }
  }

  lemma {:induction false} KeptMembers(before: seq<Suffix>, egress: seq<Suffix>, m: nat, consumed: set<Suffix>,
      s: Suffix)
    requires m <= |egress|
    ensures s in Kept(before, egress, m, consumed) <==>
      s in before || (s in egress[..m] && s != EMPTY && s !in consumed)
  {
    if m == 0 {
    } else {
      KeptMembers(before, egress, m - 1, consumed, s);
      assert egress[..m] == egress[..m - 1] + [egress[m - 1]];
    }
  }

  lemma {:induction false} CopiedMembers(rules: seq<Rule>, n: nat, consumed: set<Suffix>, s: Suffix)
    requires n <= |rules|
    ensures s in Copied(rules, n, consumed) <==> IsEgress(rules, n, s) && s != EMPTY && s !in consumed
  {
    if n == 0 {
    } else {
      var egress := rules[n - 1].egress;
      CopiedMembers(rules, n - 1, consumed, s);
      KeptMembers(Copied(rules, n - 1, consumed), egress, |egress|, consumed, s);
      assert egress[..|egress|] == egress;
      assert IsEgress(rules, n, s) <==> IsEgress(rules, n - 1, s) || s in egress;
    }
  }

  lemma {:induction false} DedupMembers(list: seq<Suffix>, s: Suffix)
    ensures s in Dedup(list) <==> s in list
  {
    assert s in Elements(Dedup(list)) <==> s in Elements(list);
  }

  lemma {:induction false} ValidNames(rules: seq<Rule>, cfg: Config, s: Suffix)
    requires RulesOk(rules, cfg)
    ensures IsIngress(rules, |rules|, s) ==> s != EMPTY && s != DEAD_LETTER && !IsEgress(rules, |rules|, s)
    ensures IsEgress(rules, |rules|, s) ==> s != EMPTY && s != DEFAULT && s != DEAD_LETTER
  {
    if IsIngress(rules, |rules|, s) {
      var i :| 0 <= i < |rules| && rules[i].ingress == s;
      assert RuleOk(rules[i], cfg);
    }
    if IsEgress(rules, |rules|, s) {
      var i :| 0 <= i < |rules| && s in rules[i].egress;
      assert RuleOk(rules[i], cfg);
      var k :| 0 <= k < |rules[i].egress| && rules[i].egress[k] == s;
      assert EgressOk(rules[i], rules[i].egress[k]);
    }
  }

  /** The two lists never share a topic, whatever the rules. For a validated rule set they are the default
      topic with the ingress topics, and all the egress topics; the dead-letter topic is in neither. */
  lemma {:induction false} TopicPartition(rules: seq<Rule>, cfg: Config, s: Suffix)
    ensures !(s in ConsumeList(rules) && s in CreateOnlyList(rules))
    ensures RulesOk(rules, cfg) ==>
      && (s in ConsumeList(rules) <==> s == DEFAULT || IsIngress(rules, |rules|, s))
      && (s in CreateOnlyList(rules) <==> IsEgress(rules, |rules|, s))
      && !IsIngress(rules, |rules|, DEAD_LETTER) && !IsEgress(rules, |rules|, DEAD_LETTER)
  {
    var consumed := ConsumeSet(rules);
    DedupMembers(Consumed(rules, |rules|), s);
    DedupMembers(Copied(rules, |rules|, consumed), s);
    ConsumedMembers(rules, |rules|, s);
    CopiedMembers(rules, |rules|, consumed, s);
    if RulesOk(rules, cfg) {
      ValidNames(rules, cfg, s);
      ValidNames(rules, cfg, DEAD_LETTER);
    }
  }
}
