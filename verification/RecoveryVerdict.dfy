/** The possible-gap list of the SSE recovery verdict (ws/internal/server/replay_shared.go). */
module RecoveryVerdict {
  import opened Common

  /** Lexicographic order on names. */
  predicate NameLe(a: string, b: string) {
    if a == [] then true
    else if b == [] then false
    else a[0] < b[0] || (a[0] == b[0] && NameLe(a[1..], b[1..]))
  }

  predicate Le(a: Channel, b: Channel) {
    NameLe(a.name, b.name)
  }

  lemma {:induction false} NameLeTotal(a: string, b: string)
    ensures NameLe(a, b) || NameLe(b, a)
    ensures NameLe(a, b) && NameLe(b, a) ==> a == b
  {
    if a == [] || b == [] {
    } else {
      NameLeTotal(a[1..], b[1..]);
      assert a == [a[0]] + a[1..] && b == [b[0]] + b[1..];
    }
  }

  lemma {:induction false} NameLeTransitive(a: string, b: string, c: string)
    requires NameLe(a, b) && NameLe(b, c)
    ensures NameLe(a, c)
  {
    if a == [] || a[0] < c[0] {
    } else {
      NameLeTransitive(a[1..], b[1..], c[1..]);
    }
  }

  /** Ascending without repetition: every list of this kind is determined by its elements. */
  predicate StrictlySorted(xs: seq<Channel>) {
    forall i, j :: 0 <= i < j < |xs| ==> Le(xs[i], xs[j]) && xs[i] != xs[j]
  }

  function Insert(x: Channel, xs: seq<Channel>): seq<Channel> {
    if xs == [] then [x]
    else if Le(x, xs[0]) then [x] + xs
    else [xs[0]] + Insert(x, xs[1..])
  }

  function Sort(xs: seq<Channel>): seq<Channel> {
    if xs == [] then [] else Insert(xs[0], Sort(xs[1..]))
  }

  lemma {:induction false} InsertElements(x: Channel, xs: seq<Channel>)
    ensures forall y :: y in Insert(x, xs) <==> y == x || y in xs
  {
    if xs == [] || Le(x, xs[0]) {
    } else {
      InsertElements(x, xs[1..]);
      assert xs == [xs[0]] + xs[1..];
    }
  }

  lemma {:induction false} InsertSorted(x: Channel, xs: seq<Channel>)
    requires StrictlySorted(xs) && x !in xs
    ensures StrictlySorted(Insert(x, xs))
  {
    if xs == [] {
    } else if Le(x, xs[0]) {
      forall i | 0 <= i < |xs| ensures Le(x, xs[i]) {
        if i > 0 { NameLeTransitive(x.name, xs[0].name, xs[i].name); }
      }
    } else {
      InsertSorted(x, xs[1..]);
      InsertElements(x, xs[1..]);
      var rest := Insert(x, xs[1..]);
      forall i | 0 <= i < |rest| ensures Le(xs[0], rest[i]) && rest[i] != xs[0] {
        assert rest[i] in rest;
        NameLeTotal(x.name, xs[0].name);
      }
    }
  }

  lemma {:induction false} SortSorts(xs: seq<Channel>)
    requires NoDuplicates(xs)
    ensures StrictlySorted(Sort(xs))
    ensures forall y :: y in Sort(xs) <==> y in xs
  {
    if xs == [] {
    } else {
      SortSorts(xs[1..]);
      InsertElements(xs[0], Sort(xs[1..]));
      InsertSorted(xs[0], Sort(xs[1..]));
      assert xs == [xs[0]] + xs[1..];
    }
  }

  lemma {:induction false} TailElements(xs: seq<Channel>)
    requires StrictlySorted(xs) && xs != []
    ensures forall c :: c in xs[1..] <==> c in xs && c != xs[0]
  {
    assert xs == [xs[0]] + xs[1..];
  }

  /** A strictly sorted list is the only one with its elements. */
  lemma {:induction false} StrictlySortedUnique(xs: seq<Channel>, ys: seq<Channel>)
    requires StrictlySorted(xs) && StrictlySorted(ys)
    requires forall c :: c in xs <==> c in ys
    ensures xs == ys
  {
    assert ys != [] ==> ys[0] in ys;
    if xs == [] {
    } else {
      assert xs[0] in ys && ys[0] in xs;
      NameLeTotal(xs[0].name, ys[0].name);
      assert xs[0] == ys[0];
      TailElements(xs);
      TailElements(ys);
      StrictlySortedUnique(xs[1..], ys[1..]);
      assert xs == [xs[0]] + xs[1..] && ys == [ys[0]] + ys[1..];
    }
  }

  /** The requested channels that were not recovered, each once, in request order. */
  function Unrecovered(requested: seq<Channel>, recovered: set<Channel>): (r: seq<Channel>)
    ensures NoDuplicates(r)
    ensures forall ch :: ch in r <==> ch in requested && ch !in recovered
  {
    if requested == [] then [] else
    var rest := requested[..|requested| - 1];
    var last := requested[|requested| - 1];
    assert requested == rest + [last];
    var r := Unrecovered(rest, recovered);
    if last in recovered || last in r then r else r + [last]
  }

  /** The channels a replay recovers: all authorized ones, unless it failed or was truncated. */
  function Recovered(authorized: seq<Channel>, truncated: bool, failed: bool): set<Channel> {
    if failed || truncated then {} else Elements(authorized)
  }

  function PossibleGap(requested: seq<Channel>, recovered: set<Channel>): seq<Channel> {
    Sort(Unrecovered(requested, recovered))
  }

  /** The list is exactly requested minus recovered, sorted, without repetition. */
  lemma {:induction false} PossibleGapExact(requested: seq<Channel>, recovered: set<Channel>)
    ensures StrictlySorted(PossibleGap(requested, recovered))
    ensures forall ch :: ch in PossibleGap(requested, recovered) <==> ch in requested && ch !in recovered
  {
    SortSorts(Unrecovered(requested, recovered));
  }

  method RecoveryOutcome(requested: seq<Channel>, authorized: seq<Channel>, truncated: bool, failed: bool)
    returns (possibleGap: seq<Channel>, isTruncated: bool)
    ensures isTruncated == (truncated && !failed)
    ensures possibleGap == PossibleGap(requested, Recovered(authorized, truncated, failed))
    ensures StrictlySorted(possibleGap)
    ensures forall ch :: ch in possibleGap <==>
              ch in requested && (failed || truncated || ch !in authorized)
  {
    isTruncated := truncated;
    if failed {
      isTruncated := false;
    }
    var recovered: set<Channel> := {};
    if !failed && !isTruncated {
      for i := 0 to |authorized|
        invariant recovered == Elements(authorized[..i])
      {
        assert authorized[..i + 1] == authorized[..i] + [authorized[i]];
        recovered := recovered + {authorized[i]};
      }
      assert authorized[..|authorized|] == authorized;
    }
    possibleGap := [];
    var seen: set<Channel> := {};
    for i := 0 to |requested|
      invariant possibleGap == Unrecovered(requested[..i], recovered)
      invariant seen == Elements(possibleGap)
    {
      UnrecoveredStep(requested, i, recovered);
      var ch := requested[i];
      if ch in recovered { continue; }
      if ch in seen { continue; }
      seen := seen + {ch};
      possibleGap := possibleGap + [ch];
    }
    assert requested[..|requested|] == requested;
    possibleGap := Sort(possibleGap);
    PossibleGapExact(requested, recovered);
  }

  lemma {:induction false} UnrecoveredStep(requested: seq<Channel>, i: nat, recovered: set<Channel>)
    requires i < |requested|
    ensures Unrecovered(requested[..i + 1], recovered) ==
            var r := Unrecovered(requested[..i], recovered);
            if requested[i] in recovered || requested[i] in r then r else r + [requested[i]]
  {
    assert requested[..i + 1][..i] == requested[..i];
  }
}
