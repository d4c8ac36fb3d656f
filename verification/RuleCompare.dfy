/** Comparing the rule the cloud reports with the rule the Service should have. */
module RuleCompare {
  import opened Strings
  import opened Ports

  /** The lists of a rule, sorted in place by the comparison. Both the reported rule and the
      derived arguments are such objects. */
  class RuleObject {
    const name: string
    const vpc: string
    var ports: seq<string>
    var protocols: seq<string>
    var sources: seq<Source>

    constructor (r: RuleArgs)
      ensures Value() == r
    {
      name, vpc, ports, protocols, sources := r.name, r.vpc, r.ports, r.protocols, r.sources;
    }

    function Value(): RuleArgs
      reads this
    {
      RuleArgs(name, vpc, ports, protocols, sources)
    }
  }

  function SortTexts(s: seq<string>): (r: seq<string>)
    ensures multiset(r) == multiset(s)
  {
    SortBy((x: string) => x, s)
  }

  function SortSources(s: seq<Source>): (r: seq<Source>)
    ensures multiset(r) == multiset(s)
  {
    SortBy((x: Source) => x.cidr, s)
  }

  function Sorted(r: RuleArgs): RuleArgs {
    r.(ports := SortTexts(r.ports), protocols := SortTexts(r.protocols), sources := SortSources(r.sources))
  }

  /** The same rule up to the order of its lists. */
  ghost predicate Matches(a: RuleArgs, b: RuleArgs) {
    && a.name == b.name && a.vpc == b.vpc
    && multiset(a.ports) == multiset(b.ports)
    && multiset(a.protocols) == multiset(b.protocols)
    && multiset(a.sources) == multiset(b.sources)
  }

  /** Sources derived from a Service carry a CIDR and nothing else. */
  ghost predicate CidrOnly(sources: seq<Source>) {
    forall s | s in sources :: s.resourceId == ""
  }

  lemma SortedTextsDecide(a: seq<string>, b: seq<string>)
    ensures SortTexts(a) == SortTexts(b) <==> multiset(a) == multiset(b)
  {
    if multiset(a) == multiset(b) {
      SortedUnique((x: string) => x, SortTexts(a), SortTexts(b));
    }
  }

  /** Sorting by CIDR alone decides, because one side has no two sources with the same CIDR that
      differ elsewhere. */
  lemma SortedSourcesDecide(a: seq<Source>, b: seq<Source>)
    requires CidrOnly(b)
    ensures SortSources(a) == SortSources(b) <==> multiset(a) == multiset(b)
  {
    if multiset(a) == multiset(b) {
      forall s | s in SortSources(b) ensures s.resourceId == "" {
        assert s in multiset(SortSources(b));
      }
      SortedUnique((x: Source) => x.cidr, SortSources(b), SortSources(a));
    }
  }

  lemma SortedDecides(a: RuleArgs, b: RuleArgs)
    requires CidrOnly(b.sources)
    ensures Sorted(a) == Sorted(b) <==> Matches(a, b)
  {
    SortedTextsDecide(a.ports, b.ports);
    SortedTextsDecide(a.protocols, b.protocols);
    SortedSourcesDecide(a.sources, b.sources);
  }

  /** Without that restriction the comparison can tell apart rules that hold the same sources: the
      order of equal CIDRs is whatever it was. */
  lemma CidrOrderMatters()
    ensures var x, y := Source("10.0.0.0/8", ""), Source("10.0.0.0/8", "r");
            multiset([x, y]) == multiset([y, x]) && SortSources([x, y]) != SortSources([y, x])
  {
    var x, y := Source("10.0.0.0/8", ""), Source("10.0.0.0/8", "r");
    LeqTotal(x.cidr, x.cidr);
    SortTwo(x, y);
    SortTwo(y, x);
    assert multiset([x, y]) == multiset([y, x]);
  }

  lemma SortTwo(x: Source, y: Source)
    requires x.cidr == y.cidr
    ensures SortSources([x, y]) == [x, y]
  {
    var key := (s: Source) => s.cidr;
    LeqTotal(x.cidr, y.cidr);
    assert [x, y][1..] == [y] && [y][1..] == [];
    assert SortBy(key, [y]) == InsertBy(key, y, SortBy(key, [y][1..])) == [y];
    assert SortBy(key, [x, y]) == InsertBy(key, x, SortBy(key, [x, y][1..]));
  }

  /** Sorts all six lists in place, then compares field by field. */
  method CompareFirewallRule(rule: RuleObject, args: RuleObject) returns (matches: bool)
    requires rule != args && CidrOnly(args.sources)
    modifies rule, args
    ensures matches <==> Matches(old(rule.Value()), old(args.Value()))
    ensures rule.Value() == Sorted(old(rule.Value())) && args.Value() == Sorted(old(args.Value()))
  {
    SortedDecides(rule.Value(), args.Value());
    rule.ports, args.ports := SortTexts(rule.ports), SortTexts(args.ports);
    rule.sources, args.sources := SortSources(rule.sources), SortSources(args.sources);
    rule.protocols, args.protocols := SortTexts(rule.protocols), SortTexts(args.protocols);
    matches := rule.name == args.name && rule.vpc == args.vpc && rule.ports == args.ports &&
      rule.protocols == args.protocols && rule.sources == args.sources;
  }

  /** What a PATCH with the derived arguments makes of a rule: everything but its VPC. */
  function Patched(rule: RuleArgs, args: RuleArgs): RuleArgs {
    args.(vpc := rule.vpc)
  }

  /** A PATCH makes the next comparison succeed exactly when the rule is in the right VPC. */
  lemma PatchMakesMatch(rule: RuleArgs, args: RuleArgs)
    ensures Matches(Patched(rule, Sorted(args)), args) <==> rule.vpc == args.vpc
  {
  }
}
