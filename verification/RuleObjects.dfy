/**
 Ingress rules as objects: the `HTTP` field of a rule is a pointer, so rules used as map keys compare
 by identity. This module relates rule objects to the rule values that the API server stores.
 */
module RuleObjects {
  import opened Model
  import opened Names
  import opened Wrappers

  datatype HTTPIngressPath = HTTPIngressPath(path: string, serviceName: string, servicePort: int)

  class HTTPIngressRuleValue {
    const paths: seq<HTTPIngressPath>

    constructor (paths: seq<HTTPIngressPath>)
      ensures this.paths == paths
    {
      this.paths := paths;
    }
  }

  datatype IngressRule = IngressRule(host: string, http: HTTPIngressRuleValue) {
    /** This code only ever writes rules with a single path. */
    predicate OnePath() {
      |http.paths| == 1
    }

    function Backend(): string
      requires OnePath()
    {
      http.paths[0].serviceName
    }

    function Value(): Rule
      requires OnePath()
    {
      Rule(host, http.paths[0].path, http.paths[0].serviceName, http.paths[0].servicePort)
    }
  }

  predicate WellFormed(rules: seq<IngressRule>) {
    forall i | 0 <= i < |rules| :: rules[i].OnePath()
  }

  function Values(rules: seq<IngressRule>): (values: seq<Rule>)
    requires WellFormed(rules)
    ensures |values| == |rules|
    ensures forall i | 0 <= i < |rules| :: values[i] == rules[i].Value()
  {
    seq(|rules|, i requires 0 <= i < |rules| => rules[i].Value())
  }

  /** No two rules share their `HTTP` object. */
  ghost predicate Separate(rules: seq<IngressRule>) {
    forall i, j | 0 <= i < j < |rules| :: rules[i].http != rules[j].http
  }

  /** The rules that do not name `service`, in order. */
  function Others(rules: seq<Rule>, service: string): seq<Rule> {
    if rules == [] then []
    else (if rules[0].service == service then [] else [rules[0]]) + Others(rules[1..], service)
  }

  function Owned(rules: seq<Rule>, service: string): seq<Rule> {
    if rules == [] then []
    else (if rules[0].service == service then [rules[0]] else []) + Owned(rules[1..], service)
  }

  /** Stored rules grouped by backend: the run-level view of the Ingress. */
  function Group(rules: seq<Rule>): Backends {
    map s | s in (set r | r in rules :: r.service) :: multiset(Owned(rules, s))
  }

  lemma {:induction false} OwnedCount(rules: seq<Rule>, service: string, r: Rule)
    ensures multiset(Owned(rules, service))[r] == if r.service == service then multiset(rules)[r] else 0
  {
    if rules != [] {
      OwnedCount(rules[1..], service, r);
      assert rules == [rules[0]] + rules[1..];
      assert multiset(rules) == multiset{rules[0]} + multiset(rules[1..]);
    }
  }

  lemma OthersOfFirst(rules: seq<Rule>, service: string)
    requires rules != []
    ensures var rest := Others(rules[1..], service);
      multiset(Others(rules, service)) ==
        multiset(rest) + if rules[0].service == service then multiset{} else multiset{rules[0]}
  {
    var rest := Others(rules[1..], service);
    assert [] + rest == rest && multiset([rules[0]] + rest) == multiset{rules[0]} + multiset(rest);
  }

  lemma {:induction false} OthersCount(rules: seq<Rule>, service: string, r: Rule)
    ensures multiset(Others(rules, service))[r] == if r.service == service then 0 else multiset(rules)[r]
  {
    if rules != [] {
      hide Others;
      OthersCount(rules[1..], service, r);
      OthersOfFirst(rules, service);
      assert rules == [rules[0]] + rules[1..];
      assert multiset(rules) == multiset{rules[0]} + multiset(rules[1..]);
    } else {
      assert Others(rules, service) == [];
    }
  }

  lemma {:induction false} OthersAppend(p: seq<Rule>, q: seq<Rule>, service: string)
    ensures Others(p + q, service) == Others(p, service) + Others(q, service)
  {
    if p == [] {
      assert p + q == q;
    } else {
      assert (p + q)[1..] == p[1..] + q;
      OthersAppend(p[1..], q, service);
    }
  }

  /**
   What is built for an app goes with the app, and only that: wherever its rules stand among others, removing
   its service takes out exactly the rules built for it, and removing any other service takes none of them.
   */
  lemma RulesGoWithTheirApp(parse: Parser, before: seq<Rule>, app: string, uris: seq<string>,
                            after: seq<Rule>, service: string)
    requires AllParse(parse, uris)
    ensures Others(before + Rules(parse, app, uris) + after, service) ==
      Others(before, service) + (if service == ServiceName(app) then [] else Rules(parse, app, uris))
      + Others(after, service)
  {
    var rules := Rules(parse, app, uris);
    OthersAppend(before + rules, after, service);
    OthersAppend(before, rules, service);
    OthersOfOne(rules, ServiceName(app), service);
  }

  lemma {:induction false} OthersOfOne(rules: seq<Rule>, owner: string, service: string)
    requires forall i | 0 <= i < |rules| :: rules[i].service == owner
    ensures Others(rules, service) == if service == owner then [] else rules
  {
    if rules != [] {
      OthersOfOne(rules[1..], owner, service);
      assert rules == [rules[0]] + rules[1..];
    }
  }

  lemma GroupMembers(rules: seq<Rule>)
    ensures forall s :: s in Group(rules) <==> exists i :: 0 <= i < |rules| && rules[i].service == s
    ensures forall s | s in Group(rules) :: Group(rules)[s] == multiset(Owned(rules, s))
  {
    hide Owned;
  }

  /** Grouping loses no rule and no repetition: a service's group counts its rules as they are stored. */
  lemma GroupCounts(rules: seq<Rule>, s: string, r: Rule)
    ensures RulesOf(Some(Group(rules)), s)[r] == if r.service == s then multiset(rules)[r] else 0
  {
    hide Owned;
    OwnedCount(rules, s, r);
    if s !in Group(rules) {
      assert r in multiset(rules) ==> r in rules;
    }
  }

  lemma {:induction false} OwnedExactly(rules: seq<Rule>, s: string)
    ensures s in Group(rules) <==> Owned(rules, s) != []
  {
    hide Group, Owned;
    GroupMembers(rules);
    OwnedWhenNamed(rules, s);
  }

  lemma {:induction false} OwnedWhenNamed(rules: seq<Rule>, s: string)
    ensures Owned(rules, s) != [] <==> exists i :: 0 <= i < |rules| && rules[i].service == s
  {
    if rules != [] {
      OwnedWhenNamed(rules[1..], s);
      assert forall i | 0 < i < |rules| :: rules[i] == rules[1..][i - 1];
      assert forall i | 0 <= i < |rules| - 1 :: rules[1..][i] == rules[i + 1];
    }
  }

  lemma {:induction false} OwnedOfOthers(rules: seq<Rule>, service: string, s: string)
    ensures Owned(Others(rules, service), s) == if s == service then [] else Owned(rules, s)
  {
    if rules != [] {
      OwnedOfOthers(rules[1..], service, s);
      if rules[0].service != service {
        var others := Others(rules[1..], service);
        assert Others(rules, service) == [rules[0]] + others;
        assert ([rules[0]] + others)[1..] == others;
      } else {
        assert Others(rules, service) == Others(rules[1..], service);
      }
    }
  }

  /** Filtering a service's rules out removes its group and no other. */
  lemma GroupOthers(rules: seq<Rule>, service: string)
    ensures Group(Others(rules, service)) == Group(rules) - {service}
    ensures Group(rules) == map[] <==> rules == []
  {
    hide Owned, Others, Group;
    GroupMembers(rules);
    GroupMembers(Others(rules, service));
    forall s ensures s in Group(Others(rules, service)) <==> s in Group(rules) && s != service {
      OwnedExactly(rules, s);
      OwnedExactly(Others(rules, service), s);
      OwnedOfOthers(rules, service, s);
    }
    forall s | s in Group(Others(rules, service)) ensures Group(Others(rules, service))[s] == Group(rules)[s] {
      OwnedOfOthers(rules, service, s);
    }
    if rules != [] { assert rules[0].service in Group(rules); }
  }

  /** The rules of one service after its old ones were replaced by `added`. */
  lemma OwnedReplaced(rules: seq<Rule>, service: string, added: seq<Rule>, after: seq<Rule>, s: string)
    requires forall r | r in added :: r.service == service
    requires multiset(after) == multiset(Others(rules, service)) + multiset(added)
    ensures multiset(Owned(after, s)) == if s == service then multiset(added) else multiset(Owned(rules, s))
  {
    hide Owned, Others;
    forall r
      ensures multiset(Owned(after, s))[r] ==
        (if s == service then multiset(added) else multiset(Owned(rules, s)))[r]
    {
      OthersCount(rules, service, r); OwnedCount(after, s, r); OwnedCount(rules, s, r);
      assert r in multiset(added) ==> r in added;
    }
  }

  /** Replacing a service's rules by new ones, in any order, replaces its group. */
  lemma GroupReplaced(rules: seq<Rule>, service: string, added: seq<Rule>, after: seq<Rule>)
    requires added != [] && forall r | r in added :: r.service == service
    requires multiset(after) == multiset(Others(rules, service)) + multiset(added)
    ensures Group(after) == Group(rules)[service := multiset(added)]
  {
    hide Owned, Others, Group;
    GroupMembers(rules);
    GroupMembers(after);
    forall s ensures multiset(Owned(after, s)) == if s == service then multiset(added) else multiset(Owned(rules, s)) {
      OwnedReplaced(rules, service, added, after, s);
    }
    assert added[0] in multiset(added);
    forall s ensures s in Group(after) <==> s in Group(rules) || s == service {
      OwnedExactly(rules, s);
      OwnedExactly(after, s);
      EmptyCounts(Owned(after, s));
      EmptyCounts(Owned(rules, s));
    }
  }

  lemma EmptyCounts(xs: seq<Rule>)
    ensures xs == [] <==> multiset(xs) == multiset{}
  {
    if xs != [] { assert xs[0] in multiset(xs); }
  }

  ghost predicate Once<T>(xs: seq<T>) {
    forall i, j | 0 <= i < j < |xs| :: xs[i] != xs[j]
  }

  /** A sequence without repetitions holds each of its elements once. */
  lemma {:induction false} CountsOnce<T>(xs: seq<T>, x: T)
    requires Once(xs)
    ensures multiset(xs)[x] == if x in xs then 1 else 0
  {
    if xs != [] {
      assert xs == [xs[0]] + xs[1..];
      CountsOnce(xs[1..], x);
    }
  }

  /** Two listings of the same rules have the same values, whatever the order. */
  lemma {:induction false} SameRulesSameValues(a: seq<IngressRule>, b: seq<IngressRule>)
    requires WellFormed(a) && WellFormed(b) && multiset(a) == multiset(b)
    ensures multiset(Values(a)) == multiset(Values(b))
    decreases |a|, 1
  {
    if a == [] {
      assert |b| == |multiset(b)| == 0;
    } else {
      var x := a[0];
      assert x in multiset(a) && x in multiset(b) && x in b;
      var k :| 0 <= k < |b| && b[k] == x;
      TakeOne(a, 0);
      TakeOne(b, k);
      TakenOut(a[..0] + a[1..], b[..k] + b[k + 1..], x);
    }
  }

  lemma TakenOut(a: seq<IngressRule>, b: seq<IngressRule>, x: IngressRule)
    requires WellFormed(a) && WellFormed(b) && multiset{x} + multiset(a) == multiset{x} + multiset(b)
    ensures multiset(Values(a)) == multiset(Values(b))
    decreases |a|, 2
  {
    hide Values, WellFormed;
    assert multiset(a) == (multiset{x} + multiset(a)) - multiset{x};
    assert multiset(b) == (multiset{x} + multiset(b)) - multiset{x};
    SameRulesSameValues(a, b);
  }

  /** Taking one rule out takes its value out. */
  lemma TakeOne(xs: seq<IngressRule>, k: nat)
    requires WellFormed(xs) && k < |xs|
    ensures var rest := xs[..k] + xs[k + 1..];
      && WellFormed(rest) && multiset(xs) == multiset{xs[k]} + multiset(rest)
      && multiset(Values(xs)) == multiset{xs[k].Value()} + multiset(Values(rest))
  {
    assert xs == xs[..k] + [xs[k]] + xs[k + 1..];
    assert Values(xs) == Values(xs[..k]) + [xs[k].Value()] + Values(xs[k + 1..]);
    assert Values(xs[..k] + xs[k + 1..]) == Values(xs[..k]) + Values(xs[k + 1..]);
  }
}
