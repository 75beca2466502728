/** k8s/ingress.go: the shared Ingress, edited through rule objects compared by identity. */
module IngressManager {
  import opened Names
  import opened Wrappers
  import opened Model
  import opened Protocol
  import opened RuleObjects
  import opened Client
  import Effects
  import Results

  /** A Go `map[ext.IngressRule]bool`, passed by reference. */
  class RuleSet {
    var rules: map<IngressRule, bool>

    constructor ()
      ensures rules == map[]
    {
      rules := map[];
    }
  }

  method ToRuleMap(sl: seq<IngressRule>) returns (hash: RuleSet)
    ensures fresh(hash) && forall r :: r in hash.rules <==> r in sl
  {
    hash := new RuleSet();
    for i := 0 to |sl|
      invariant fresh(hash) && forall r :: r in hash.rules <==> r in sl[..i]
    {
      hash.rules := hash.rules[sl[i] := true];
    }
  }

  /** The map's keys in whatever order the iteration visits them. */
  method ToRuleSlice(hash: RuleSet) returns (sl: seq<IngressRule>)
    ensures forall r :: r in sl <==> r in hash.rules
    ensures Once(sl)
  {
    sl := [];
    var left := hash.rules.Keys;
    while left != {}
      invariant left <= hash.rules.Keys
      invariant forall r :: r in sl <==> r in hash.rules && r !in left
      invariant Once(sl)
      decreases left
    {
      var v :| v in left;
      sl, left := sl + [v], left - {v};
    }
  }

  method AppendNewRules(existing: RuleSet, updated: RuleSet)
    requires existing != updated
    modifies existing
    ensures forall r :: r in existing.rules <==> r in old(existing.rules) || r in updated.rules
  {
    var left := updated.rules.Keys;
    while left != {}
      invariant left <= updated.rules.Keys && updated.rules == old(updated.rules)
      invariant forall r :: r in existing.rules <==> r in old(existing.rules) || (r in updated.rules && r !in left)
      decreases left
    {
      var u :| u in left;
      if u !in existing.rules {
        existing.rules := existing.rules[u := true];
      }
      left := left - {u};
    }
  }

  method RemoveObsoleteRules(existing: RuleSet, updated: RuleSet, serviceName: string)
    requires existing != updated && forall r | r in existing.rules :: r.OnePath()
    modifies existing
    ensures forall r :: r in existing.rules <==>
      r in old(existing.rules) && (r in updated.rules || r.Backend() != serviceName)
  {
    var left := existing.rules.Keys;
    while left != {}
      invariant left <= old(existing.rules.Keys) && updated.rules == old(updated.rules)
      invariant forall r :: r in existing.rules <==>
        r in old(existing.rules) && (r in left || r in updated.rules || r.Backend() != serviceName)
      decreases left
    {
      var e :| e in left;
      if e !in updated.rules {
        if e.Backend() == serviceName {
          existing.rules := existing.rules - {e};
        }
      }
      left := left - {e};
    }
  }

  /** The rule objects of all other services, in order. */
  function OtherObjects(rules: seq<IngressRule>, service: string): (others: seq<IngressRule>)
    requires WellFormed(rules)
    ensures WellFormed(others)
  {
    if rules == [] then []
    else (if rules[0].Backend() == service then [] else [rules[0]]) + OtherObjects(rules[1..], service)
  }

  lemma {:induction false} OtherValues(rules: seq<IngressRule>, service: string)
    requires WellFormed(rules)
    ensures Values(OtherObjects(rules, service)) == Others(Values(rules), service)
  {
    if rules != [] {
      OtherValues(rules[1..], service);
      assert Values(rules) == [rules[0].Value()] + Values(rules[1..]);
      assert OtherObjects(rules, service)
          == (if rules[0].Backend() == service then [] else [rules[0]]) + OtherObjects(rules[1..], service);
    }
  }

  /** One turn of the removal loop: either the rule is cut, or the index moves past it. */
  lemma CutStep(rules: seq<IngressRule>, i: nat, service: string)
    requires WellFormed(rules) && i < |rules|
    ensures rules[i].Backend() == service ==>
      var cut := rules[..i] + rules[i + 1..];
      WellFormed(cut) && cut[..i] + OtherObjects(cut[i..], service) == rules[..i] + OtherObjects(rules[i..], service)
    ensures rules[i].Backend() != service ==>
      rules[..i + 1] + OtherObjects(rules[i + 1..], service) == rules[..i] + OtherObjects(rules[i..], service)
  {
    var tail := rules[i..];
    assert tail[1..] == rules[i + 1..] && tail[0] == rules[i];
    var cut := rules[..i] + rules[i + 1..];
    assert cut[..i] == rules[..i] && cut[i..] == tail[1..];
    if rules[i].Backend() != service {
      assert rules[..i + 1] == rules[..i] + [tail[0]];
    }
  }

  lemma {:induction false} OtherObjectsSeparate(rules: seq<IngressRule>, service: string)
    requires WellFormed(rules) && Separate(rules)
    ensures Separate(OtherObjects(rules, service))
    ensures forall r :: r in OtherObjects(rules, service) <==> r in rules && r.Backend() != service
  {
    if rules != [] {
      assert rules == [rules[0]] + rules[1..];
      OtherObjectsSeparate(rules[1..], service);
      forall r | r in rules[1..] ensures r.http != rules[0].http {
        var k :| 0 <= k < |rules[1..]| && rules[1..][k] == r;
        assert rules[k + 1] == r;
      }
    }
  }

  /**
   The identity-keyed `removeDifference` refines the plain specification, for every iteration order:
   as values, the result is the existing rules of the other services and all updated rules, each as
   often as it was given.
   */
  method RemoveDifference(existing: seq<IngressRule>, updated: seq<IngressRule>, serviceName: string)
    returns (rules: seq<IngressRule>)
    requires WellFormed(existing) && WellFormed(updated) && Separate(existing + updated)
    ensures WellFormed(rules)
    ensures multiset(Values(rules)) == multiset(Others(Values(existing), serviceName)) + multiset(Values(updated))
  {
    var hashExisting := ToRuleMap(existing);
    var hashUpdated := ToRuleMap(updated);
    AppendNewRules(hashExisting, hashUpdated);
    RemoveObsoleteRules(hashExisting, hashUpdated, serviceName);
    rules := ToRuleSlice(hashExisting);
    DifferenceValues(existing, updated, serviceName, rules);
  }

  /** Any listing, without repetition, of the remaining rule objects has the specified values. */
  lemma DifferenceValues(existing: seq<IngressRule>, updated: seq<IngressRule>, serviceName: string,
                         rules: seq<IngressRule>)
    requires WellFormed(existing) && WellFormed(updated) && Separate(existing + updated)
    requires Once(rules)
    requires forall r :: r in rules <==> (r in existing && r.Backend() != serviceName) || r in updated
    ensures WellFormed(rules)
    ensures multiset(Values(rules)) == multiset(Others(Values(existing), serviceName)) + multiset(Values(updated))
  {
    hide OtherObjects, Others;
    var others := OtherObjects(existing, serviceName);
    assert forall i | 0 <= i < |rules| :: rules[i] in rules;
    WantedSeparate(existing, updated, serviceName);
    ObjectsOf(existing, updated, serviceName);
    OtherValues(existing, serviceName);
    SameElementsSameCounts(rules, others + updated);
    SameRulesSameValues(rules, others + updated);
    assert Values(others + updated) == Values(others) + Values(updated);
  }

  lemma ObjectsOf(existing: seq<IngressRule>, updated: seq<IngressRule>, serviceName: string)
    requires WellFormed(existing) && WellFormed(updated) && Separate(existing + updated)
    ensures forall r :: r in OtherObjects(existing, serviceName) + updated
                 <==> (r in existing && r.Backend() != serviceName) || r in updated
  {
    assert forall i | 0 <= i < |existing| :: (existing + updated)[i] == existing[i];
    OtherObjectsSeparate(existing, serviceName);
  }

  lemma SameElementsSameCounts(a: seq<IngressRule>, b: seq<IngressRule>)
    requires Once(a) && Once(b)
    requires forall r :: r in a <==> r in b
    ensures multiset(a) == multiset(b)
  {
    forall r ensures multiset(a)[r] == multiset(b)[r] {
      CountsOnce(a, r);
      CountsOnce(b, r);
    }
  }

  /** Filtered stored rules and freshly built ones never coincide: their `HTTP` objects differ. */
  lemma WantedSeparate(existing: seq<IngressRule>, updated: seq<IngressRule>, serviceName: string)
    requires WellFormed(existing) && WellFormed(updated) && Separate(existing + updated)
    ensures Once(OtherObjects(existing, serviceName) + updated)
  {
    var all := existing + updated;
    assert forall i | 0 <= i < |existing| :: all[i] == existing[i];
    assert forall j | 0 <= j < |updated| :: all[|existing| + j] == updated[j];
    assert Separate(existing);
    OtherObjectsSeparate(existing, serviceName);
    forall r, q | r in existing && q in updated ensures r.http != q.http {
      var i :| 0 <= i < |existing| && existing[i] == r;
      var j :| 0 <= j < |updated| && updated[j] == q;
      assert all[i].http != all[|existing| + j].http;
    }
  }

  /** `createIngressRules`: one rule object per URI, or an error on the first URI that does not parse. */
  method CreateIngressRules(parse: Parser, lrpName: string, uriList: seq<string>)
    returns (rules: Option<seq<IngressRule>>)
    ensures rules.Some? <==> AllParse(parse, uriList)
    ensures rules.Some? ==>
      && WellFormed(rules.value) && Separate(rules.value) && Values(rules.value) == Rules(parse, lrpName, uriList)
      && forall i | 0 <= i < |rules.value| :: fresh(rules.value[i].http)
    ensures (forall i | 0 <= i < |uriList| :: parse(uriList[i]).Some?) <==> rules.Some?
    ensures rules.Some? ==> |rules.value| == |uriList|
    ensures rules.Some? ==> forall i | 0 <= i < |uriList| ::
      var url := parse(uriList[i]).value;
      && rules.value[i].host == ToLower(url.host)
      && rules.value[i].http.paths ==
           [HTTPIngressPath(if url.path == "" then "/" else url.path, "cf-" + lrpName, 8080)]
  {
    var found := [];
    for i := 0 to |uriList|
      invariant |found| == i && WellFormed(found) && Separate(found)
      invariant forall k | 0 <= k < i ::
        parse(uriList[k]).Some? && found[k].Value() == RuleFor(parse, lrpName, uriList[k])
      invariant forall k | 0 <= k < i :: fresh(found[k].http)
      invariant forall k | 0 <= k < i ::
        && found[k].host == ToLower(parse(uriList[k]).value.host)
        && found[k].http.paths == [HTTPIngressPath(
             if parse(uriList[k]).value.path == "" then "/" else parse(uriList[k]).value.path, "cf-" + lrpName, 8080)]
    {
      match parse(uriList[i]) {
        case None => return None;
        case Some(url) =>
          var http := new HTTPIngressRuleValue([HTTPIngressPath(PathOf(url.path), ServiceName(lrpName), 8080)]);
          found := found + [IngressRule(ToLower(url.host), http)];
      }
    }
    rules := Some(found);
  }

  /** The rules of `service` are cut out of the slice in place, the index stepping back after each cut. */
  method RemoveRules(ing: Ingress, service: string)
    requires WellFormed(ing.rules)
    modifies ing
    ensures WellFormed(ing.rules) && ing.rules == OtherObjects(old(ing.rules), service)
  {
    var i := 0;
    ghost var all := ing.rules;
    while i < |ing.rules|
      invariant 0 <= i <= |ing.rules| && WellFormed(ing.rules)
      invariant ing.rules[..i] + OtherObjects(ing.rules[i..], service) == OtherObjects(all, service)
      decreases |ing.rules| - i
    {
      CutStep(ing.rules, i, service);
      if ing.rules[i].Backend() == service {
        ing.rules := ing.rules[..i] + ing.rules[i + 1..];
        i := i - 1;
      }
      i := i + 1;
    }
    assert ing.rules[..i] == ing.rules && OtherObjects([], service) == [];
  }

  /** Storing the rules of the other services, or deleting the object when none are left, drops the service's group. */
  lemma StoredWithout(stored: seq<Rule>, service: string)
    ensures var left := Others(stored, service);
      Effects.WithRules(Some(Group(stored)), service, multiset{}) == if left == [] then None else Some(Group(left))
  {
    GroupOthers(stored, service);
    GroupOthers(Others(stored, service), service);
  }

  /** Storing a spec updated with at least one URI replaces the app's group. */
  lemma StoredWith(parse: Parser, stored: seq<Rule>, app: string, uris: seq<string>, after: seq<Rule>)
    requires AllParse(parse, uris) && uris != []
    requires multiset(after) == multiset(Others(stored, ServiceName(app))) + multiset(Rules(parse, app, uris))
    ensures var rules := multiset(Rules(parse, app, uris));
      && Effects.WithRules(Some(Group(stored)), ServiceName(app), rules) == Some(Group(after))
      && (stored == [] ==> Effects.WithRules(None, ServiceName(app), rules) == Some(Group(after)))
  {
    hide Others;
    Effects.RulesEmptyExactly(parse, app, uris);
    GroupReplaced(stored, ServiceName(app), Rules(parse, app, uris), after);
    Effects.ReplacedBackends(Some(Group(stored)), ServiceName(app), multiset(Rules(parse, app, uris)));
    if stored == [] {
      var none: Backends := map[];
      assert Group(stored) == none;
      Effects.ReplacedBackends(None, ServiceName(app), multiset(Rules(parse, app, uris)));
    }
  }

  class KubeIngressManager {
    const client: Server
    const parse: Parser

    constructor (client: Server, parse: Parser)
      ensures this.client == client && this.parse == parse
    {
      this.client, this.parse := client, parse;
    }

    function Environment(): Env {
      Env(parse, client.healthy)
    }

    method Delete(lrpName: string) returns (o: Outcome)
      modifies client
      ensures Final(client.Snapshot(), o, client.requests, []) ==
        Finish(Environment(), old(client.Snapshot()), Do(FetchIngress(lrpName), Halt(Ok)), old(client.requests))
      ensures o.Ok? ==>
        && old(client.ingress).Some?
        && var left := Others(old(client.ingress.value), ServiceName(lrpName));
           client.ingress == if left == [] then None else Some(left)
      ensures client.statefulSets == old(client.statefulSets) && client.services == old(client.services)
    {
      hide Finish, Others, OtherObjects, Group, Effects.WithRules, Values;
      ghost var service := ServiceName(lrpName);
      Effects.DeleteRulesRuns(Environment(), client.Snapshot(), lrpName, client.requests);
      var ok, ing := client.GetIngress();
      if ing == null {
        return Err;
      }
      OtherValues(ing.rules, service);
      StoredWithout(client.ingress.value, service);
      RemoveRules(ing, ServiceName(lrpName));
      if |ing.rules| == 0 {
        ok := client.DeleteIngress();
      } else {
        ok := client.UpdateIngress(ing);
      }
      o := if ok then Ok else Err;
    }

    /** `updateSpec`: an error leaves the object alone. */
    method UpdateSpec(ing: Ingress, lrpName: string, uriList: seq<string>) returns (ok: bool)
      requires WellFormed(ing.rules) && Separate(ing.rules)
      modifies ing
      ensures ok == AllParse(parse, uriList) && WellFormed(ing.rules)
      ensures ok ==>
        multiset(Values(ing.rules)) == multiset(Others(Values(old(ing.rules)), ServiceName(lrpName)))
          + multiset(Rules(parse, lrpName, uriList))
      ensures !ok ==> ing.rules == old(ing.rules)
    {
      hide AllParse, Others;
      ghost var existing := ing.rules;
      var rules := CreateIngressRules(parse, lrpName, uriList);
      if rules.None? {
        return false;
      }
      assert Separate(existing + rules.value);
      ing.rules := RemoveDifference(ing.rules, rules.value, ServiceName(lrpName));
      ok := true;
    }

    method CreateIngress(lrpName: string, uriList: seq<string>) returns (o: Outcome)
      modifies client
      ensures o == if uriList == [] then Ok
        else if AllParse(parse, uriList) && client.healthy(old(client.requests)) && old(client.ingress).None?
          then Ok else Err
      ensures client.requests == old(client.requests) + if uriList == [] || !AllParse(parse, uriList) then 0 else 1
      ensures client.statefulSets == old(client.statefulSets) && client.services == old(client.services)
      ensures if o.Ok? && uriList != []
        then client.ingress.Some? && multiset(client.ingress.value) == multiset(Rules(parse, lrpName, uriList))
        else client.ingress == old(client.ingress)
    {
      if |uriList| == 0 {
        return Ok;
      }
      var ing := new Ingress([]);
      var ok := UpdateSpec(ing, lrpName, uriList);
      if !ok {
        return Err;
      }
      ok := client.CreateIngress(ing);
      o := if ok then Ok else Err;
    }

    method Update(lrp: LRP) returns (o: Outcome)
      modifies client
      ensures Final(client.Snapshot(), o, client.requests, []) ==
        Finish(Environment(), old(client.Snapshot()), Do(ListIngresses(lrp), Halt(Ok)), old(client.requests))
      ensures client.statefulSets == old(client.statefulSets) && client.services == old(client.services)
      ensures o.Ok? ==> Results.RoutedByLRP(parse, old(client.Snapshot().ingress), client.Snapshot().ingress, lrp)
    {
      hide Finish, Others, AllParse, Group, Values, Rules, Separate, WellFormed, Lookup, Results.RoutedByLRP;
      ghost var env, c, n := Environment(), client.Snapshot(), client.requests;
      Results.IngressUpdateLeaves(env, c, lrp, n);
      if Uris(lrp).Plain? {
        UpdateStopsEarly(env, c, lrp, n);
        return Panic;
      }
      var uriList := Uris(lrp).uris;
      var ok, ing := client.GetIngress();
      if !ok {
        UpdateStopsEarly(env, c, lrp, n);
        return Err;
      }
      if ing != null {
        if |uriList| == 0 {
          EmptyUpdateRuns(env, c, lrp, n);
          o := Delete(lrp.name);
          return;
        }
        ghost var stored := client.ingress.value;
        ok := UpdateSpec(ing, lrp.name, uriList);
        if !ok {
          UpdateStopsEarly(env, c, lrp, n);
          return Err;
        }
        UpdateWrites(env, c, stored, lrp, n, Values(ing.rules));
        ok := client.UpdateIngress(ing);
        o := if ok then Ok else Err;
      } else {
        o := CreateIngress(lrp.name, uriList);
        if |uriList| == 0 {
          EmptyUpdateRuns(env, c, lrp, n);
        } else if client.ingress.Some? {
          NothingToStore(ServiceName(lrp.name));
          UpdateWrites(env, c, [], lrp, n, client.ingress.value);
        } else {
          UpdateStopsEarly(env, c, lrp, n);
        }
      }
    }
  }

  lemma NothingToStore(service: string)
    ensures Others([], service) == []
  {
  }

  /** Undecodable routes, a refused listing, a URI that does not parse, or a first write that is refused. */
  lemma UpdateStopsEarly(env: Env, c: Cluster, lrp: LRP, n: nat)
    ensures Uris(lrp).Plain? ==> Finish(env, c, Do(ListIngresses(lrp), Halt(Ok)), n) == Final(c, Panic, n, [])
    ensures Uris(lrp).UriList? && (!env.healthy(n) || !AllParse(env.parse, Uris(lrp).uris)) ==>
      Finish(env, c, Do(ListIngresses(lrp), Halt(Ok)), n) == Final(c, Err, n + 1, [])
    ensures Uris(lrp).UriList? && Uris(lrp).uris != [] && AllParse(env.parse, Uris(lrp).uris) ==>
      (env.healthy(n) && !env.healthy(n + 1) ==>
        Finish(env, c, Do(ListIngresses(lrp), Halt(Ok)), n) == Final(c, Err, n + 2, []))
  {
    hide Finish, AllParse, Rules, Effects.WithRules, Lookup;
    Effects.UpdateRulesRuns(env, c, lrp, n);
  }

  /** Without URIs, an existing Ingress is fetched again to delete the app's rules. */
  lemma EmptyUpdateRuns(env: Env, c: Cluster, lrp: LRP, n: nat)
    requires Uris(lrp) == UriList([]) && env.healthy(n)
    ensures Finish(env, c, Do(ListIngresses(lrp), Halt(Ok)), n) ==
      if c.ingress.Some? then Finish(env, c, Do(FetchIngress(lrp.name), Halt(Ok)), n + 1) else Final(c, Ok, n + 1, [])
  {
    hide Finish, AllParse, Rules, Effects.WithRules, Lookup;
    Effects.UpdateRulesRuns(env, c, lrp, n);
    Effects.DeleteRulesRuns(env, c, lrp.name, n + 1);
    Effects.NothingParses(env.parse);
    Effects.RulesEmptyExactly(env.parse, lrp.name, []);
    Effects.ReplacedBackends(c.ingress, ServiceName(lrp.name), multiset{});
  }

  /** With URIs, one write stores the other services' rules and the new ones, in whatever order. */
  lemma UpdateWrites(env: Env, c: Cluster, stored: seq<Rule>, lrp: LRP, n: nat, after: seq<Rule>)
    requires Uris(lrp).UriList? && Uris(lrp).uris != [] && AllParse(env.parse, Uris(lrp).uris) && env.healthy(n)
    requires if c.ingress.Some? then c.ingress == Some(Group(stored)) else stored == []
    requires multiset(after) ==
      multiset(Others(stored, ServiceName(lrp.name))) + multiset(Rules(env.parse, lrp.name, Uris(lrp).uris))
    ensures Finish(env, c, Do(ListIngresses(lrp), Halt(Ok)), n) ==
      if env.healthy(n + 1) then Final(c.(ingress := Some(Group(after))), Ok, n + 2, []) else Final(c, Err, n + 2, [])
  {
    hide Finish, AllParse, Rules, Effects.WithRules, Lookup, Group, Others;
    Effects.UpdateRulesRuns(env, c, lrp, n);
    StoredWith(env.parse, stored, lrp.name, Uris(lrp).uris, after);
  }
}
