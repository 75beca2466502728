/**
 The Kubernetes API server as this code uses it: creation fails when the object exists, the other
 writes when it does not, and any request may fail without effect. Every object read back is a new one.
 */
module Client {
  import opened Wrappers
  import opened Model
  import opened RuleObjects

  /** An Ingress object as a client holds it; `rules` is its slice `Spec.Rules`. */
  class Ingress {
    var rules: seq<IngressRule>

    constructor (rules: seq<IngressRule>)
      ensures this.rules == rules
    {
      this.rules := rules;
    }
  }

  class Server {
    var statefulSets: map<string, StatefulSet>
    var services: map<string, Service>
    var ingress: Option<seq<Rule>>     // the object named `eirini`
    var requests: nat
    const healthy: nat -> bool

    constructor (healthy: nat -> bool, foreign: map<string, Service>)
      ensures this.healthy == healthy && requests == 0 && Snapshot() == Cluster(map[], foreign, None)
    {
      this.healthy := healthy;
      statefulSets, services, ingress, requests := map[], foreign, None, 0;
    }

    function Snapshot(): Cluster
      reads this
    {
      Cluster(statefulSets, services, if ingress.Some? then Some(Group(ingress.value)) else None)
    }

    method Ask() returns (ok: bool)
      modifies this`requests
      ensures ok == healthy(old(requests)) && requests == old(requests) + 1
    {
      ok := healthy(requests);
      requests := requests + 1;
    }

    // ----- StatefulSets -----

    method ListStatefulSets() returns (items: Option<seq<StatefulSet>>)
      modifies this`requests
      ensures requests == old(requests) + 1 && (items.Some? <==> healthy(old(requests)))
      ensures items.Some? ==> Listing(statefulSets, items.value)
    {
      var ok := Ask();
      if !ok { return None; }
      ghost var order: seq<string> := [];
      var found, left := [], statefulSets.Keys;
      while left != {}
        invariant |order| == |found| && left <= statefulSets.Keys
        invariant forall i, j | 0 <= i < j < |order| :: order[i] != order[j]
        invariant forall k :: k in order <==> k in statefulSets && k !in left
        invariant forall i | 0 <= i < |order| :: found[i] == statefulSets[order[i]]
        decreases left
      {
        var k :| k in left;
        order, found, left := order + [k], found + [statefulSets[k]], left - {k};
      }
      items := Some(found);
    }

    /** Listing with the label selector `name=app`. */
    method ListSelected(app: string) returns (items: Option<seq<StatefulSet>>)
      modifies this`requests
      ensures requests == old(requests) + 1 && (items.Some? <==> healthy(old(requests)))
      ensures items.Some? ==> (items.value != [] <==> Selects(statefulSets, app))
    {
      hide Selected;
      var ok := Ask();
      if !ok { return None; }
      var found, left := [], statefulSets.Keys;
      while left != {}
        invariant left <= statefulSets.Keys
        invariant found != [] <==> exists k | k in statefulSets && k !in left :: Selected(statefulSets[k], app)
        decreases left
      {
        var k :| k in left;
        if Selected(statefulSets[k], app) {
          found := found + [statefulSets[k]];
        }
        left := left - {k};
      }
      items := Some(found);
    }

    method GetStatefulSet(name: string) returns (r: Option<StatefulSet>)
      modifies this`requests
      ensures requests == old(requests) + 1
      ensures r == if healthy(old(requests)) && name in statefulSets then Some(statefulSets[name]) else None
    {
      var ok := Ask();
      r := if ok && name in statefulSets then Some(statefulSets[name]) else None;
    }

    method CreateStatefulSet(s: StatefulSet) returns (ok: bool)
      modifies this`requests, this`statefulSets
      ensures requests == old(requests) + 1 && ok == (healthy(old(requests)) && s.name !in old(statefulSets))
      ensures statefulSets == if ok then old(statefulSets)[s.name := s] else old(statefulSets)
    {
      ok := Ask();
      ok := ok && s.name !in statefulSets;
      if ok { statefulSets := statefulSets[s.name := s]; }
    }

    method UpdateStatefulSet(s: StatefulSet) returns (ok: bool)
      modifies this`requests, this`statefulSets
      ensures requests == old(requests) + 1 && ok == (healthy(old(requests)) && s.name in old(statefulSets))
      ensures statefulSets == if ok then old(statefulSets)[s.name := s] else old(statefulSets)
    {
      ok := Ask();
      ok := ok && s.name in statefulSets;
      if ok { statefulSets := statefulSets[s.name := s]; }
    }

    method DeleteStatefulSet(name: string) returns (ok: bool)
      modifies this`requests, this`statefulSets
      ensures requests == old(requests) + 1 && ok == (healthy(old(requests)) && name in old(statefulSets))
      ensures statefulSets == if ok then old(statefulSets) - {name} else old(statefulSets)
    {
      ok := Ask();
      ok := ok && name in statefulSets;
      if ok { statefulSets := statefulSets - {name}; }
    }

    // ----- services -----

    method ListServices() returns (names: Option<seq<string>>)
      modifies this`requests
      ensures requests == old(requests) + 1 && (names.Some? <==> healthy(old(requests)))
      ensures names.Some? ==>
        && (forall i, j | 0 <= i < j < |names.value| :: names.value[i] != names.value[j])
        && (forall k :: k in names.value <==> k in services)
    {
      var ok := Ask();
      if !ok { return None; }
      var order, left := [], services.Keys;
      while left != {}
        invariant left <= services.Keys
        invariant forall i, j | 0 <= i < j < |order| :: order[i] != order[j]
        invariant forall k :: k in order <==> k in services && k !in left
        decreases left
      {
        var k :| k in left;
        order, left := order + [k], left - {k};
      }
      names := Some(order);
    }

    method GetService(name: string) returns (r: Option<Service>)
      modifies this`requests
      ensures requests == old(requests) + 1
      ensures r == if healthy(old(requests)) && name in services then Some(services[name]) else None
    {
      var ok := Ask();
      r := if ok && name in services then Some(services[name]) else None;
    }

    method CreateService(s: Service) returns (ok: bool)
      modifies this`requests, this`services
      ensures requests == old(requests) + 1 && ok == (healthy(old(requests)) && s.name !in old(services))
      ensures services == if ok then old(services)[s.name := s] else old(services)
    {
      ok := Ask();
      ok := ok && s.name !in services;
      if ok { services := services[s.name := s]; }
    }

    method UpdateService(s: Service) returns (ok: bool)
      modifies this`requests, this`services
      ensures requests == old(requests) + 1 && ok == (healthy(old(requests)) && s.name in old(services))
      ensures services == if ok then old(services)[s.name := s] else old(services)
    {
      ok := Ask();
      ok := ok && s.name in services;
      if ok { services := services[s.name := s]; }
    }

    method DeleteService(name: string) returns (ok: bool)
      modifies this`requests, this`services
      ensures requests == old(requests) + 1 && ok == (healthy(old(requests)) && name in old(services))
      ensures services == if ok then old(services) - {name} else old(services)
    {
      ok := Ask();
      ok := ok && name in services;
      if ok { services := services - {name}; }
    }

    // ----- the Ingress -----

    /** Decode stored rules: every `HTTP` value becomes a new object. */
    method Decode(values: seq<Rule>) returns (rules: seq<IngressRule>)
      ensures WellFormed(rules) && Values(rules) == values && Separate(rules)
      ensures forall i | 0 <= i < |rules| :: fresh(rules[i].http)
    {
      rules := [];
      for i := 0 to |values|
        invariant |rules| == i && WellFormed(rules) && Separate(rules)
        invariant forall k | 0 <= k < i :: fresh(rules[k].http) && rules[k].Value() == values[k]
      {
        var v := values[i];
        var http := new HTTPIngressRuleValue([HTTPIngressPath(v.path, v.service, v.port)]);
        rules := rules + [IngressRule(v.host, http)];
      }
    }

    method GetIngress() returns (ok: bool, ing: Ingress?)
      modifies this`requests
      ensures requests == old(requests) + 1 && ok == healthy(old(requests))
      ensures ing != null <==> ok && ingress.Some?
      ensures ing != null ==>
        && fresh(ing) && WellFormed(ing.rules) && Separate(ing.rules) && Values(ing.rules) == ingress.value
        && forall i | 0 <= i < |ing.rules| :: fresh(ing.rules[i].http)
    {
      ok := Ask();
      ing := null;
      if ok && ingress.Some? {
        var rules := Decode(ingress.value);
        ing := new Ingress(rules);
      }
    }

    method CreateIngress(ing: Ingress) returns (ok: bool)
      requires WellFormed(ing.rules)
      modifies this`requests, this`ingress
      ensures requests == old(requests) + 1 && ok == (healthy(old(requests)) && old(ingress).None?)
      ensures ingress == if ok then Some(Values(ing.rules)) else old(ingress)
    {
      ok := Ask();
      ok := ok && ingress.None?;
      if ok { ingress := Some(Values(ing.rules)); }
    }

    method UpdateIngress(ing: Ingress) returns (ok: bool)
      requires WellFormed(ing.rules)
      modifies this`requests, this`ingress
      ensures requests == old(requests) + 1 && ok == (healthy(old(requests)) && old(ingress).Some?)
      ensures ingress == if ok then Some(Values(ing.rules)) else old(ingress)
    {
      ok := Ask();
      ok := ok && ingress.Some?;
      if ok { ingress := Some(Values(ing.rules)); }
    }

    method DeleteIngress() returns (ok: bool)
      modifies this`requests, this`ingress
      ensures requests == old(requests) + 1 && ok == (healthy(old(requests)) && old(ingress).Some?)
      ensures ingress == if ok then None else old(ingress)
    {
      ok := Ask();
      ok := ok && ingress.Some?;
      if ok { ingress := None; }
    }
  }
}
