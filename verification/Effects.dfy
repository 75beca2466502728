/**
 What each manager call, and each whole operation, amounts to when it returns nil; and exactly when
 it does so on a healthy API server.
 */
module Effects {
  import opened Names
  import opened Wrappers
  import opened Model
  import opened Protocol

  ghost predicate Healthy(env: Env) {
    forall k :: env.healthy(k)
  }

  /** The Ingress after the rules of one service are replaced; it disappears with its last rule. */
  function WithRules(ingress: Option<Backends>, s: string, rules: multiset<Rule>): Option<Backends> {
    var others := if ingress.Some? then ingress.value - {s} else map[];
    if rules != multiset{} then Some(others[s := rules])
    else if others == map[] then None else Some(others)
  }

  function Deploy(parse: Parser, c: Cluster, lrp: LRP): Cluster
    requires Uris(lrp).UriList? && AllParse(parse, Uris(lrp).uris)
  {
    Cluster(c.statefulSets[lrp.name := ToStatefulSet(lrp)],
            c.services[HeadlessName(lrp.name) := ToHeadlessService(lrp)][ServiceName(lrp.name) := ToService(lrp)],
            WithRules(c.ingress, ServiceName(lrp.name), multiset(Rules(parse, lrp.name, Uris(lrp).uris))))
  }

  function Rescale(parse: Parser, c: Cluster, lrp: LRP): Cluster
    requires lrp.name in c.statefulSets && ServiceName(lrp.name) in c.services
    requires Uris(lrp).UriList? && AllParse(parse, Uris(lrp).uris)
  {
    var s := ServiceName(lrp.name);
    Cluster(c.statefulSets[lrp.name := Scaled(c.statefulSets[lrp.name], lrp)],
            c.services[s := Announcing(c.services[s], Uris(lrp))],
            WithRules(c.ingress, s, multiset(Rules(parse, lrp.name, Uris(lrp).uris))))
  }

  function Retire(c: Cluster, app: string): Cluster {
    Cluster(c.statefulSets - {app}, c.services - {HeadlessName(app)} - {ServiceName(app)},
            WithRules(c.ingress, ServiceName(app), multiset{}))
  }

  /** A step of a run, with the step's value named. */
  lemma Unfold(env: Env, c: Cluster, call: Call, rest: Code, n: nat) returns (s: Stepped)
    ensures s == Step(env.parse, c, call, rest, env.healthy(n))
    ensures Finish(env, c, Do(call, rest), n) == Sent(s.sent, Finish(env, s.cluster, s.code, n + s.requests))
    ensures s.code.Halt? ==>
      Finish(env, s.cluster, s.code, n + s.requests) == Final(s.cluster, s.code.outcome, n + s.requests, [])
  {
    hide Step;
    s := Step(env.parse, c, call, rest, env.healthy(n));
  }

  // ----- manager calls: the exact result under every pattern of failing requests -----

  lemma CreateInstanceRuns(env: Env, c: Cluster, lrp: LRP, n: nat)
    ensures Finish(env, c, Do(CreateInstance(lrp), Halt(Ok)), n) ==
      if env.healthy(n) && lrp.name !in c.statefulSets
      then Final(c.(statefulSets := c.statefulSets[lrp.name := ToStatefulSet(lrp)]), Ok, n + 1, [])
      else Final(c, Err, n + 1, [])
  {
    hide Finish, StepServices, StepIngress, ToStatefulSet;
    var _ := Unfold(env, c, CreateInstance(lrp), Halt(Ok), n);
  }

  lemma DeleteInstanceRuns(env: Env, c: Cluster, app: string, n: nat)
    ensures Finish(env, c, Do(DeleteInstance(app), Halt(Ok)), n) ==
      if env.healthy(n) && app in c.statefulSets
      then Final(c.(statefulSets := c.statefulSets - {app}), Ok, n + 1, [])
      else Final(c, Err, n + 1, [])
  {
    hide Finish, StepServices, StepIngress;
    var _ := Unfold(env, c, DeleteInstance(app), Halt(Ok), n);
  }

  lemma UpdateInstanceRuns(env: Env, c: Cluster, lrp: LRP, n: nat)
    requires lrp.name in c.statefulSets ==> c.statefulSets[lrp.name].name == lrp.name
    ensures Finish(env, c, Do(FetchInstance(lrp), Halt(Ok)), n) ==
      if !env.healthy(n) || lrp.name !in c.statefulSets then Final(c, Err, n + 1, [])
      else if c.statefulSets[lrp.name].annotations == map[] then Final(c, Panic, n + 1, [])
      else if !env.healthy(n + 1) then Final(c, Err, n + 2, [])
      else Final(c.(statefulSets := c.statefulSets[lrp.name := Scaled(c.statefulSets[lrp.name], lrp)]), Ok, n + 2, [])
  {
    hide Finish, StepServices, StepIngress, Lookup, ToInt32;
    var s := Unfold(env, c, FetchInstance(lrp), Halt(Ok), n);
    if s.code.Do? {
      var _ := Unfold(env, s.cluster, s.code.call, s.code.rest, n + s.requests);
    }
  }

  lemma CreateHeadlessRuns(env: Env, c: Cluster, lrp: LRP, n: nat)
    ensures Finish(env, c, Do(CreateHeadless(lrp), Halt(Ok)), n) ==
      if env.healthy(n) && HeadlessName(lrp.name) !in c.services
      then Final(c.(services := c.services[HeadlessName(lrp.name) := ToHeadlessService(lrp)]), Ok, n + 1, [])
      else Final(c, Err, n + 1, [])
  {
    hide Finish, StepInstances, StepIngress;
    var _ := Unfold(env, c, CreateHeadless(lrp), Halt(Ok), n);
  }

  lemma DeleteHeadlessRuns(env: Env, c: Cluster, app: string, n: nat)
    ensures Finish(env, c, Do(DeleteHeadless(app), Halt(Ok)), n) ==
      if env.healthy(n) && HeadlessName(app) in c.services
      then Final(c.(services := c.services - {HeadlessName(app)}), Ok, n + 1, [])
      else Final(c, Err, n + 1, [])
  {
    hide Finish, StepInstances, StepIngress;
    var _ := Unfold(env, c, DeleteHeadless(app), Halt(Ok), n);
  }

  /** After a last request only the send, if anything, is left. */
  lemma SendEnds(env: Env, c: Cluster, code: Code, n: nat)
    requires code.Do? ==> code.call.Send? && code.rest == Halt(Ok)
    ensures Finish(env, c, code, n) ==
      Final(c, if code.Do? then Ok else code.outcome, n, if code.Do? then [code.call.batch] else [])
  {
    hide StepServices, StepIngress, StepInstances;
  }

  lemma CreateServiceRuns(env: Env, c: Cluster, lrp: LRP, n: nat)
    ensures Finish(env, c, Do(CreateService(lrp), Halt(Ok)), n) ==
      var s := ServiceName(lrp.name);
      if !env.healthy(n) || s in c.services then Final(c, Err, n + 1, [])
      else
        var created := c.(services := c.services[s := ToService(lrp)]);
        if Uris(lrp).UriList? then Final(created, Ok, n + 1, [[Routes(s, Uris(lrp).uris, [])]])
        else Final(created, Err, n + 1, [])
  {
    hide Finish, StepInstances, StepIngress, Lookup;
    var s := Unfold(env, c, CreateService(lrp), Halt(Ok), n);
    SendEnds(env, s.cluster, s.code, n + 1);
  }

  lemma UpdateServiceRuns(env: Env, c: Cluster, lrp: LRP, n: nat)
    requires ServiceName(lrp.name) in c.services ==> c.services[ServiceName(lrp.name)].name == ServiceName(lrp.name)
    ensures Finish(env, c, Do(FetchService(lrp), Halt(Ok)), n) ==
      var s := ServiceName(lrp.name);
      if !env.healthy(n) || Announced(c.services, s).None? || Uris(lrp).Plain? then Final(c, Err, n + 1, [])
      else if !env.healthy(n + 1) then Final(c, Err, n + 2, [])
      else Final(c.(services := c.services[s := Announcing(c.services[s], Uris(lrp))]), Ok, n + 2,
                 [[Routes(s, Uris(lrp).uris, Unregistered(Announced(c.services, s).value, Uris(lrp).uris))]])
  {
    hide Finish, StepInstances, StepIngress, Lookup, Unregistered;
    var s := Unfold(env, c, FetchService(lrp), Halt(Ok), n);
    if s.code.Do? {
      var t := Unfold(env, s.cluster, s.code.call, s.code.rest, n + s.requests);
      SendEnds(env, t.cluster, t.code, n + s.requests + t.requests);
    }
  }

  lemma DeleteServiceRuns(env: Env, c: Cluster, app: string, n: nat)
    ensures Finish(env, c, Do(FetchDoomed(app), Halt(Ok)), n) ==
      var s := ServiceName(app);
      if !env.healthy(n) || Announced(c.services, s).None? then Final(c, Err, n + 1, [])
      else
        var sent := [[Routes(s, [], Announced(c.services, s).value)]];
        if !env.healthy(n + 1) then Final(c, Err, n + 2, sent)
        else Final(c.(services := c.services - {s}), Ok, n + 2, sent)
  {
    hide Finish, StepInstances, StepIngress, Lookup;
    var s := Unfold(env, c, FetchDoomed(app), Halt(Ok), n);
    if s.code.Do? {
      var t := Unfold(env, s.cluster, s.code.call, s.code.rest, n + s.requests);
      var _ := Unfold(env, t.cluster, t.code.call, t.code.rest, n + s.requests + t.requests);
    }
  }

  lemma WriteRuns(env: Env, c: Cluster, call: Call, n: nat)
    requires call.PutIngress? || call.PostIngress? || call.RemoveIngress?
    ensures Finish(env, c, Do(call, Halt(Ok)), n) ==
      if env.healthy(n) && (c.ingress.Some? <==> !call.PostIngress?)
      then Final(c.(ingress := if call.RemoveIngress? then None else Some(call.backends)), Ok, n + 1, [])
      else Final(c, Err, n + 1, [])
  {
    hide Finish, StepInstances, StepServices;
    var _ := Unfold(env, c, call, Halt(Ok), n);
  }

  lemma DeleteRulesRuns(env: Env, c: Cluster, app: string, n: nat)
    ensures Finish(env, c, Do(FetchIngress(app), Halt(Ok)), n) ==
      if !env.healthy(n) || c.ingress.None? then Final(c, Err, n + 1, [])
      else if !env.healthy(n + 1) then Final(c, Err, n + 2, [])
      else Final(c.(ingress := WithRules(c.ingress, ServiceName(app), multiset{})), Ok, n + 2, [])
  {
    hide Finish, StepInstances, StepServices;
    var s := Unfold(env, c, FetchIngress(app), Halt(Ok), n);
    if s.code.Do? {
      WriteRuns(env, c, s.code.call, n + s.requests);
    }
  }

  lemma UpdateRulesRuns(env: Env, c: Cluster, lrp: LRP, n: nat)
    ensures Finish(env, c, Do(ListIngresses(lrp), Halt(Ok)), n) ==
      if Uris(lrp).Plain? then Final(c, Panic, n, [])
      else if !env.healthy(n) || !AllParse(env.parse, Uris(lrp).uris) then Final(c, Err, n + 1, [])
      else
        var rules := multiset(Rules(env.parse, lrp.name, Uris(lrp).uris));
        var done := c.(ingress := WithRules(c.ingress, ServiceName(lrp.name), rules));
        var writes := if Uris(lrp).uris != [] then 1 else if c.ingress.Some? then 2 else 0;
        if writes >= 1 && !env.healthy(n + 1) then Final(c, Err, n + 2, [])
        else if writes == 2 && !env.healthy(n + 2) then Final(c, Err, n + 3, [])
        else Final(done, Ok, n + 1 + writes, [])
  {
    hide Finish, StepInstances, StepServices, Rules, WithRules, Lookup, AllParse;
    assert AllParse(env.parse, []) by { NothingParses(env.parse); }
    var s := Unfold(env, c, ListIngresses(lrp), Halt(Ok), n);
    if Uris(lrp).UriList? && AllParse(env.parse, Uris(lrp).uris) {
      var rules := multiset(Rules(env.parse, lrp.name, Uris(lrp).uris));
      RulesEmptyExactly(env.parse, lrp.name, Uris(lrp).uris);
      ReplacedBackends(c.ingress, ServiceName(lrp.name), rules);
    }
    if s.code.Do? {
      if s.code.call.FetchIngress? {
        DeleteRulesRuns(env, c, lrp.name, n + s.requests);
      } else {
        WriteRuns(env, c, s.code.call, n + s.requests);
      }
    }
  }

  lemma NothingParses(parse: Parser)
    ensures AllParse(parse, [])
  {
  }

  lemma ReplacedBackends(ingress: Option<Backends>, s: string, rules: multiset<Rule>)
    ensures rules != multiset{} ==>
      WithRules(ingress, s, rules) == Some(if ingress.Some? then ingress.value[s := rules] else map[s := rules])
    ensures ingress.None? ==> WithRules(ingress, s, multiset{}) == None
  {
    if ingress.Some? {
      assert (ingress.value - {s})[s := rules] == ingress.value[s := rules];
    }
  }

  /** Replacing one service's rules leaves every other service's rules as they were. */
  lemma WithRulesReplaces(ingress: Option<Backends>, s: string, rules: multiset<Rule>, t: string)
    ensures RulesOf(WithRules(ingress, s, rules), t) == if t == s then rules else RulesOf(ingress, t)
  {
    if ingress.Some? && t in ingress.value && t != s {
      assert t in ingress.value - {s};
    }
  }

  lemma RulesEmptyExactly(parse: Parser, app: string, uris: seq<string>)
    requires AllParse(parse, uris)
    ensures multiset(Rules(parse, app, uris)) == multiset{} <==> uris == []
  {
    if uris != [] {
      assert Rules(parse, app, uris)[0] in multiset(Rules(parse, app, uris));
    }
  }

  lemma LookupOne(t: Text)
    ensures Lookup(map[REGISTERED_ROUTES := t], REGISTERED_ROUTES) == t
  {
  }

  lemma LookupNew(service: Service, t: Text)
    ensures Registered(Announcing(service, t)) == t
  {
  }

  // ----- whole operations -----

  /** The first manager call of a sequence, and what follows it if it returned nil. */
  lemma First(env: Env, c: Cluster, call: Call, rest: Code, n: nat) returns (f: Final, g: Final)
    requires !call.CheckExists?
    ensures f == Finish(env, c, Do(call, Halt(Ok)), n) && g == Finish(env, f.cluster, rest, f.requests)
    ensures Finish(env, c, Do(call, rest), n) == Then(f, g)
  {
    hide Finish, Step;
    f := Finish(env, c, Do(call, Halt(Ok)), n);
    g := Finish(env, f.cluster, rest, f.requests);
    FinishInSequence(env, c, Do(call, Halt(Ok)), rest, n);
    assert Append(Do(call, Halt(Ok)), rest) == Do(call, rest);
  }

  lemma ExistsMeansStored(c: Cluster, app: string)
    requires AllLabelled(c.statefulSets)
    ensures Selects(c.statefulSets, app) <==> app in c.statefulSets
  {
  }

  /** Objects are stored under their names, and instances carry their name as label. */
  ghost predicate Named(c: Cluster) {
    AllLabelled(c.statefulSets) && forall s | s in c.services :: c.services[s].name == s
  }

  predicate NamedCode(code: Code) {
    code.Do? ==>
      && (code.call.StoreInstance? ==> Labelled(code.call.instance.name, code.call.instance))
      && NamedCode(code.rest)
  }

  lemma InstanceStepKeepsNames(c: Cluster, call: Call, rest: Code)
    requires InstanceCall(call) && Named(c) && NamedCode(Do(call, rest))
    ensures var s := StepInstances(c, call, rest); Named(s.cluster) && NamedCode(s.code)
  {
    hide Lookup, Selects, ToInt32;
    if call.CheckExists? {
      assert NamedCode(Do(CreateService(call.lrp), Do(ListIngresses(call.lrp), rest)));
    }
  }

  lemma ServiceStepKeepsNames(c: Cluster, call: Call, rest: Code)
    requires ServiceCall(call) && Named(c) && NamedCode(Do(call, rest))
    ensures var s := StepServices(c, call, rest); Named(s.cluster) && NamedCode(s.code)
  {
    hide Lookup, AllLabelled, Unregistered;
  }

  lemma IngressStepKeepsNames(parse: Parser, c: Cluster, call: Call, rest: Code)
    requires IngressCall(call) && Named(c) && NamedCode(Do(call, rest))
    ensures var s := StepIngress(parse, c, call, rest); Named(s.cluster) && NamedCode(s.code)
  {
    hide Lookup, AllLabelled, Rules, AllParse;
  }

  lemma StepKeepsNames(parse: Parser, c: Cluster, call: Call, rest: Code, ok: bool)
    requires Named(c) && NamedCode(Do(call, rest))
    ensures var s := Step(parse, c, call, rest, ok); Named(s.cluster) && NamedCode(s.code)
  {
    hide Named, StepInstances, StepServices, StepIngress, Labelled;
    if InstanceCall(call) {
      InstanceStepKeepsNames(c, call, rest);
    } else if IngressCall(call) {
      IngressStepKeepsNames(parse, c, call, rest);
    } else if !call.Send? {
      ServiceStepKeepsNames(c, call, rest);
    }
  }

  /** Every operation keeps them so, whichever requests fail. */
  lemma {:induction false} FinishKeepsNames(env: Env, c: Cluster, code: Code, n: nat)
    requires Named(c) && NamedCode(code)
    ensures Named(Finish(env, c, code, n).cluster)
    decreases Rank(code)
  {
    hide Step, Named, NamedCode, Rank;
    if code.Do? {
      StepTerminates(env.parse, c, code.call, code.rest, env.healthy(n));
      StepKeepsNames(env.parse, c, code.call, code.rest, env.healthy(n));
      var s := Step(env.parse, c, code.call, code.rest, env.healthy(n));
      FinishKeepsNames(env, s.cluster, s.code, n + s.requests);
    }
  }

  lemma OperationsKeepNames(env: Env, c: Cluster, op: Op, n: nat)
    requires Named(c)
    ensures Named(Finish(env, c, CodeOf(op), n).cluster)
  {
    hide Finish, Named;
    match op {
      case Desire(lrp) =>
      case Update(lrp) => assert NamedCode(Do(ListIngresses(lrp), Halt(Ok)));
      case Stop(app) =>
        assert NamedCode(Do(FetchDoomed(app), Halt(Ok)));
        assert NamedCode(Do(FetchIngress(app), Do(FetchDoomed(app), Halt(Ok))));
    }
    FinishKeepsNames(env, c, CodeOf(op), n);
  }

  /** A repeated `Desire` changes nothing and sends nothing; it returns nil exactly when the listing succeeds. */
  lemma RepeatedDesire(env: Env, c: Cluster, lrp: LRP, n: nat)
    requires AllLabelled(c.statefulSets) && lrp.name in c.statefulSets
    ensures Finish(env, c, CodeOf(Desire(lrp)), n) == Final(c, if env.healthy(n) then Ok else Err, n + 1, [])
  {
    hide Finish, StepServices, StepIngress;
    ExistsMeansStored(c, lrp.name);
    var _ := Unfold(env, c, CheckExists(lrp), Halt(Ok), n);
  }

  /** Nothing stands in the way of a first `Desire`. */
  predicate Deployable(parse: Parser, c: Cluster, lrp: LRP) {
    && HeadlessName(lrp.name) !in c.services && ServiceName(lrp.name) !in c.services
    && Uris(lrp).UriList? && AllParse(parse, Uris(lrp).uris)
  }

  /** A `Desire` that returns nil either deployed everything, or found the instance and did nothing at all. */
  lemma DesireOk(env: Env, c: Cluster, lrp: LRP, n: nat)
    requires AllLabelled(c.statefulSets)
    ensures var f := Finish(env, c, CodeOf(Desire(lrp)), n);
      && (f.outcome.Ok? ==>
        if lrp.name in c.statefulSets then f.cluster == c && f.sent == []
        else
          && Deployable(env.parse, c, lrp) && f.cluster == Deploy(env.parse, c, lrp)
          && f.sent == [[Routes(ServiceName(lrp.name), Uris(lrp).uris, [])]])
      && (Healthy(env) && (lrp.name in c.statefulSets || Deployable(env.parse, c, lrp)) ==> f.outcome.Ok?)
  {
    hide Finish, StepServices, StepIngress, ToStatefulSet, ToService, ToHeadlessService, Rules, AllParse, WithRules;
    ExistsMeansStored(c, lrp.name);
    var s := Unfold(env, c, CheckExists(lrp), Halt(Ok), n);
    if s.code.Do? {
      CreateOk(env, c, lrp, n + 1);
    }
  }

  lemma CreateOk(env: Env, c: Cluster, lrp: LRP, n: nat)
    requires lrp.name !in c.statefulSets
    ensures var f := Finish(env, c, Create(lrp, Halt(Ok)), n);
      && (f.outcome.Ok? ==>
        && Deployable(env.parse, c, lrp) && f.cluster == Deploy(env.parse, c, lrp)
        && f.sent == [[Routes(ServiceName(lrp.name), Uris(lrp).uris, [])]])
      && (Healthy(env) && Deployable(env.parse, c, lrp) ==> f.outcome.Ok?)
  {
    hide Finish, ToStatefulSet, ToService, ToHeadlessService, Rules, AllParse, WithRules, Lookup;
    var list := Do(ListIngresses(lrp), Halt(Ok));
    var service := Do(CreateService(lrp), list);
    var f1, g1 := First(env, c, CreateInstance(lrp), Do(CreateHeadless(lrp), service), n);
    CreateInstanceRuns(env, c, lrp, n);
    var f2, g2 := First(env, f1.cluster, CreateHeadless(lrp), service, f1.requests);
    CreateHeadlessRuns(env, f1.cluster, lrp, f1.requests);
    var f3, g3 := First(env, f2.cluster, CreateService(lrp), list, f2.requests);
    CreateServiceRuns(env, f2.cluster, lrp, f2.requests);
    if f1.outcome.Ok? && f2.outcome.Ok? && f3.outcome.Ok? {
      UpdateRulesRuns(env, f3.cluster, lrp, f3.requests);
    }
  }

  /** What an `Update` needs to go through. */
  predicate Updatable(parse: Parser, c: Cluster, lrp: LRP) {
    && lrp.name in c.statefulSets && c.statefulSets[lrp.name].annotations != map[]
    && Announced(c.services, ServiceName(lrp.name)).Some?
    && Uris(lrp).UriList? && AllParse(parse, Uris(lrp).uris)
  }

  lemma UpdateOk(env: Env, c: Cluster, lrp: LRP, n: nat)
    requires lrp.name in c.statefulSets ==> c.statefulSets[lrp.name].name == lrp.name
    requires ServiceName(lrp.name) in c.services ==> c.services[ServiceName(lrp.name)].name == ServiceName(lrp.name)
    ensures var f, s := Finish(env, c, CodeOf(Update(lrp)), n), ServiceName(lrp.name);
      && (f.outcome.Ok? ==>
        && Updatable(env.parse, c, lrp) && f.cluster == Rescale(env.parse, c, lrp)
        && f.sent == [[Routes(s, Uris(lrp).uris, Unregistered(Announced(c.services, s).value, Uris(lrp).uris))]])
      && (Healthy(env) && Updatable(env.parse, c, lrp) ==> f.outcome.Ok?)
  {
    hide Finish, Scaled, Announcing, Rules, AllParse, WithRules, Lookup, Unregistered;
    var list := Do(ListIngresses(lrp), Halt(Ok));
    var f1, g1 := First(env, c, FetchInstance(lrp), Do(FetchService(lrp), list), n);
    UpdateInstanceRuns(env, c, lrp, n);
    if f1.outcome.Ok? {
      var f2, g2 := First(env, f1.cluster, FetchService(lrp), list, f1.requests);
      UpdateServiceRuns(env, f1.cluster, lrp, f1.requests);
      if f2.outcome.Ok? {
        UpdateRulesRuns(env, f2.cluster, lrp, f2.requests);
      }
    }
  }

  lemma StopOk(env: Env, c: Cluster, app: string, n: nat)
    ensures var f, s := Finish(env, c, CodeOf(Stop(app)), n), ServiceName(app);
      && (f.outcome.Ok? ==>
        && app in c.statefulSets && HeadlessName(app) in c.services && c.ingress.Some?
        && Announced(c.services, s).Some? && f.cluster == Retire(c, app)
        && f.sent == [[Routes(s, [], Announced(c.services, s).value)]])
      && (Healthy(env) && app in c.statefulSets && HeadlessName(app) in c.services && Announced(c.services, s).Some? ==>
        (c.ingress.Some? ==> f.outcome.Ok?))
      && (Healthy(env) && app in c.statefulSets && HeadlessName(app) in c.services && c.ingress.None? ==>
        f.outcome.Err? && f.cluster == c.(statefulSets := c.statefulSets - {app},
                                               services := c.services - {HeadlessName(app)}))
  {
    hide Finish, WithRules, Lookup;
    var doomed := Do(FetchDoomed(app), Halt(Ok));
    var rules := Do(FetchIngress(app), doomed);
    var f1, g1 := First(env, c, DeleteInstance(app), Do(DeleteHeadless(app), rules), n);
    DeleteInstanceRuns(env, c, app, n);
    var f2, g2 := First(env, f1.cluster, DeleteHeadless(app), rules, f1.requests);
    DeleteHeadlessRuns(env, f1.cluster, app, f1.requests);
    var f3, g3 := First(env, f2.cluster, FetchIngress(app), doomed, f2.requests);
    DeleteRulesRuns(env, f2.cluster, app, f2.requests);
    DeleteServiceRuns(env, f3.cluster, app, f3.requests);
  }
}
