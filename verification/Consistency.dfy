/**
 Runs in which every operation returned nil: the three objects of an app exist together, its ingress
 rules are those of its annotation, and `Stop` undoes `Desire`.
 */
module Consistency {
  import opened Names
  import opened Wrappers
  import opened Model
  import opened Protocol
  import opened Effects
  import opened Runs

  /** A deployed app: both services, a decodable annotation, and exactly its rules. */
  ghost predicate Live(parse: Parser, c: Cluster, app: string) {
    && app in c.statefulSets && HeadlessName(app) in c.services
    && var uris := Announced(c.services, ServiceName(app));
       uris.Some? && AllParse(parse, uris.value)
       && RulesOf(c.ingress, ServiceName(app)) == multiset(Rules(parse, app, uris.value))
  }

  /** Nothing of the app anywhere. */
  ghost predicate Gone(c: Cluster, app: string) {
    app !in c.statefulSets && HeadlessName(app) !in c.services && ServiceName(app) !in c.services
    && RulesOf(c.ingress, ServiceName(app)) == multiset{}
  }

  /** The Ingress exists, without empty entries, exactly when some app service has a rule. */
  predicate ProperIngress(ingress: Option<Backends>) {
    ingress.Some? ==>
      && ingress.value != map[]
      && forall s | s in ingress.value :: ingress.value[s] != multiset{} && IsAppService(s)
  }

  ghost predicate Consistent(parse: Parser, c: Cluster) {
    && AllLabelled(c.statefulSets) && (forall s | s in c.services :: c.services[s].name == s)
    && (forall app | ValidApp(app) :: Live(parse, c, app) || Gone(c, app))
    && ProperIngress(c.ingress)
  }

  lemma WithRulesOnly(ingress: Option<Backends>, s: string, rules: multiset<Rule>, t: string)
    requires ProperIngress(ingress) && IsAppService(s)
    ensures var after := WithRules(ingress, s, rules);
      && RulesOf(after, s) == rules && (t != s ==> RulesOf(after, t) == RulesOf(ingress, t)) && ProperIngress(after)
  {
    hide IsAppService;
    WithRulesReplaces(ingress, s, rules, s);
    WithRulesReplaces(ingress, s, rules, t);
    if rules != multiset{} {
      assert s in WithRules(ingress, s, rules).value;
    }
  }

  lemma NamesDiffer(app: string, other: string)
    requires ValidApp(app) && ValidApp(other)
    ensures ServiceName(app) != HeadlessName(other) && ServiceName(app) != HeadlessName(app)
    ensures app != other ==> ServiceName(app) != ServiceName(other) && HeadlessName(app) != HeadlessName(other)
  {
    hide ValidApp, IsAppService;
    ServiceNameIsListed(app);
    HeadlessNameIsSkipped(other);
    HeadlessNameIsSkipped(app);
    if HeadlessName(app) == HeadlessName(other) { HeadlessNameInjective(app, other); }
  }

  /** An operation that touches only what belongs to one app keeps every other app as it was. */
  lemma OthersKept(parse: Parser, c: Cluster, c': Cluster, app: string, rules: multiset<Rule>, other: string)
    requires ValidApp(app) && ValidApp(other) && other != app && ProperIngress(c.ingress)
    requires c'.ingress == WithRules(c.ingress, ServiceName(app), rules)
    requires forall k | k != app :: k in c'.statefulSets <==> k in c.statefulSets
    requires forall s | s != ServiceName(app) && s != HeadlessName(app) ::
      (s in c'.services <==> s in c.services) && (s in c.services ==> c'.services[s] == c.services[s])
    requires Live(parse, c, other) || Gone(c, other)
    ensures Live(parse, c', other) || Gone(c', other)
  {
    hide ValidApp, IsAppService, WithRules, Rules, AllParse, ProperIngress;
    ServiceNameIsListed(app);
    NamesDiffer(app, other);
    NamesDiffer(other, app);
    WithRulesOnly(c.ingress, ServiceName(app), rules, ServiceName(other));
  }

  lemma DeployKeeps(parse: Parser, c: Cluster, lrp: LRP)
    requires Consistent(parse, c) && ValidApp(lrp.name) && Deployable(parse, c, lrp)
    ensures Consistent(parse, Deploy(parse, c, lrp))
  {
    hide ValidApp, IsAppService, WithRules, Rules, AllParse, Lookup, ProperIngress;
    var c', app := Deploy(parse, c, lrp), lrp.name;
    var rules := multiset(Rules(parse, app, Uris(lrp).uris));
    ServiceNameIsListed(app);
    WithRulesOnly(c.ingress, ServiceName(app), rules, ServiceName(app));
    NamesDiffer(app, app);
    assert Live(parse, c', app) by {
      assert Registered(ToService(lrp)) == Uris(lrp) by { LookupOne(Uris(lrp)); }
    }
    forall other | ValidApp(other) && other != app ensures Live(parse, c', other) || Gone(c', other) {
      OthersKept(parse, c, c', app, rules, other);
    }
  }

  lemma RescaleKeeps(parse: Parser, c: Cluster, lrp: LRP)
    requires Consistent(parse, c) && ValidApp(lrp.name) && Updatable(parse, c, lrp)
    ensures Consistent(parse, Rescale(parse, c, lrp))
  {
    hide ValidApp, IsAppService, WithRules, Rules, AllParse, Lookup, ProperIngress;
    var c', app := Rescale(parse, c, lrp), lrp.name;
    var rules := multiset(Rules(parse, app, Uris(lrp).uris));
    ServiceNameIsListed(app);
    WithRulesOnly(c.ingress, ServiceName(app), rules, ServiceName(app));
    NamesDiffer(app, app);
    LookupNew(c.services[ServiceName(app)], Uris(lrp));
    assert Live(parse, c', app);
    forall other | ValidApp(other) && other != app ensures Live(parse, c', other) || Gone(c', other) {
      OthersKept(parse, c, c', app, rules, other);
    }
  }

  lemma RetireKeeps(parse: Parser, c: Cluster, app: string)
    requires Consistent(parse, c) && ValidApp(app)
    ensures Consistent(parse, Retire(c, app))
  {
    hide ValidApp, IsAppService, WithRules, Rules, AllParse, ProperIngress;
    var c' := Retire(c, app);
    ServiceNameIsListed(app);
    WithRulesOnly(c.ingress, ServiceName(app), multiset{}, ServiceName(app));
    NamesDiffer(app, app);
    assert Gone(c', app);
    forall other | ValidApp(other) && other != app ensures Live(parse, c', other) || Gone(c', other) {
      OthersKept(parse, c, c', app, multiset{}, other);
    }
  }

  /** Every operation that returns nil keeps the cluster consistent. */
  lemma SuccessKeepsConsistent(env: Env, c: Cluster, op: Op, n: nat)
    requires Consistent(env.parse, c) && ValidApp(Name(op)) && Finish(env, c, CodeOf(op), n).outcome.Ok?
    ensures Consistent(env.parse, Finish(env, c, CodeOf(op), n).cluster)
  {
    hide Finish, Step, Consistent, Deploy, Rescale, Retire, ValidApp, CodeOf;
    ConsistentBasics(env.parse, c);
    match op
    case Desire(lrp) =>
      if lrp.name in c.statefulSets {
        RepeatedDesire(env, c, lrp, n);
      } else {
        DesireOk(env, c, lrp, n);
        DeployKeeps(env.parse, c, lrp);
      }
    case Update(lrp) =>
      UpdateOk(env, c, lrp, n);
      RescaleKeeps(env.parse, c, lrp);
    case Stop(app) =>
      StopOk(env, c, app, n);
      RetireKeeps(env.parse, c, app);
  }

  lemma ConsistentBasics(parse: Parser, c: Cluster)
    requires Consistent(parse, c)
    ensures AllLabelled(c.statefulSets)
    ensures forall s | s in c.services :: c.services[s].name == s
  {
  }

  /** Every one of the operations, run one after the other, returns nil. */
  ghost predicate AllSucceed(env: Env, c: Cluster, ops: seq<Op>, n: nat) {
    forall k | 0 < k <= |ops| :: RunAll(env, c, ops[..k], n).outcome.Ok?
  }

  lemma {:induction false} SuccessfulRunIsConsistent(env: Env, c: Cluster, ops: seq<Op>, n: nat)
    requires Consistent(env.parse, c) && AllSucceed(env, c, ops, n)
    requires forall op | op in ops :: ValidApp(Name(op))
    ensures Consistent(env.parse, RunAll(env, c, ops, n).cluster)
    decreases |ops|
  {
    hide Finish, Consistent, ValidApp;
    if ops != [] {
      var before := ops[..|ops| - 1];
      assert forall k | 0 < k <= |before| :: before[..k] == ops[..k];
      SuccessfulRunIsConsistent(env, c, before, n);
      var f := RunAll(env, c, before, n);
      assert ops[..|ops|] == ops && ops[|ops| - 1] in ops;
      SuccessKeepsConsistent(env, f.cluster, ops[|ops| - 1], f.requests);
    }
  }

  /**
   From a cluster with only foreign services: the objects of every app exist together, with the
   annotation's rules.
   */
  lemma SuccessfulRun(env: Env, foreign: map<string, Service>, ops: seq<Op>, app: string)
    requires Foreign(foreign) && AllSucceed(env, Start(foreign).cluster, ops, 0)
    requires ValidApp(app) && forall op | op in ops :: ValidApp(Name(op))
    ensures var c := RunAll(env, Start(foreign).cluster, ops, 0).cluster;
      && (app in c.statefulSets <==> HeadlessName(app) in c.services)
      && (app in c.statefulSets <==> ServiceName(app) in c.services)
      && (app in c.statefulSets ==> Live(env.parse, c, app))
      && (app !in c.statefulSets ==> RulesOf(c.ingress, ServiceName(app)) == multiset{})
  {
    hide RunAll, AllSucceed, ValidApp, Rules, AllParse;
    StartIsConsistent(env.parse, foreign);
    SuccessfulRunIsConsistent(env, Start(foreign).cluster, ops, 0);
    var c := RunAll(env, Start(foreign).cluster, ops, 0).cluster;
    assert Live(env.parse, c, app) || Gone(c, app);
  }

  lemma StartIsConsistent(parse: Parser, foreign: map<string, Service>)
    requires Foreign(foreign)
    ensures Consistent(parse, Cluster(map[], foreign, None))
  {
    forall app | ValidApp(app) ensures Gone(Cluster(map[], foreign, None), app) {
      ServiceNameIsListed(app);
      assert HeadlessName(app) == ServiceName(app + "-headless");
      assert HeadlessName(app)[3..] == app + "-headless";
      assert IsCFService(HeadlessName(app));
    }
  }

  /** The Ingress object exists exactly when some deployed app has a route. */
  lemma IngressExistsExactly(parse: Parser, c: Cluster)
    requires Consistent(parse, c)
    ensures c.ingress.Some? <==>
      exists app :: ValidApp(app) && app in c.statefulSets && Announced(c.services, ServiceName(app)) != Some([])
  {
    hide ValidApp, IsAppService, Rules, AllParse;
    if c.ingress.Some? {
      var s :| s in c.ingress.value;
      ListedNameHasApp(s);
      var app := s[3..];
      assert Live(parse, c, app) || Gone(c, app);
      RulesEmptyExactly(parse, app, Announced(c.services, s).value);
    }
    if app :| ValidApp(app) && app in c.statefulSets && Announced(c.services, ServiceName(app)) != Some([]) {
      assert Live(parse, c, app);
      RulesEmptyExactly(parse, app, Announced(c.services, ServiceName(app)).value);
    }
  }

  /**
   On a healthy API server `Stop` of a deployed app returns nil exactly when the Ingress object exists.
   Without it, `Stop` removes the instance and the headless service and leaves the app's service behind.
   */
  lemma StopSucceedsExactly(env: Env, c: Cluster, app: string, n: nat)
    requires Healthy(env) && Consistent(env.parse, c) && ValidApp(app) && app in c.statefulSets
    ensures var f := Finish(env, c, CodeOf(Stop(app)), n);
      && (f.outcome.Ok? <==> c.ingress.Some?)
      && (c.ingress.Some? ==> f.cluster == Retire(c, app))
      && (c.ingress.None? ==>
        f.cluster == c.(statefulSets := c.statefulSets - {app}, services := c.services - {HeadlessName(app)}))
  {
    hide Finish, Retire, ValidApp, Rules, AllParse, ProperIngress;
    assert Live(env.parse, c, app);
    StopOk(env, c, app, n);
  }

  /** On a healthy API server `Desire` of a new app returns nil exactly when its routes decode and parse. */
  lemma DesireSucceedsExactly(env: Env, c: Cluster, lrp: LRP, n: nat)
    requires Healthy(env) && Consistent(env.parse, c) && ValidApp(lrp.name) && lrp.name !in c.statefulSets
    ensures var f := Finish(env, c, CodeOf(Desire(lrp)), n);
      f.outcome.Ok? <==> Uris(lrp).UriList? && AllParse(env.parse, Uris(lrp).uris)
  {
    hide Finish, ValidApp, Rules, AllParse, Lookup;
    assert Live(env.parse, c, lrp.name) || Gone(c, lrp.name);
    ConsistentBasics(env.parse, c);
    DesireOk(env, c, lrp, n);
  }

  /** `Update` of a deployed app does so exactly when, besides, its instance has annotations at all. */
  lemma UpdateSucceedsExactly(env: Env, c: Cluster, lrp: LRP, n: nat)
    requires Healthy(env) && Consistent(env.parse, c) && ValidApp(lrp.name) && lrp.name in c.statefulSets
    ensures var f := Finish(env, c, CodeOf(Update(lrp)), n);
      f.outcome.Ok? <==>
        && Uris(lrp).UriList? && AllParse(env.parse, Uris(lrp).uris) && c.statefulSets[lrp.name].annotations != map[]
  {
    hide Finish, ValidApp, Rules, AllParse, Lookup;
    assert Live(env.parse, c, lrp.name) || Gone(c, lrp.name);
    ConsistentBasics(env.parse, c);
    UpdateOk(env, c, lrp, n);
  }

  /**
   `Stop` undoes `Desire`: it gives back the very same cluster, and its one batch unregisters the routes
   that the batch of `Desire` registered. It does so exactly when the Ingress exists by then, that is,
   when the app has a route or the Ingress was there before.
   */
  lemma StopUndoesDesire(env: Env, c: Cluster, lrp: LRP, n: nat, m: nat)
    requires Healthy(env) && Consistent(env.parse, c) && ValidApp(lrp.name) && lrp.name !in c.statefulSets
    requires Uris(lrp).UriList? && AllParse(env.parse, Uris(lrp).uris)
    ensures var s, uris := ServiceName(lrp.name), Uris(lrp).uris;
      var d := Finish(env, c, CodeOf(Desire(lrp)), n);
      var f := Finish(env, d.cluster, CodeOf(Stop(lrp.name)), m);
      && d.outcome.Ok? && d.sent == [[Routes(s, uris, [])]]
      && (f.outcome.Ok? <==> uris != [] || c.ingress.Some?)
      && (f.outcome.Ok? ==> f.cluster == c && f.sent == [[Routes(s, [], uris)]])
  {
    hide Finish, ValidApp, Rules, AllParse, ProperIngress, WithRules, IsAppService, Lookup;
    assert Live(env.parse, c, lrp.name) || Gone(c, lrp.name);
    ConsistentBasics(env.parse, c);
    DesireOk(env, c, lrp, n);
    DeployKeeps(env.parse, c, lrp);
    var d := Finish(env, c, CodeOf(Desire(lrp)), n);
    StopSucceedsExactly(env, d.cluster, lrp.name, m);
    StopOk(env, d.cluster, lrp.name, m);
    NamesDiffer(lrp.name, lrp.name);
    LookupOne(Uris(lrp));
    var rules := multiset(Rules(env.parse, lrp.name, Uris(lrp).uris));
    ServiceNameIsListed(lrp.name);
    RulesEmptyExactly(env.parse, lrp.name, Uris(lrp).uris);
    ReplaceAndRemove(c.ingress, ServiceName(lrp.name), rules);
    DeployAndRetire(env.parse, c, lrp);
  }

  lemma ReplaceAndRemove(ingress: Option<Backends>, s: string, rules: multiset<Rule>)
    requires ProperIngress(ingress) && RulesOf(ingress, s) == multiset{}
    ensures WithRules(WithRules(ingress, s, rules), s, multiset{}) == ingress
    ensures WithRules(ingress, s, rules).Some? <==> rules != multiset{} || ingress.Some?
  {
    if ingress.Some? {
      assert ingress.value - {s} == ingress.value;
      assert (ingress.value - {s})[s := rules] - {s} == ingress.value;
    } else {
      var none: Backends := map[];
      assert none[s := rules] - {s} == map[];
    }
  }

  lemma DeployAndRetire(parse: Parser, c: Cluster, lrp: LRP)
    requires Deployable(parse, c, lrp) && lrp.name !in c.statefulSets && ProperIngress(c.ingress)
    requires RulesOf(c.ingress, ServiceName(lrp.name)) == multiset{}
    ensures Retire(Deploy(parse, c, lrp), lrp.name) == c
  {
    hide Rules, AllParse, ProperIngress, WithRules;
    var d := Deploy(parse, c, lrp);
    ReplaceAndRemove(c.ingress, ServiceName(lrp.name), multiset(Rules(parse, lrp.name, Uris(lrp).uris)));
    assert d.statefulSets - {lrp.name} == c.statefulSets;
    assert d.services - {HeadlessName(lrp.name)} - {ServiceName(lrp.name)} == c.services;
  }
}
