/**
 Operations that failed half-way: what they leave, what a retry does about it, and which later
 operations repair the app.
 */
module Failures {
  import opened Names
  import opened Wrappers
  import opened Model
  import opened Protocol
  import opened Effects
  import opened Runs
  import opened Consistency
  import T = Ticks
  import R = Router

  // ----- nil from `Desire` -----

  /**
   A `Desire` that returns nil leaves the app deployed exactly when its instance was absent or the app
   was deployed before: found half-deployed, it stays so.
   */
  lemma DesireDeploysExactly(env: Env, c: Cluster, lrp: LRP, n: nat)
    requires Named(c) && ValidApp(lrp.name) && Finish(env, c, CodeOf(Desire(lrp)), n).outcome.Ok?
    ensures Live(env.parse, Finish(env, c, CodeOf(Desire(lrp)), n).cluster, lrp.name)
       <==> lrp.name !in c.statefulSets || Live(env.parse, c, lrp.name)
  {
    hide Finish, ValidApp, Rules, AllParse, Lookup, WithRules, Live;
    DesireOk(env, c, lrp, n);
    if lrp.name !in c.statefulSets {
      DeployIsLive(env.parse, c, lrp);
    }
  }

  lemma DeployIsLive(parse: Parser, c: Cluster, lrp: LRP)
    requires ValidApp(lrp.name) && Deployable(parse, c, lrp)
    ensures Live(parse, Deploy(parse, c, lrp), lrp.name)
  {
    hide ValidApp, Rules, AllParse, Lookup, WithRules;
    var rules := multiset(Rules(parse, lrp.name, Uris(lrp).uris));
    NamesDiffer(lrp.name, lrp.name);
    LookupOne(Uris(lrp));
    WithRulesReplaces(c.ingress, ServiceName(lrp.name), rules, ServiceName(lrp.name));
  }

  /** A `Desire` whose request for the headless service is refused leaves a bare instance. */
  lemma HeadlessRefused(env: Env, c: Cluster, lrp: LRP, n: nat)
    requires AllLabelled(c.statefulSets) && lrp.name !in c.statefulSets
    requires env.healthy(n) && env.healthy(n + 1) && (!env.healthy(n + 2) || HeadlessName(lrp.name) in c.services)
    ensures Finish(env, c, CodeOf(Desire(lrp)), n) ==
      Final(c.(statefulSets := c.statefulSets[lrp.name := ToStatefulSet(lrp)]), Err, n + 3, [])
  {
    hide Finish, StepServices, StepIngress, ToStatefulSet, ToHeadlessService;
    var service := Do(CreateService(lrp), Do(ListIngresses(lrp), Halt(Ok)));
    ExistsMeansStored(c, lrp.name);
    var s := Unfold(env, c, CheckExists(lrp), Halt(Ok), n);
    var f1, g1 := First(env, c, CreateInstance(lrp), Do(CreateHeadless(lrp), service), n + 1);
    CreateInstanceRuns(env, c, lrp, n + 1);
    var f2, g2 := First(env, f1.cluster, CreateHeadless(lrp), service, f1.requests);
    CreateHeadlessRuns(env, f1.cluster, lrp, f1.requests);
  }

  /** Nil without a deployment: one refused request, and the retry returns nil with nothing but an instance. */
  lemma RetriedDesireDeploysNothing(parse: Parser, lrp: LRP)
    requires ValidApp(lrp.name)
    ensures var env := Env(parse, k => k != 2);
      var f := RunAll(env, Start(map[]).cluster, [Desire(lrp), Desire(lrp)], 0);
      f.outcome.Ok? && f.sent == [] && f.cluster == Cluster(map[lrp.name := ToStatefulSet(lrp)], map[], None)
    ensures var bare := Cluster(map[lrp.name := ToStatefulSet(lrp)], map[], None);
      exists run :: After(parse, map[], run) == Start(map[]).(cluster := bare)
  {
    hide Finish, CodeOf, ValidApp, After, ToStatefulSet;
    var env := Env(parse, k => k != 2);
    var ops := [Desire(lrp), Desire(lrp)];
    HeadlessRefused(env, Start(map[]).cluster, lrp, 0);
    OneInstance(lrp);
    RepeatedDesire(env, Cluster(map[lrp.name := ToStatefulSet(lrp)], map[], None), lrp, 3);
    InTurn(env, Start(map[]).cluster, Desire(lrp), Desire(lrp));
    OperationsAreARun(env, map[], ops);
  }

  lemma OneInstance(lrp: LRP)
    ensures AllLabelled(map[lrp.name := ToStatefulSet(lrp)])
  {
    hide Lookup, ToInt32;
  }

  // ----- LRPs without decodable routes -----

  function Created(c: Cluster, lrp: LRP): Cluster {
    Cluster(c.statefulSets[lrp.name := ToStatefulSet(lrp)],
            c.services[HeadlessName(lrp.name) := ToHeadlessService(lrp)][ServiceName(lrp.name) := ToService(lrp)],
            c.ingress)
  }

  /** A first `Desire` without decodable routes fails, on a healthy API server, after it created the service. */
  lemma UndecodableDesire(env: Env, c: Cluster, lrp: LRP, n: nat)
    requires Healthy(env) && AllLabelled(c.statefulSets) && ValidApp(lrp.name) && Uris(lrp).Plain?
    requires lrp.name !in c.statefulSets
    requires HeadlessName(lrp.name) !in c.services && ServiceName(lrp.name) !in c.services
    ensures Finish(env, c, CodeOf(Desire(lrp)), n) == Final(Created(c, lrp), Err, n + 4, [])
  {
    hide Finish, StepServices, StepIngress, ToStatefulSet, ToHeadlessService, ToService, ValidApp, Lookup;
    var list := Do(ListIngresses(lrp), Halt(Ok));
    NamesDiffer(lrp.name, lrp.name);
    ExistsMeansStored(c, lrp.name);
    var s := Unfold(env, c, CheckExists(lrp), Halt(Ok), n);
    var f1, g1 := First(env, c, CreateInstance(lrp), Do(CreateHeadless(lrp), Do(CreateService(lrp), list)), n + 1);
    CreateInstanceRuns(env, c, lrp, n + 1);
    var f2, g2 := First(env, f1.cluster, CreateHeadless(lrp), Do(CreateService(lrp), list), f1.requests);
    CreateHeadlessRuns(env, f1.cluster, lrp, f1.requests);
    var f3, g3 := First(env, f2.cluster, CreateService(lrp), list, f2.requests);
    CreateServiceRuns(env, f2.cluster, lrp, f2.requests);
  }

  /** The panic is reached: any LRP without metadata, desired and then updated, with every request succeeding. */
  lemma UpdateCanPanic(parse: Parser, lrp: LRP, update: LRP)
    requires ValidApp(lrp.name) && lrp.metadata == map[] && update.name == lrp.name
    ensures RunAll(Env(parse, _ => true), Start(map[]).cluster, [Desire(lrp), Update(update)], 0).outcome.Panic?
    ensures exists run :: After(parse, map[], run).code == Halt(Panic)
  {
    hide Finish, CodeOf, ValidApp, After, ToHeadlessService, ToService;
    var env := Env(parse, _ => true);
    var ops := [Desire(lrp), Update(update)];
    UndecodableDesire(env, Start(map[]).cluster, lrp, 0);
    NilMapPanics(env, Created(Start(map[]).cluster, lrp), update, 4);
    InTurn(env, Start(map[]).cluster, Desire(lrp), Update(update));
    OperationsAreARun(env, map[], ops);
    var f := RunAll(env, Start(map[]).cluster, ops, 0);
    var run :| After(parse, map[], run) ==
      Start(map[]).(cluster := f.cluster, code := Halt(f.outcome), queue := f.sent);
    assert After(parse, map[], run).code == Halt(Panic);
  }

  lemma NilMapPanics(env: Env, c: Cluster, lrp: LRP, n: nat)
    requires env.healthy(n) && lrp.name in c.statefulSets && c.statefulSets[lrp.name].name == lrp.name
    requires c.statefulSets[lrp.name].annotations == map[]
    ensures Finish(env, c, CodeOf(Update(lrp)), n).outcome.Panic?
  {
    hide Finish;
    var f, g := First(env, c, FetchInstance(lrp), Do(FetchService(lrp), Do(ListIngresses(lrp), Halt(Ok))), n);
    UpdateInstanceRuns(env, c, lrp, n);
  }

  /** Idle after a failed operation, with a service `s` because of which no listing succeeds. */
  ghost predicate EndsUnlistable(w: World, s: string) {
    && w.code == Halt(Err) && s in w.cluster.services && T.Undecodable(w.cluster.services, s)
    && forall order | R.Enumerates(order, w.cluster.services.Keys) :: R.ListRoutes(w.cluster.services, order).None?
  }

  /**
   A failing listing is reached: after a `Desire` of any LRP without decodable routes, with every request
   succeeding, every listing fails.
   */
  lemma ListingCanFail(parse: Parser, lrp: LRP)
    requires ValidApp(lrp.name) && Uris(lrp).Plain?
    ensures exists run :: EndsUnlistable(After(parse, map[], run), ServiceName(lrp.name))
  {
    hide Finish, CodeOf, ValidApp, After, ToStatefulSet, Lookup, T.Undecodable;
    var env := Env(parse, _ => true);
    var services := Created(Start(map[]).cluster, lrp).services;
    UndecodableDesire(env, Start(map[]).cluster, lrp, 0);
    OperationsAreARun(env, map[], [Desire(lrp)]);
    InTurn(env, Start(map[]).cluster, Desire(lrp), Desire(lrp));
    var run :| After(parse, map[], run) ==
      Start(map[]).(cluster := Created(Start(map[]).cluster, lrp), code := Halt(Err));
    assert T.Undecodable(services, ServiceName(lrp.name)) by { PlainIsUndecodable(services, lrp); }
    forall order | R.Enumerates(order, services.Keys) ensures R.ListRoutes(services, order).None? {
      T.ListingFailsExactly(services, order);
    }
    assert EndsUnlistable(After(parse, map[], run), ServiceName(lrp.name));
  }

  lemma PlainIsUndecodable(services: map<string, Service>, lrp: LRP)
    requires ServiceName(lrp.name) in services && services[ServiceName(lrp.name)] == ToService(lrp)
    requires ValidApp(lrp.name) && Uris(lrp).Plain?
    ensures T.Undecodable(services, ServiceName(lrp.name))
  {
    ServiceNameIsListed(lrp.name);
    LookupOne(Uris(lrp));
  }

  // ----- the same operation once more -----

  /** A failed `Stop` can be retried exactly when its very first request was refused; then nothing had happened. */
  lemma FailedStopRetried(env: Env, later: Env, c: Cluster, app: string, n: nat, m: nat)
    requires Healthy(later) && !Finish(env, c, CodeOf(Stop(app)), n).outcome.Ok?
    ensures var f := Finish(env, c, CodeOf(Stop(app)), n);
      var retry := Finish(later, f.cluster, CodeOf(Stop(app)), m);
      && (retry.outcome.Ok? <==>
            && !env.healthy(n) && app in c.statefulSets && HeadlessName(app) in c.services && c.ingress.Some?
            && Announced(c.services, ServiceName(app)).Some?)
      && (retry.outcome.Ok? ==> f.cluster == c && retry.cluster == Retire(c, app))
  {
    hide Finish, Retire;
    StopTakesInstance(env, c, app, n);
    var f := Finish(env, c, CodeOf(Stop(app)), n);
    if app in f.cluster.statefulSets {
      StopOk(later, c, app, m);
    } else {
      StopNeverResumes(later, f.cluster, app, m);
    }
  }

  /** `Stop` takes the instance away with its first request, or does nothing at all. */
  lemma StopTakesInstance(env: Env, c: Cluster, app: string, n: nat)
    ensures var f := Finish(env, c, CodeOf(Stop(app)), n);
      if env.healthy(n) && app in c.statefulSets then app !in f.cluster.statefulSets
      else f.cluster == c && f.outcome.Err?
  {
    hide Finish, WithRules, Lookup;
    var doomed := Do(FetchDoomed(app), Halt(Ok));
    var rules := Do(FetchIngress(app), doomed);
    var f1, g1 := First(env, c, DeleteInstance(app), Do(DeleteHeadless(app), rules), n);
    DeleteInstanceRuns(env, c, app, n);
    var f2, g2 := First(env, f1.cluster, DeleteHeadless(app), rules, f1.requests);
    DeleteHeadlessRuns(env, f1.cluster, app, f1.requests);
    var f3, g3 := First(env, f2.cluster, FetchIngress(app), doomed, f2.requests);
    DeleteRulesRuns(env, f2.cluster, app, f2.requests);
    DeleteServiceRuns(env, f3.cluster, app, f3.requests);
  }

  /** Where an `Update` may stop: nothing done, the instance rescaled, or that and the new annotation. */
  predicate UpdateProgress(c: Cluster, lrp: LRP, after: Cluster) {
    var s := ServiceName(lrp.name);
    || after == c
    || (&& lrp.name in c.statefulSets && c.statefulSets[lrp.name].annotations != map[]
        && var scaled := c.(statefulSets := c.statefulSets[lrp.name := Scaled(c.statefulSets[lrp.name], lrp)]);
           || after == scaled
           || (&& Announced(c.services, s).Some? && Uris(lrp).UriList?
               && after == scaled.(services := c.services[s := Announcing(c.services[s], Uris(lrp))])))
  }

  /** Updating again from there asks the same and leads to the same. */
  lemma UpdateResumes(parse: Parser, c: Cluster, lrp: LRP, after: Cluster)
    requires UpdateProgress(c, lrp, after)
    ensures Updatable(parse, after, lrp) <==> Updatable(parse, c, lrp)
    ensures Updatable(parse, c, lrp) ==> Rescale(parse, after, lrp) == Rescale(parse, c, lrp)
  {
    hide Rules, AllParse, WithRules, Lookup, ToInt32;
    var s := ServiceName(lrp.name);
    if lrp.name in c.statefulSets && s in c.services {
      LookupNew(c.services[s], Uris(lrp));
      assert Announcing(Announcing(c.services[s], Uris(lrp)), Uris(lrp)) == Announcing(c.services[s], Uris(lrp));
      assert Scaled(Scaled(c.statefulSets[lrp.name], lrp), lrp) == Scaled(c.statefulSets[lrp.name], lrp);
    }
  }

  /** A failed `Update` can always be retried: wherever it stopped, the retry ends as the first attempt should have. */
  lemma FailedUpdateRetried(env: Env, later: Env, c: Cluster, lrp: LRP, n: nat, m: nat)
    requires Healthy(later) && later.parse == env.parse && Named(c)
    requires !Finish(env, c, CodeOf(Update(lrp)), n).outcome.Ok?
    ensures var f := Finish(env, c, CodeOf(Update(lrp)), n);
      var retry := Finish(later, f.cluster, CodeOf(Update(lrp)), m);
      && (retry.outcome.Ok? <==> Updatable(env.parse, c, lrp))
      && (retry.outcome.Ok? ==> retry.cluster == Rescale(env.parse, c, lrp))
  {
    hide Finish, CodeOf, Updatable, Rescale, UpdateProgress;
    var f := Finish(env, c, CodeOf(Update(lrp)), n);
    UpdateStopsAt(env, c, lrp, n);
    OperationsKeepNames(env, c, Update(lrp), n);
    UpdateOk(later, f.cluster, lrp, m);
    UpdateResumes(env.parse, c, lrp, f.cluster);
  }

  lemma UpdateStopsAt(env: Env, c: Cluster, lrp: LRP, n: nat)
    requires Named(c) && !Finish(env, c, CodeOf(Update(lrp)), n).outcome.Ok?
    ensures UpdateProgress(c, lrp, Finish(env, c, CodeOf(Update(lrp)), n).cluster)
  {
    hide Finish, Scaled, Announcing, Rules, AllParse, WithRules, Lookup, Unregistered;
    var list := Do(ListIngresses(lrp), Halt(Ok));
    var f1, g1 := First(env, c, FetchInstance(lrp), Do(FetchService(lrp), list), n);
    UpdateInstanceRuns(env, c, lrp, n);
    if f1.outcome.Ok? {
      var f2, g2 := First(env, f1.cluster, FetchService(lrp), list, f1.requests);
      UpdateServiceRuns(env, f1.cluster, lrp, f1.requests);
      if f2.outcome.Ok? {
        UpdateRulesRuns(env, f2.cluster, lrp, f2.requests);
      }
    }
  }

  /**
   A failed first `Desire` is deployed by its retry exactly when the failed attempt had not created the
   instance; otherwise the retry returns nil and leaves what the failed attempt left.
   */
  lemma FailedDesireRetried(env: Env, later: Env, c: Cluster, lrp: LRP, n: nat, m: nat)
    requires Healthy(later) && later.parse == env.parse && Named(c) && lrp.name !in c.statefulSets
    requires !Finish(env, c, CodeOf(Desire(lrp)), n).outcome.Ok?
    ensures var f := Finish(env, c, CodeOf(Desire(lrp)), n);
      var retry := Finish(later, f.cluster, CodeOf(Desire(lrp)), m);
      if env.healthy(n) && env.healthy(n + 1) then
        retry.outcome.Ok? && retry.cluster == f.cluster && lrp.name in f.cluster.statefulSets
      else
        && f.cluster == c && (retry.outcome.Ok? <==> Deployable(env.parse, c, lrp))
        && (retry.outcome.Ok? ==> retry.cluster == Deploy(env.parse, c, lrp))
  {
    hide Finish, Rules, AllParse, WithRules, Lookup, ToStatefulSet, Deploy;
    var f := Finish(env, c, CodeOf(Desire(lrp)), n);
    DesireCreatesFirst(env, c, lrp, n);
    OperationsKeepNames(env, c, Desire(lrp), n);
    DesireOk(later, f.cluster, lrp, m);
  }

  lemma DesireCreatesFirst(env: Env, c: Cluster, lrp: LRP, n: nat)
    requires AllLabelled(c.statefulSets) && lrp.name !in c.statefulSets
    ensures var f := Finish(env, c, CodeOf(Desire(lrp)), n);
      if env.healthy(n) && env.healthy(n + 1) then lrp.name in f.cluster.statefulSets
      else f.cluster == c && f.outcome.Err?
  {
    hide Finish, StepServices, StepIngress, ToStatefulSet, ToHeadlessService, ToService,
         Lookup, Rules, AllParse, WithRules;
    var list := Do(ListIngresses(lrp), Halt(Ok));
    ExistsMeansStored(c, lrp.name);
    var s := Unfold(env, c, CheckExists(lrp), Halt(Ok), n);
    if s.code.Do? {
      var f1, g1 := First(env, c, CreateInstance(lrp), Do(CreateHeadless(lrp), Do(CreateService(lrp), list)), n + 1);
      CreateInstanceRuns(env, c, lrp, n + 1);
      var f2, g2 := First(env, f1.cluster, CreateHeadless(lrp), Do(CreateService(lrp), list), f1.requests);
      CreateHeadlessRuns(env, f1.cluster, lrp, f1.requests);
      var f3, g3 := First(env, f2.cluster, CreateService(lrp), list, f2.requests);
      CreateServiceRuns(env, f2.cluster, lrp, f2.requests);
      UpdateRulesRuns(env, f3.cluster, lrp, f3.requests);
    }
  }

  // ----- repairs by other operations -----

  /** Once the instance is gone, `Stop` fails at its first request whatever it left behind. */
  lemma StopNeverResumes(env: Env, c: Cluster, app: string, n: nat)
    requires app !in c.statefulSets
    ensures Finish(env, c, CodeOf(Stop(app)), n) == Final(c, Err, n + 1, [])
  {
    hide Finish;
    var f, g := First(env, c, DeleteInstance(app),
                      Do(DeleteHeadless(app), Do(FetchIngress(app), Do(FetchDoomed(app), Halt(Ok)))), n);
    DeleteInstanceRuns(env, c, app, n);
  }

  /** `Stop` of the only app fails when it has no route: with every request succeeding, its service stays. */
  lemma StopCanFail(parse: Parser, lrp: LRP)
    requires ValidApp(lrp.name) && Uris(lrp) == UriList([])
    ensures exists run :: LeavesService(After(parse, map[], run), lrp.name)
  {
    hide Finish, CodeOf, ValidApp, After, Rules, WithRules, ProperIngress;
    var env, c := Env(parse, _ => true), Start(map[]).cluster;
    var ops := [Desire(lrp), Stop(lrp.name)];
    StartIsConsistent(parse, map[]);
    NothingParses(parse);
    DesireOk(env, c, lrp, 0);
    DesireSucceedsExactly(env, c, lrp, 0);
    DeployKeeps(parse, c, lrp);
    RulesEmptyExactly(parse, lrp.name, []);
    ReplacedBackends(None, ServiceName(lrp.name), multiset{});
    NamesDiffer(lrp.name, lrp.name);
    var d := Finish(env, c, CodeOf(Desire(lrp)), 0);
    StopSucceedsExactly(env, d.cluster, lrp.name, d.requests);
    StopOk(env, d.cluster, lrp.name, d.requests);
    InTurn(env, c, Desire(lrp), Stop(lrp.name));
    OperationsAreARun(env, map[], ops);
    var f := RunAll(env, c, ops, 0);
    var run :| After(parse, map[], run) ==
      Start(map[]).(cluster := f.cluster, code := Halt(f.outcome), queue := f.sent);
    assert LeavesService(After(parse, map[], run), lrp.name);
  }

  /** Idle after a failed operation, with an app's service but neither its instance nor its headless service. */
  predicate LeavesService(w: World, app: string) {
    && w.code == Halt(Err) && app !in w.cluster.statefulSets
    && HeadlessName(app) !in w.cluster.services && ServiceName(app) in w.cluster.services
  }

  /** What a `Stop` of an app with an instance needs, on a healthy API server, to leave nothing of it. */
  predicate Clearable(c: Cluster, app: string) {
    var s := ServiceName(app);
    if HeadlessName(app) in c.services && c.ingress.Some? then s !in c.services || Announced(c.services, s).Some?
    else s !in c.services && RulesOf(c.ingress, s) == multiset{}
  }

  /** Whether it returns nil or not: `Stop` clears away whatever failed operations left exactly then. */
  lemma StopClearsExactly(env: Env, c: Cluster, app: string, n: nat)
    requires Healthy(env) && ValidApp(app) && app in c.statefulSets
    ensures Gone(Finish(env, c, CodeOf(Stop(app)), n).cluster, app) <==> Clearable(c, app)
  {
    hide Finish, ValidApp, WithRules, Lookup;
    NamesDiffer(app, app);
    var doomed := Do(FetchDoomed(app), Halt(Ok));
    var rules := Do(FetchIngress(app), doomed);
    var f1, g1 := First(env, c, DeleteInstance(app), Do(DeleteHeadless(app), rules), n);
    DeleteInstanceRuns(env, c, app, n);
    var f2, g2 := First(env, f1.cluster, DeleteHeadless(app), rules, f1.requests);
    DeleteHeadlessRuns(env, f1.cluster, app, f1.requests);
    if f2.outcome.Ok? {
      var f3, g3 := First(env, f2.cluster, FetchIngress(app), doomed, f2.requests);
      DeleteRulesRuns(env, f2.cluster, app, f2.requests);
      WithRulesReplaces(c.ingress, ServiceName(app), multiset{}, ServiceName(app));
      DeleteServiceRuns(env, f3.cluster, app, f3.requests);
    }
  }

  /** The instance and, if it was gone, the headless service again. */
  function Restored(c: Cluster, lrp: LRP): Cluster {
    c.(statefulSets := c.statefulSets[lrp.name := ToStatefulSet(lrp)],
       services := if HeadlessName(lrp.name) in c.services then c.services
                   else c.services[HeadlessName(lrp.name) := ToHeadlessService(lrp)])
  }

  /** `Desire` after a half-failed `Stop` fails on the service that was left, and restores what `Stop` had removed. */
  lemma DesireAfterHalfStop(env: Env, c: Cluster, lrp: LRP, n: nat)
    requires Healthy(env) && AllLabelled(c.statefulSets) && ValidApp(lrp.name)
    requires lrp.name !in c.statefulSets && ServiceName(lrp.name) in c.services
    ensures var f := Finish(env, c, CodeOf(Desire(lrp)), n);
      f.cluster == Restored(c, lrp) && f.outcome.Err? && f.sent == []
  {
    hide Finish, StepServices, StepIngress, ToStatefulSet, ToHeadlessService, ToService, ValidApp, Lookup;
    if HeadlessName(lrp.name) in c.services {
      HeadlessRefused(env, c, lrp, n);
    } else {
      var list := Do(ListIngresses(lrp), Halt(Ok));
      ExistsMeansStored(c, lrp.name);
      var s := Unfold(env, c, CheckExists(lrp), Halt(Ok), n);
      var f1, g1 := First(env, c, CreateInstance(lrp), Do(CreateHeadless(lrp), Do(CreateService(lrp), list)), n + 1);
      CreateInstanceRuns(env, c, lrp, n + 1);
      var f2, g2 := First(env, f1.cluster, CreateHeadless(lrp), Do(CreateService(lrp), list), f1.requests);
      CreateHeadlessRuns(env, f1.cluster, lrp, f1.requests);
      var f3, g3 := First(env, f2.cluster, CreateService(lrp), list, f2.requests);
      CreateServiceRuns(env, f2.cluster, lrp, f2.requests);
    }
  }

  /**
   The repair of a half-failed `Stop` takes two operations, the first of which fails. `Desire` and then
   `Stop` clears the app away exactly when the Ingress exists; `Desire` and then `Update` deploys it
   again exactly when the LRP's routes decode and parse.
   */
  lemma HalfStopRepairsExactly(env: Env, c: Cluster, lrp: LRP, n: nat, m: nat)
    requires Healthy(env) && Named(c) && ValidApp(lrp.name)
    requires lrp.name !in c.statefulSets && Announced(c.services, ServiceName(lrp.name)).Some?
    ensures var d := Finish(env, c, CodeOf(Desire(lrp)), n);
      var stop := Finish(env, d.cluster, CodeOf(Stop(lrp.name)), m);
      var update := Finish(env, d.cluster, CodeOf(Update(lrp)), m);
      && d.outcome.Err?
      && (stop.outcome.Ok? <==> c.ingress.Some?) && (stop.outcome.Ok? <==> Gone(stop.cluster, lrp.name))
      && (update.outcome.Ok? <==> Uris(lrp).UriList? && AllParse(env.parse, Uris(lrp).uris))
      && (update.outcome.Ok? ==> Live(env.parse, update.cluster, lrp.name))
  {
    hide Finish, ValidApp, Rules, AllParse, Lookup, ToInt32, WithRules;
    NamesDiffer(lrp.name, lrp.name);
    DesireAfterHalfStop(env, c, lrp, n);
    OperationsKeepNames(env, c, Desire(lrp), n);
    var d := Restored(c, lrp);
    assert d.statefulSets[lrp.name].annotations == lrp.metadata;
    UrisAreMetadata(lrp);
    assert Announced(d.services, ServiceName(lrp.name)) == Announced(c.services, ServiceName(lrp.name));
    StopOk(env, d, lrp.name, m);
    StopClearsExactly(env, d, lrp.name, m);
    UpdateOk(env, d, lrp, m);
    if Updatable(env.parse, d, lrp) {
      RescaleIsLive(env.parse, d, lrp);
    }
  }

  lemma UrisAreMetadata(lrp: LRP)
    ensures Uris(lrp).UriList? ==> lrp.metadata != map[]
  {
  }

  lemma RescaleIsLive(parse: Parser, c: Cluster, lrp: LRP)
    requires ValidApp(lrp.name) && Updatable(parse, c, lrp) && HeadlessName(lrp.name) in c.services
    ensures Live(parse, Rescale(parse, c, lrp), lrp.name)
  {
    hide ValidApp, Rules, AllParse, Lookup, WithRules, Scaled;
    var s, rules := ServiceName(lrp.name), multiset(Rules(parse, lrp.name, Uris(lrp).uris));
    NamesDiffer(lrp.name, lrp.name);
    LookupNew(c.services[s], Uris(lrp));
    WithRulesReplaces(c.ingress, s, rules, s);
  }

  /** `Update` deploys an app that a failed `Desire` left with both services but without its rules. */
  lemma UpdateFinishesDesire(env: Env, c: Cluster, lrp: LRP, n: nat)
    requires Healthy(env) && Named(c) && ValidApp(lrp.name)
    requires lrp.name in c.statefulSets && HeadlessName(lrp.name) in c.services
    ensures var f := Finish(env, c, CodeOf(Update(lrp)), n);
      && (f.outcome.Ok? <==> Updatable(env.parse, c, lrp))
      && (f.outcome.Ok? ==> Live(env.parse, f.cluster, lrp.name))
  {
    hide Finish, ValidApp, Rules, AllParse, Lookup, WithRules, Live;
    UpdateOk(env, c, lrp, n);
    if Updatable(env.parse, c, lrp) {
      RescaleIsLive(env.parse, c, lrp);
    }
  }
}
