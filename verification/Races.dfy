/** The race of the collector with `Stop` is reachable: a run in which every request and publish succeeds. */
module Races {
  import opened Names
  import opened Wrappers
  import opened Model
  import opened Protocol
  import opened Router
  import opened Runs
  import opened Safety
  import opened Sync
  import opened Ticks

  predicate Healthy(a: Action) {
    match a
    case Advance(ok) => ok
    case ListTick(ok, _) => ok
    case Publish(ok) => ok
    case _ => true
  }

  function OneApp(app: string, uri: string): LRP {
    LRP(app, "", [], map[], 1, 0, map[VCAP_APP_URIS := UriList([uri])])
  }

  function Advances(n: nat): seq<Action> {
    seq(n, _ => Advance(true))
  }

  function Deployed(app: string, uri: string, parse: Parser): Cluster
    requires parse(uri).Some?
  {
    Cluster(map[app := ToStatefulSet(OneApp(app, uri))], Both(app, uri),
            Some(map[ServiceName(app) := multiset(Rules(parse, app, [uri]))]))
  }

  function Headless(app: string, uri: string): Services {
    map[HeadlessName(app) := ToHeadlessService(OneApp(app, uri))]
  }

  function Both(app: string, uri: string): Services {
    Headless(app, uri)[ServiceName(app) := ToService(OneApp(app, uri))]
  }

  lemma Chain(parse: Parser, w: World, v: World, n: nat)
    requires n > 0 && Next(parse, w, Advance(true)) == v
    ensures RunFrom(parse, w, Advances(n)) == RunFrom(parse, v, Advances(n - 1))
  {
    assert Advances(n)[1..] == Advances(n - 1);
  }

  lemma DesireInstance(parse: Parser, app: string, uri: string, w: World)
    requires ValidApp(app) && w.cluster == Cluster(map[], map[], None) && w.code == CodeOf(Desire(OneApp(app, uri)))
    ensures var lrp := OneApp(app, uri);
      RunFrom(parse, w, Advances(7)) == RunFrom(parse,
        w.(cluster := Cluster(map[app := ToStatefulSet(lrp)], Headless(app, uri), None),
           code := Do(CreateService(lrp), Do(ListIngresses(lrp), Halt(Ok)))), Advances(4))
  {
    hide ValidApp, RunFrom, Lookup, ToStatefulSet;
    var lrp := OneApp(app, uri);
    var w1 := w.(code := Create(lrp, Halt(Ok)));
    var w2 := w.(cluster := w.cluster.(statefulSets := map[app := ToStatefulSet(lrp)]), code := w1.code.rest);
    var w3 := w2.(cluster := w2.cluster.(services := Headless(app, uri)), code := w2.code.rest);
    Chain(parse, w, w1, 7);
    Chain(parse, w1, w2, 6);
    Chain(parse, w2, w3, 5);
  }

  lemma DesireService(parse: Parser, app: string, uri: string, w: World)
    requires ValidApp(app) && w.cluster.services == Headless(app, uri) && w.queue == []
    requires w.code == Do(CreateService(OneApp(app, uri)), Do(ListIngresses(OneApp(app, uri)), Halt(Ok)))
    ensures RunFrom(parse, w, Advances(4)) == RunFrom(parse,
      w.(cluster := w.cluster.(services := Both(app, uri)), code := Do(ListIngresses(OneApp(app, uri)), Halt(Ok)),
         queue := [[Routes(ServiceName(app), [uri], [])]]), Advances(2))
  {
    hide ValidApp, IsAppService, RunFrom;
    HeadlessNameIsSkipped(app);
    ServiceNameIsListed(app);
    var batch := [Routes(ServiceName(app), [uri], [])];
    var w1 := w.(cluster := w.cluster.(services := Both(app, uri)), code := Do(Send(batch), w.code.rest));
    Chain(parse, w, w1, 4);
    Chain(parse, w1, w1.(code := w.code.rest, queue := [batch]), 3);
  }

  lemma DesireIngress(parse: Parser, app: string, uri: string, w: World)
    requires parse(uri).Some?
    requires w.cluster == Deployed(app, uri, parse).(ingress := None)
    requires w.code == Do(ListIngresses(OneApp(app, uri)), Halt(Ok))
    ensures RunFrom(parse, w, Advances(2)) == w.(cluster := Deployed(app, uri, parse), code := Halt(Ok))
  {
    hide RunFrom;
    var rules := map[ServiceName(app) := multiset(Rules(parse, app, [uri]))];
    var w1 := w.(code := Do(PostIngress(rules), Halt(Ok)));
    var w2 := w.(cluster := Deployed(app, uri, parse), code := Halt(Ok));
    Chain(parse, w, w1, 2);
    Chain(parse, w1, w2, 1);
    Still(parse, w2);
  }

  lemma Still(parse: Parser, w: World)
    ensures RunFrom(parse, w, Advances(0)) == w
  {
  }

  function Announcer(app: string, uri: string): Services {
    map[ServiceName(app) := ToService(OneApp(app, uri))]
  }

  lemma BothMinusHeadless(app: string, uri: string)
    requires ValidApp(app)
    ensures HeadlessName(app) in Both(app, uri) && Both(app, uri) - {HeadlessName(app)} == Announcer(app, uri)
  {
    hide ValidApp, IsAppService;
    HeadlessNameIsSkipped(app);
    ServiceNameIsListed(app);
  }

  lemma StopInstance(parse: Parser, app: string, uri: string, w: World)
    requires ValidApp(app) && w.cluster.statefulSets.Keys == {app} && w.cluster.services == Both(app, uri)
    requires w.code == CodeOf(Stop(app))
    ensures RunFrom(parse, w, Advances(6)) == RunFrom(parse,
      w.(cluster := Cluster(map[], Announcer(app, uri), w.cluster.ingress), code := w.code.rest.rest), Advances(4))
  {
    hide ValidApp, RunFrom, Lookup, StepIngress, Both, Announcer, Headless;
    BothMinusHeadless(app, uri);
    assert w.cluster.statefulSets - {app} == map[];
    var w1 := w.(cluster := w.cluster.(statefulSets := map[]), code := w.code.rest);
    Chain(parse, w, w1, 6);
    Chain(parse, w1, w1.(cluster := w1.cluster.(services := Announcer(app, uri)), code := w1.code.rest), 5);
  }

  lemma StopIngress(parse: Parser, app: string, w: World)
    requires w.cluster.ingress.Some? && w.cluster.ingress.value.Keys == {ServiceName(app)}
    requires w.code == Do(FetchIngress(app), Do(FetchDoomed(app), Halt(Ok)))
    ensures RunFrom(parse, w, Advances(4)) == RunFrom(parse,
      w.(cluster := w.cluster.(ingress := None), code := w.code.rest), Advances(2))
  {
    hide RunFrom;
    assert w.cluster.ingress.value - {ServiceName(app)} == map[];
    var w1 := w.(code := Do(RemoveIngress, w.code.rest));
    Chain(parse, w, w1, 4);
    Chain(parse, w1, w1.(cluster := w.cluster.(ingress := None), code := w.code.rest), 3);
  }

  lemma StopUnregisters(parse: Parser, app: string, uri: string, w: World)
    requires w.cluster.services == Announcer(app, uri) && w.code == Do(FetchDoomed(app), Halt(Ok))
    ensures RunFrom(parse, w, Advances(2)) ==
      w.(code := Do(DeleteService(app), Halt(Ok)), queue := w.queue + [[Routes(ServiceName(app), [], [uri])]])
  {
    hide RunFrom;
    var batch := [Routes(ServiceName(app), [], [uri])];
    var w1 := w.(code := Do(Send(batch), Do(DeleteService(app), Halt(Ok))));
    var w2 := w.(code := Do(DeleteService(app), Halt(Ok)), queue := w.queue + [batch]);
    Chain(parse, w, w1, 2);
    Chain(parse, w1, w2, 1);
    Still(parse, w2);
  }

  /** Begin an operation and run all of its requests, successfully. */
  function Whole(op: Op, steps: nat): seq<Action> {
    [Begin(op)] + Advances(steps)
  }

  lemma WholeRuns(parse: Parser, w: World, op: Op, steps: nat)
    requires w.code.Halt? && ValidApp(Name(op))
    ensures RunFrom(parse, w, Whole(op, steps)) == RunFrom(parse, w.(code := CodeOf(op)), Advances(steps))
  {
    hide ValidApp, CodeOf;
    assert Whole(op, steps)[1..] == Advances(steps);
  }

  /** The emitter receives the one batch in the channel and publishes its one message. */
  lemma EmitOne(parse: Parser, w: World, m: Message, r: Routes)
    requires w.queue == [[r]] && w.outbox == [] && MessagesOf(r) == [m]
    ensures RunFrom(parse, w, [Receive, Publish(true)]) ==
      w.(queue := [], log := w.log + [m], router := Apply(w.router, m))
  {
    EntryApplies(w.router, r);
    var w1 := w.(queue := [], outbox := [m]);
    assert Next(parse, w, Receive) == w1;
    assert [Receive, Publish(true)][1..] == [Publish(true)] && [Publish(true)][1..] == [];
    assert RunFrom(parse, w1, [Publish(true)]) == Next(parse, w1, Publish(true));
  }

  /** From the empty cluster: deploy one app, publish its route, and stop it up to its last request. */
  function UpToGap(app: string, uri: string): seq<Action> {
    Whole(Desire(OneApp(app, uri)), 7) + [Receive, Publish(true)] + Whole(Stop(app), 6) + [Receive, Publish(true)]
  }

  lemma GapIsReached(parse: Parser, app: string, uri: string)
    requires ValidApp(app) && parse(uri).Some?
    ensures var w := RunFrom(parse, Start(map[]), UpToGap(app, uri));
      && w.code == Do(DeleteService(app), Halt(Ok)) && w.cluster.services == Announcer(app, uri)
      && w.tick.None? && w.outbox == [] && w.queue == []
  {
    hide Next, RunFrom, ValidApp, Rules, Deployed;
    var s, lrp, w0 := ServiceName(app), OneApp(app, uri), Start(map[]);
    var deploy, emit, stop := Whole(Desire(lrp), 7), [Receive, Publish(true)], Whole(Stop(app), 6);
    RunInTwo(parse, w0, deploy + emit + stop, emit);
    RunInTwo(parse, w0, deploy + emit, stop);
    RunInTwo(parse, w0, deploy, emit);
    var w1 := DeployRuns(parse, app, uri);
    EmitOne(parse, w1, Register(s, [uri]), Routes(s, [uri], []));
    var w2 := RunFrom(parse, w1, emit);
    StopRuns(parse, app, uri, w2);
    var w3 := RunFrom(parse, w2, stop);
    EmitOne(parse, w3, Unregister(s, [uri]), Routes(s, [], [uri]));
  }

  lemma DeployRuns(parse: Parser, app: string, uri: string) returns (w: World)
    requires ValidApp(app) && parse(uri).Some?
    ensures w == RunFrom(parse, Start(map[]), Whole(Desire(OneApp(app, uri)), 7))
    ensures w == Start(map[]).(cluster := Deployed(app, uri, parse), queue := [[Routes(ServiceName(app), [uri], [])]])
  {
    hide Next, RunFrom, ValidApp, Rules;
    var lrp, list := OneApp(app, uri), Do(ListIngresses(OneApp(app, uri)), Halt(Ok));
    var w0 := Start(map[]).(code := CodeOf(Desire(lrp)));
    var w1 := w0.(cluster := Cluster(map[app := ToStatefulSet(lrp)], Headless(app, uri), None),
                  code := Do(CreateService(lrp), list));
    var w2 := w1.(cluster := w1.cluster.(services := Both(app, uri)), code := list,
                  queue := [[Routes(ServiceName(app), [uri], [])]]);
    WholeRuns(parse, Start(map[]), Desire(lrp), 7);
    DesireInstance(parse, app, uri, w0);
    DesireService(parse, app, uri, w1);
    DesireIngress(parse, app, uri, w2);
    w := RunFrom(parse, Start(map[]), Whole(Desire(lrp), 7));
  }

  lemma StopRuns(parse: Parser, app: string, uri: string, w: World)
    requires ValidApp(app) && parse(uri).Some? && w.cluster == Deployed(app, uri, parse) && w.code.Halt?
    ensures RunFrom(parse, w, Whole(Stop(app), 6)) ==
      w.(cluster := Cluster(map[], Announcer(app, uri), None), code := Do(DeleteService(app), Halt(Ok)),
         queue := w.queue + [[Routes(ServiceName(app), [], [uri])]])
  {
    hide Next, RunFrom, ValidApp, Rules;
    var w0 := w.(code := CodeOf(Stop(app)));
    var w1 := w0.(cluster := Cluster(map[], Announcer(app, uri), w.cluster.ingress), code := w0.code.rest.rest);
    var w2 := w1.(cluster := w1.cluster.(ingress := None), code := w1.code.rest);
    WholeRuns(parse, w, Stop(app), 6);
    StopInstance(parse, app, uri, w0);
    StopIngress(parse, app, w1);
    StopUnregisters(parse, app, uri, w2);
  }

  /** Idle and drained, with a route registered for a service that does not exist. */
  predicate LeavesRoute(w: World, app: string, uri: string) {
    w.code == Halt(Ok) && Drained(w) && ServiceName(app) !in w.cluster.services && (ServiceName(app), uri) in w.router
  }

  /**
   Router sync fails without the schedule: for every app and route there is a run in which no request
   and no publish fails, and which ends drained with the route registered and its service gone.
   */
  lemma StopCanLeaveRoutes(parse: Parser, app: string, uri: string)
    requires ValidApp(app) && parse(uri).Some?
    ensures exists run :: (forall a | a in run :: Healthy(a)) && LeavesRoute(After(parse, map[], run), app, uri)
  {
    hide Next, RunFrom, ValidApp, IsAppService, ListRoutes;
    var s, order := ServiceName(app), [ServiceName(app)];
    var w := RunFrom(parse, Start(map[]), UpToGap(app, uri));
    GapIsReached(parse, app, uri);
    ServiceNameIsListed(app);
    ListingFailsExactly(w.cluster.services, order);
    var ms := Messages(ListRoutes(w.cluster.services, order).value);
    var tick := FullTick(order, |ms|) + [Advance(true)];
    TickInsideStopOrphansRoutes(parse, w, app, order, uri);
    RunInTwo(parse, Start(map[]), UpToGap(app, uri), tick);
    var run := UpToGap(app, uri) + tick;
    AfterIsRunFrom(parse, map[], run);
    assert forall a | a in run :: Healthy(a);
  }
}
