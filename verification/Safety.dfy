/**
 What every reachable state keeps, whichever API requests fail and however the collector and the
 emitter interleave: no dangling backend, whole-list ingress rules, and justified messages.
 */
module Safety {
  import opened Names
  import opened Wrappers
  import opened Model
  import opened Protocol
  import opened Router
  import opened Runs

  type Services = map<string, Service>
  type Lists = set<(string, seq<string>)>
  type Changes = set<(string, seq<string>, seq<string>)>

  /** What a run has shown so far: annotations held, replacements made, and deletions attempted. */
  datatype History = History(held: Lists, replaced: Changes, doomed: Lists)

  function Held(services: Services): (held: Lists)
    ensures forall p :: p in held <==> Announced(services, p.0) == Some(p.1)
  {
    set s | s in services && Announced(services, s).Some? :: (s, Announced(services, s).value)
  }

  function Replaced(was: Services, now: Services): (replaced: Changes)
    ensures forall p :: p in replaced <==> Announced(was, p.0) == Some(p.1) && Announced(now, p.0) == Some(p.2)
  {
    set s | s in was && Announced(was, s).Some? && Announced(now, s).Some?
      :: (s, Announced(was, s).value, Announced(now, s).value)
  }

  /** The service a `Stop` is about to unregister and delete, with its annotation. */
  function Doomed(services: Services, code: Code): Lists {
    if code.Do? && code.call.Send? && code.rest.Do? && code.rest.call.DeleteService? then
      var s := ServiceName(code.rest.call.app);
      if Announced(services, s).Some? then {(s, Announced(services, s).value)} else {}
    else {}
  }

  predicate Includes(h: History, h': History) {
    h.held <= h'.held && h.replaced <= h'.replaced && h.doomed <= h'.doomed
  }

  /** `h` includes what a step from `was` to `now` with `code` left shows. */
  predicate Records(h: History, was: Services, now: Services, code: Code) {
    Held(now) <= h.held && Replaced(was, now) <= h.replaced && Doomed(now, code) <= h.doomed
  }

  ghost function Past(parse: Parser, foreign: Services, run: seq<Action>): History {
    if run == [] then History(Held(foreign), {}, {})
    else
      var h := Past(parse, foreign, run[..|run| - 1]);
      var w := After(parse, foreign, run[..|run| - 1]);
      var w' := After(parse, foreign, run);
      History(h.held + Held(w'.cluster.services), h.replaced + Replaced(w.cluster.services, w'.cluster.services),
              h.doomed + Doomed(w'.cluster.services, w'.code))
  }

  /**
   A registered list was one annotation as a whole; an unregistered one is what a replacement dropped, or
   a doomed service's annotation.
   */
  ghost predicate Justified(h: History, m: Message) {
    match m
    case Register(s, uris) => (s, uris) in h.held
    case Unregister(s, uris) =>
      || (s, uris) in h.doomed
      || (exists was, now :: (s, was, now) in h.replaced && uris == Unregistered(was, now))
  }

  ghost predicate AllJustified(h: History, ms: seq<Message>) {
    forall m | m in ms :: Justified(h, m)
  }

  /** `rules` are exactly the rules of one whole list that service `s` has announced. */
  ghost predicate Built(parse: Parser, held: Lists, s: string, rules: multiset<Rule>)
    requires |s| >= 3
  {
    exists uris :: (s, uris) in held && uris != [] && AllParse(parse, uris)
      && rules == multiset(Rules(parse, s[3..], uris))
  }

  ghost predicate GoodBackend(parse: Parser, held: Lists, services: Services, s: string, rules: multiset<Rule>) {
    s in services && IsAppService(s) && Built(parse, held, s, rules)
  }

  ghost predicate GoodBackends(parse: Parser, held: Lists, services: Services, m: Backends) {
    m != map[] && forall s | s in m :: GoodBackend(parse, held, services, s, m[s])
  }

  ghost predicate GoodIngress(parse: Parser, held: Lists, services: Services, ingress: Option<Backends>) {
    ingress.Some? ==> GoodBackends(parse, held, services, ingress.value)
  }

  predicate GoodInstances(instances: map<string, StatefulSet>) {
    AllLabelled(instances) && forall k | k in instances :: ValidApp(k)
  }

  predicate GoodServices(services: Services) {
    forall s | s in services ::
      services[s].name == s && (IsCFService(s) ==> IsAppService(s) || HeadlessService(s))
  }

  ghost predicate GoodCluster(parse: Parser, h: History, c: Cluster) {
    && Held(c.services) <= h.held
    && GoodInstances(c.statefulSets) && GoodServices(c.services)
    && GoodIngress(parse, h.held, c.services, c.ingress)
  }

  predicate NoRules(ingress: Option<Backends>, s: string) {
    ingress.Some? ==> s !in ingress.value
  }

  /** The last part of `Stop`, or nothing left. */
  predicate Tail(code: Code) {
    code == Halt(Ok) || (code.Do? && code.call.FetchDoomed? && ValidApp(code.call.app) && code.rest == Halt(Ok))
  }

  /** The service of `lrp` announces the routes in the LRP's metadata. */
  predicate InStep(services: Services, lrp: LRP) {
    ValidApp(lrp.name) && Uris(lrp).UriList? && Announced(services, ServiceName(lrp.name)) == Some(Uris(lrp).uris)
  }

  /** The batch registers the routes in the LRP's metadata, and unregisters only others. */
  predicate TellsRoutes(batch: Batch, lrp: LRP) {
    && |batch| == 1 && batch[0].name == ServiceName(lrp.name)
    && Uris(lrp).UriList? && batch[0].routes == Uris(lrp).uris
    && forall u | u in batch[0].unregistered :: u !in batch[0].routes
  }

  ghost predicate ReadySend(h: History, c: Cluster, batch: Batch, rest: Code) {
    && AllJustified(h, Messages(batch))
    && rest.Do? && rest.rest == Halt(Ok)
    && match rest.call
       case ListIngresses(lrp) => InStep(c.services, lrp) && TellsRoutes(batch, lrp)
       case DeleteService(app) =>
         && ValidApp(app) && NoRules(c.ingress, ServiceName(app)) && Announced(c.services, ServiceName(app)).Some?
         && batch == [Routes(ServiceName(app), [], Announced(c.services, ServiceName(app)).value)]
       case _ => false
  }

  /** The fetched service with its new annotation, and the batch that tells the difference. */
  predicate ReadyStore(services: Services, service: Service, rest: Code) {
    && rest.Do? && rest.call.Send? && rest.rest.Do? && rest.rest.call.ListIngresses? && rest.rest.rest == Halt(Ok)
    && var lrp := rest.rest.call.lrp;
    var s := ServiceName(lrp.name);
    && ValidApp(lrp.name) && Uris(lrp).UriList? && Announced(services, s).Some?
    && services[s].name == s && service == Announcing(services[s], Uris(lrp))
    && rest.call.batch == [Routes(s, Uris(lrp).uris, Unregistered(Announced(services, s).value, Uris(lrp).uris))]
  }

  /** What the code still to run may rely on. */
  ghost predicate Ready(parse: Parser, h: History, c: Cluster, code: Code) {
    code.Do? ==>
      match code.call
      case CheckExists(lrp) => ValidApp(lrp.name) && code.rest == Halt(Ok)
      case CreateInstance(lrp) => ValidApp(lrp.name) && code == Create(lrp, Halt(Ok))
      case CreateHeadless(lrp) =>
        ValidApp(lrp.name) && code.rest == Do(CreateService(lrp), Do(ListIngresses(lrp), Halt(Ok)))
      case CreateService(lrp) => ValidApp(lrp.name) && code.rest == Do(ListIngresses(lrp), Halt(Ok))
      case FetchInstance(lrp) => ValidApp(lrp.name) && code == CodeOf(Update(lrp))
      case StoreInstance(instance) =>
        && code.rest.Do? && code.rest.call.FetchService? && code.rest.call.lrp.name in c.statefulSets
        && instance == Scaled(c.statefulSets[code.rest.call.lrp.name], code.rest.call.lrp)
        && code.rest.rest == Do(ListIngresses(code.rest.call.lrp), Halt(Ok))
      case FetchService(lrp) => ValidApp(lrp.name) && code.rest == Do(ListIngresses(lrp), Halt(Ok))
      case StoreService(service) => ReadyStore(c.services, service, code.rest)
      case Send(batch) => ReadySend(h, c, batch, code.rest)
      case ListIngresses(lrp) => InStep(c.services, lrp) && code.rest == Halt(Ok)
      case FetchIngress(app) => ValidApp(app) && Tail(code.rest) && (code.rest.Do? ==> code.rest.call.app == app)
      case PutIngress(m) =>
        && GoodBackends(parse, h.held, c.services, m)
        && Tail(code.rest) && (code.rest.Do? ==> ServiceName(code.rest.call.app) !in m)
      case PostIngress(m) => GoodBackends(parse, h.held, c.services, m) && code.rest == Halt(Ok)
      case RemoveIngress => Tail(code.rest)
      case DeleteInstance(app) => ValidApp(app) && code == CodeOf(Stop(app))
      case DeleteHeadless(app) =>
        ValidApp(app) && code.rest == Do(FetchIngress(app), Do(FetchDoomed(app), Halt(Ok)))
      case FetchDoomed(app) => ValidApp(app) && NoRules(c.ingress, ServiceName(app)) && code.rest == Halt(Ok)
      case DeleteService(app) => ValidApp(app) && NoRules(c.ingress, ServiceName(app)) && code.rest == Halt(Ok)
  }

  // ----- every step keeps it -----

  lemma BackendsGrow(parse: Parser, h: History, h': History, was: Services, now: Services, m: Backends)
    requires Includes(h, h') && GoodBackends(parse, h.held, was, m)
    requires forall s | s in m && s in was && IsAppService(s) :: s in now
    ensures GoodBackends(parse, h'.held, now, m)
  {
    forall s | s in m ensures GoodBackend(parse, h'.held, now, s, m[s]) {
      assert GoodBackend(parse, h.held, was, s, m[s]);
      var uris :| (s, uris) in h.held && uris != [] && AllParse(parse, uris)
        && m[s] == multiset(Rules(parse, s[3..], uris));
      assert (s, uris) in h'.held;
    }
  }

  /** Rules untouched and their services still there: the Ingress stays good. */
  lemma IngressKept(parse: Parser, h: History, h': History, was: Services, now: Services, ingress: Option<Backends>)
    requires GoodIngress(parse, h.held, was, ingress) && Includes(h, h')
    requires forall s | s in was && IsAppService(s) :: s in now || NoRules(ingress, s)
    ensures GoodIngress(parse, h'.held, now, ingress)
  {
    if ingress.Some? {
      BackendsGrow(parse, h, h', was, now, ingress.value);
    }
  }

  /** Instances keep their names and labels. */
  lemma InstancesKept(parse: Parser, h: History, c: Cluster, call: Call, rest: Code)
    requires InstanceCall(call) && GoodInstances(c.statefulSets) && Ready(parse, h, c, Do(call, rest))
    ensures var s := StepInstances(c, call, rest);
      GoodInstances(s.cluster.statefulSets) && s.cluster == c.(statefulSets := s.cluster.statefulSets) && s.sent == []
  {
    hide GoodBackends, ValidApp, Selects, ReadySend, ReadyStore, InStep, NoRules, Lookup, ToInt32, Create;
  }

  lemma InstanceStepReady(parse: Parser, h: History, h': History, c: Cluster, call: Call, rest: Code)
    requires InstanceCall(call) && GoodInstances(c.statefulSets) && Ready(parse, h, c, Do(call, rest))
    ensures var s := StepInstances(c, call, rest); Ready(parse, h', s.cluster, s.code)
  {
    hide GoodBackends, ValidApp, Selects, ReadySend, ReadyStore, InStep, NoRules, Scaled, ToStatefulSet;
  }

  lemma InstanceStepKeeps(parse: Parser, h: History, h': History, c: Cluster, call: Call, rest: Code)
    requires InstanceCall(call)
    requires GoodCluster(parse, h, c) && Ready(parse, h, c, Do(call, rest)) && Includes(h, h')
    ensures var s := StepInstances(c, call, rest);
            GoodCluster(parse, h', s.cluster) && Ready(parse, h', s.cluster, s.code) && s.sent == []
  {
    hide StepInstances, Ready, GoodIngress, GoodInstances, GoodServices, Held;
    IngressKept(parse, h, h', c.services, c.services, c.ingress);
    assert GoodInstances(c.statefulSets);
    InstancesKept(parse, h, c, call, rest);
    InstanceStepReady(parse, h, h', c, call, rest);
  }

  lemma HeadlessStepKeeps(parse: Parser, h: History, h': History, c: Cluster, call: Call, rest: Code)
    requires call.CreateHeadless? || call.DeleteHeadless?
    requires GoodCluster(parse, h, c) && Ready(parse, h, c, Do(call, rest)) && Includes(h, h')
    requires var s := StepServices(c, call, rest); Records(h', c.services, s.cluster.services, s.code)
    ensures var s := StepServices(c, call, rest);
            GoodCluster(parse, h', s.cluster) && Ready(parse, h', s.cluster, s.code) && s.sent == []
  {
    hide GoodIngress, GoodInstances, Held, ValidApp, IsAppService, IsCFService;
    var s := StepServices(c, call, rest);
    HeadlessNameIsSkipped(if call.CreateHeadless? then call.lrp.name else call.app);
    IngressKept(parse, h, h', c.services, s.cluster.services, c.ingress);
  }

  /** One-entry batches are justified by what the service announced. */
  lemma EntryJustified(h: History, r: Routes)
    requires r.routes != [] ==> (r.name, r.routes) in h.held
    requires r.unregistered != [] ==> Justified(h, Unregister(r.name, r.unregistered))
    ensures AllJustified(h, Messages([r]))
  {
    assert Messages([r]) == MessagesOf(r) + Messages([]);
  }

  lemma CreateServiceKeeps(parse: Parser, h: History, h': History, c: Cluster, lrp: LRP, rest: Code)
    requires GoodCluster(parse, h, c) && Ready(parse, h, c, Do(CreateService(lrp), rest)) && Includes(h, h')
    requires var s := StepServices(c, CreateService(lrp), rest); Records(h', c.services, s.cluster.services, s.code)
    ensures var s := StepServices(c, CreateService(lrp), rest);
            GoodCluster(parse, h', s.cluster) && Ready(parse, h', s.cluster, s.code) && s.sent == []
  {
    hide GoodIngress, GoodBackends, GoodInstances, HeadlessService, ValidApp, IsAppService, IsCFService, Tail,
         Held, Replaced, Doomed, AllJustified, Messages, Unregistered;
    var s := StepServices(c, CreateService(lrp), rest);
    var name := ServiceName(lrp.name);
    ServiceNameIsListed(lrp.name);
    IngressKept(parse, h, h', c.services, s.cluster.services, c.ingress);
    if name !in c.services && Uris(lrp).UriList? {
      AnnouncesNow(c.services, ToService(lrp));
      EntryJustified(h', Routes(name, Uris(lrp).uris, []));
    }
  }

  /** Writing a service makes its list held, and a change from the list it had. */
  lemma AnnouncesNow(services: Services, service: Service)
    requires Registered(service).UriList?
    ensures var s, uris := service.name, Registered(service).uris;
            && (s, uris) in Held(services[s := service])
            && (Announced(services, s).Some? ==>
                  (s, Announced(services, s).value, uris) in Replaced(services, services[s := service]))
  {
  }

  lemma StoreServiceKeeps(parse: Parser, h: History, h': History, c: Cluster, service: Service, rest: Code)
    requires GoodCluster(parse, h, c) && Ready(parse, h, c, Do(StoreService(service), rest)) && Includes(h, h')
    requires var s := StepServices(c, StoreService(service), rest); Records(h', c.services, s.cluster.services, s.code)
    ensures var s := StepServices(c, StoreService(service), rest);
            GoodCluster(parse, h', s.cluster) && Ready(parse, h', s.cluster, s.code) && s.sent == []
  {
    hide GoodIngress, GoodBackends, GoodInstances, HeadlessService, ValidApp, IsAppService, IsCFService, Tail,
         Held, Replaced, Doomed, AllJustified, Messages, Unregistered;
    var s := StepServices(c, StoreService(service), rest);
    IngressKept(parse, h, h', c.services, s.cluster.services, c.ingress);
    assert Registered(service) == Uris(rest.rest.call.lrp);
    AnnouncesNow(c.services, service);
    EntryJustified(h', rest.call.batch[0]);
  }

  lemma DoomedStepKeeps(parse: Parser, h: History, h': History, c: Cluster, call: Call, rest: Code)
    requires call.FetchService? || call.FetchDoomed? || call.DeleteService?
    requires GoodCluster(parse, h, c) && Ready(parse, h, c, Do(call, rest)) && Includes(h, h')
    requires var s := StepServices(c, call, rest); Records(h', c.services, s.cluster.services, s.code)
    ensures var s := StepServices(c, call, rest);
            GoodCluster(parse, h', s.cluster) && Ready(parse, h', s.cluster, s.code) && s.sent == []
  {
    hide GoodIngress, GoodBackends, GoodInstances, HeadlessService, ValidApp, IsAppService, IsCFService, Tail,
         Held, Replaced, Doomed, AllJustified, Messages, Unregistered;
    var s := StepServices(c, call, rest);
    IngressKept(parse, h, h', c.services, s.cluster.services, c.ingress);
    if call.FetchDoomed? && s.code.Do? {
      DoomedNow(c.services, s.code);
      EntryJustified(h', s.code.call.batch[0]);
    }
  }

  lemma DoomedNow(services: Services, code: Code)
    requires code.Do? && code.call.Send? && code.rest.Do? && code.rest.call.DeleteService?
    requires Announced(services, ServiceName(code.rest.call.app)).Some?
    ensures var s := ServiceName(code.rest.call.app); (s, Announced(services, s).value) in Doomed(services, code)
  {
  }

  /** Rules built from the announced list may join any good Ingress. */
  lemma BackendsWith(parse: Parser, held: Lists, services: Services, lrp: LRP)
    requires Held(services) <= held && InStep(services, lrp) && Uris(lrp).uris != [] && AllParse(parse, Uris(lrp).uris)
    ensures var s, rules := ServiceName(lrp.name), multiset(Rules(parse, lrp.name, Uris(lrp).uris));
            && GoodBackends(parse, held, services, map[s := rules])
            && forall m | GoodBackends(parse, held, services, m) :: GoodBackends(parse, held, services, m[s := rules])
  {
    hide IsAppService, ValidApp;
    var s, uris := ServiceName(lrp.name), Uris(lrp).uris;
    var rules := multiset(Rules(parse, lrp.name, uris));
    ServiceNameIsListed(lrp.name);
    assert (s, uris) in Held(services);
    assert GoodBackend(parse, held, services, s, rules);
    assert s in map[s := rules];
    forall m | GoodBackends(parse, held, services, m) ensures GoodBackends(parse, held, services, m[s := rules]) {
      assert s in m[s := rules];
    }
  }

  lemma ListIngressesKeeps(parse: Parser, h: History, h': History, c: Cluster, lrp: LRP, rest: Code)
    requires GoodCluster(parse, h, c) && Ready(parse, h, c, Do(ListIngresses(lrp), rest)) && Includes(h, h')
    ensures var s := StepIngress(parse, c, ListIngresses(lrp), rest);
            GoodCluster(parse, h', s.cluster) && Ready(parse, h', s.cluster, s.code) && s.sent == []
  {
    hide GoodBackends, GoodInstances, GoodServices, ValidApp, Held, AllParse;
    IngressKept(parse, h, h', c.services, c.services, c.ingress);
    if Uris(lrp).uris != [] && AllParse(parse, Uris(lrp).uris) {
      BackendsWith(parse, h'.held, c.services, lrp);
    }
  }

  lemma IngressStepKeeps(parse: Parser, h: History, h': History, c: Cluster, call: Call, rest: Code)
    requires call.FetchIngress? || call.PutIngress? || call.PostIngress? || call.RemoveIngress?
    requires GoodCluster(parse, h, c) && Ready(parse, h, c, Do(call, rest)) && Includes(h, h')
    ensures var s := StepIngress(parse, c, call, rest);
            GoodCluster(parse, h', s.cluster) && Ready(parse, h', s.cluster, s.code) && s.sent == []
  {
    hide GoodBackend, GoodInstances, GoodServices, Held, ValidApp;
    IngressKept(parse, h, h', c.services, c.services, c.ingress);
    if call.PutIngress? || call.PostIngress? {
      BackendsGrow(parse, h, h', c.services, c.services, call.backends);
    }
  }

  lemma StepKeeps(parse: Parser, h: History, h': History, c: Cluster, call: Call, rest: Code, ok: bool)
    requires GoodCluster(parse, h, c) && Ready(parse, h, c, Do(call, rest)) && Includes(h, h')
    requires var s := Step(parse, c, call, rest, ok); Records(h', c.services, s.cluster.services, s.code)
    ensures var s := Step(parse, c, call, rest, ok);
            GoodCluster(parse, h', s.cluster) && Ready(parse, h', s.cluster, s.code)
            && AllJustified(h', Flatten(s.sent))
  {
    hide StepInstances, StepServices, StepIngress, GoodIngress, GoodInstances, GoodServices, Held;
    IngressKept(parse, h, h', c.services, c.services, c.ingress);
    if InstanceCall(call) {
      InstanceStepKeeps(parse, h, h', c, call, rest);
    } else if call.ListIngresses? {
      ListIngressesKeeps(parse, h, h', c, call.lrp, rest);
    } else if call.FetchIngress? || call.PutIngress? || call.PostIngress? || call.RemoveIngress? {
      IngressStepKeeps(parse, h, h', c, call, rest);
    } else if call.Send? {
      assert Flatten([call.batch]) == Messages(call.batch) + Flatten([]);
    } else if !ok {
    } else if call.CreateService? {
      CreateServiceKeeps(parse, h, h', c, call.lrp, rest);
    } else if call.StoreService? {
      StoreServiceKeeps(parse, h, h', c, call.service, rest);
    } else if call.CreateHeadless? || call.DeleteHeadless? {
      HeadlessStepKeeps(parse, h, h', c, call, rest);
    } else {
      DoomedStepKeeps(parse, h, h', c, call, rest);
    }
  }
}
