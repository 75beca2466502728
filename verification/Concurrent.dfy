/**
 Operations on different apps at the same time, interleaved call by call. They meet in the shared Ingress,
 which each of them reads, edits and writes back; the API server refuses to update an Ingress that has
 changed since it was read. Creation and deletion carry no such condition.
 */
module Concurrent {
  import opened Names
  import opened Wrappers
  import opened Model
  import opened Protocol
  import D = Consistency
  import E = Effects
  import R = Runs
  import S = Safety

  /** What is left of an operation, and the version of the Ingress that it read last. */
  datatype Job = Job(code: Code, read: nat)

  /** At most one operation per app; `version` counts the changes of the Ingress. */
  datatype World = World(cluster: Cluster, jobs: map<string, Job>, version: nat)

  datatype Move = Begin(op: Op) | Advance(app: string, ok: bool)

  /** An update of the Ingress needs the version it read. */
  predicate Allowed(w: World, job: Job, ok: bool) {
    ok && (job.code.Do? && job.code.call.PutIngress? ==> job.read == w.version)
  }

  function StepOf(parse: Parser, w: World, job: Job, ok: bool): Stepped
    requires job.code.Do?
  {
    Step(parse, w.cluster, job.code.call, job.code.rest, Allowed(w, job, ok))
  }

  function VersionAfter(w: World, c: Cluster): nat {
    if c.ingress == w.cluster.ingress then w.version else w.version + 1
  }

  function Next(parse: Parser, w: World, a: Move): World {
    match a
    case Begin(op) =>
      if ValidApp(Name(op)) && (Name(op) in w.jobs ==> w.jobs[Name(op)].code.Halt?)
      then w.(jobs := w.jobs[Name(op) := Job(CodeOf(op), 0)]) else w
    case Advance(app, ok) =>
      if app !in w.jobs || w.jobs[app].code.Halt? then w
      else
        var job := w.jobs[app];
        var s := StepOf(parse, w, job, ok);
        var read := if job.code.call.ListIngresses? || job.code.call.FetchIngress? then w.version else job.read;
        World(s.cluster, w.jobs[app := Job(s.code, read)], VersionAfter(w, s.cluster))
  }

  function Start(foreign: S.Services): World {
    World(Cluster(map[], foreign, None), map[], 0)
  }

  function After(parse: Parser, foreign: S.Services, run: seq<Move>): World {
    if run == [] then Start(foreign) else Next(parse, After(parse, foreign, run[..|run| - 1]), run[|run| - 1])
  }

  // ----- the invariant -----

  predicate Naming(rules: multiset<Rule>, s: string) {
    forall r | r in rules :: r.service == s
  }

  /** Every rule names an app service that exists. */
  predicate Backed(services: S.Services, ingress: Option<Backends>) {
    ingress.Some? ==> forall s | s in ingress.value :: s in services && IsAppService(s) && Naming(ingress.value[s], s)
  }

  predicate StoredByName(services: S.Services) {
    forall s | s in services :: services[s].name == s
  }

  /** The last part of `Stop`, or nothing left. */
  predicate Tail(app: string, code: Code) {
    code == Halt(Ok) || code == Do(FetchDoomed(app), Halt(Ok))
  }

  /** The rest of `Desire` and `Update` from the ingress step on. */
  predicate Ending(app: string, code: Code) {
    code.Do? && code.call.ListIngresses? && code.call.lrp.name == app && code.rest == Halt(Ok)
  }

  /** Apart from the app's own rules, `m` is what is stored. */
  ghost predicate OnlyOwnEdited(app: string, m: Backends, ingress: Option<Backends>) {
    && ingress.Some?
    && forall s | s != ServiceName(app) ::
         (s in m <==> s in ingress.value) && (s in m ==> m[s] == ingress.value[s])
  }

  predicate OwnRulesBacked(app: string, m: Backends, services: S.Services) {
    ServiceName(app) in m ==> ServiceName(app) in services && Naming(m[ServiceName(app)], ServiceName(app))
  }

  /** What the code of an operation on `app` may rely on, whatever the others do meanwhile. */
  ghost predicate Ready(c: Cluster, version: nat, app: string, job: Job) {
    var s := ServiceName(app);
    && job.read <= version
    && (job.code.Do? ==>
          var rest := job.code.rest;
          match job.code.call
          case CheckExists(lrp) => lrp.name == app && rest == Halt(Ok)
          case CreateInstance(lrp) => lrp.name == app && job.code == Create(lrp, Halt(Ok))
          case CreateHeadless(lrp) =>
            lrp.name == app && rest == Do(CreateService(lrp), Do(ListIngresses(lrp), Halt(Ok)))
          case CreateService(lrp) => lrp.name == app && Ending(app, rest)
          case FetchInstance(lrp) => lrp.name == app && job.code == CodeOf(Update(lrp))
          case StoreInstance(_) =>
            rest.Do? && rest.call.FetchService? && rest.call.lrp.name == app && Ending(app, rest.rest)
          case FetchService(lrp) => lrp.name == app && Ending(app, rest)
          case StoreService(service) => service.name == s && rest.Do? && rest.call.Send? && Ending(app, rest.rest)
          case Send(_) =>
            || (Ending(app, rest) && s in c.services)
            || (rest == Do(DeleteService(app), Halt(Ok)) && S.NoRules(c.ingress, s))
          case ListIngresses(_) => Ending(app, job.code) && s in c.services
          case FetchIngress(name) => name == app && Tail(app, rest)
          case PutIngress(m) =>
            && Tail(app, rest) && (rest.Do? ==> s !in m) && OwnRulesBacked(app, m, c.services)
            && (job.read == version ==> OnlyOwnEdited(app, m, c.ingress))
          case PostIngress(m) => rest == Halt(Ok) && m.Keys <= {s} && OwnRulesBacked(app, m, c.services)
          case RemoveIngress => Tail(app, rest)
          case DeleteInstance(name) => name == app && job.code == CodeOf(Stop(app))
          case DeleteHeadless(name) => name == app && rest == Do(FetchIngress(app), Do(FetchDoomed(app), Halt(Ok)))
          case FetchDoomed(name) => name == app && rest == Halt(Ok) && S.NoRules(c.ingress, s)
          case DeleteService(name) => name == app && rest == Halt(Ok) && S.NoRules(c.ingress, s))
  }

  ghost predicate Good(w: World) {
    && Backed(w.cluster.services, w.cluster.ingress) && StoredByName(w.cluster.services)
    && forall app | app in w.jobs :: ValidApp(app) && Ready(w.cluster, w.version, app, w.jobs[app])
  }

  // ----- every step keeps it -----

  lemma InstanceStep(c: Cluster, version: nat, app: string, job: Job)
    requires job.code.Do? && InstanceCall(job.code.call) && Ready(c, version, app, job)
    ensures var s := StepInstances(c, job.code.call, job.code.rest);
      s.cluster == c.(statefulSets := s.cluster.statefulSets) && Ready(s.cluster, version, app, Job(s.code, job.read))
  {
    hide Selects, ToStatefulSet, Scaled, OnlyOwnEdited, OwnRulesBacked;
  }

  /** Only the app's own two services come and go, and never under a rule. */
  lemma ServicesWritten(c: Cluster, version: nat, app: string, job: Job)
    requires job.code.Do? && ServiceCall(job.code.call) && Ready(c, version, app, job) && ValidApp(app)
    requires Backed(c.services, c.ingress) && StoredByName(c.services)
    ensures var s := StepServices(c, job.code.call, job.code.rest);
      && s.cluster == c.(services := s.cluster.services)
      && Backed(s.cluster.services, c.ingress) && StoredByName(s.cluster.services)
      && (forall t | t != ServiceName(app) && t != HeadlessName(app) :: t in c.services ==> t in s.cluster.services)
  {
    hide ValidApp, IsAppService, Lookup, Unregistered, OnlyOwnEdited, OwnRulesBacked, Naming, Ending;
    HeadlessNameIsSkipped(app);
  }

  lemma ServiceStepReady(c: Cluster, version: nat, app: string, job: Job)
    requires job.code.Do? && ServiceCall(job.code.call) && Ready(c, version, app, job) && StoredByName(c.services)
    ensures var s := StepServices(c, job.code.call, job.code.rest);
      Ready(s.cluster, version, app, Job(s.code, job.read))
  {
    hide Lookup, Unregistered, OnlyOwnEdited, OwnRulesBacked;
  }

  lemma ServiceStep(c: Cluster, version: nat, app: string, job: Job)
    requires job.code.Do? && ServiceCall(job.code.call) && Ready(c, version, app, job) && ValidApp(app)
    requires Backed(c.services, c.ingress) && StoredByName(c.services)
    ensures var s := StepServices(c, job.code.call, job.code.rest);
      && s.cluster == c.(services := s.cluster.services)
      && Backed(s.cluster.services, c.ingress) && StoredByName(s.cluster.services)
      && (forall t | t != ServiceName(app) && t != HeadlessName(app) :: t in c.services ==> t in s.cluster.services)
      && Ready(s.cluster, version, app, Job(s.code, job.read))
  {
    hide StepServices, Ready, Backed, StoredByName, ValidApp;
    ServicesWritten(c, version, app, job);
    ServiceStepReady(c, version, app, job);
  }

  lemma RulesNameTheirService(parse: Parser, lrp: LRP)
    ensures Uris(lrp).UriList? && AllParse(parse, Uris(lrp).uris) ==>
      Naming(multiset(Rules(parse, lrp.name, Uris(lrp).uris)), ServiceName(lrp.name))
  {
  }

  /** Reading the Ingress prepares an edit of the app's own rules. */
  lemma IngressRead(parse: Parser, c: Cluster, version: nat, app: string, job: Job, allowed: bool)
    requires job.code.Do? && (job.code.call.ListIngresses? || job.code.call.FetchIngress?)
    requires Ready(c, version, app, job)
    ensures var s := Step(parse, c, job.code.call, job.code.rest, allowed);
      s.cluster == c && Ready(c, version, app, Job(s.code, version))
  {
    hide Lookup, Rules, AllParse, Naming, StepInstances, StepServices, CodeOf, Create;
    if job.code.call.ListIngresses? {
      RulesNameTheirService(parse, job.code.call.lrp);
    }
  }

  /** Writing it changes the app's own rules only, or removes them all. */
  lemma IngressWritten(parse: Parser, c: Cluster, version: nat, app: string, job: Job, allowed: bool)
    requires job.code.Do? && (job.code.call.PutIngress? || job.code.call.PostIngress? || job.code.call.RemoveIngress?)
    requires Ready(c, version, app, job) && ValidApp(app) && Backed(c.services, c.ingress)
    requires allowed && job.code.call.PutIngress? ==> job.read == version
    ensures var s := Step(parse, c, job.code.call, job.code.rest, allowed);
      && s.cluster == c.(ingress := s.cluster.ingress) && Backed(c.services, s.cluster.ingress)
      && (forall t | t != ServiceName(app) :: S.NoRules(c.ingress, t) ==> S.NoRules(s.cluster.ingress, t))
      && Ready(s.cluster, if s.cluster.ingress == c.ingress then version else version + 1, app, Job(s.code, job.read))
  {
    hide ValidApp, IsAppService, Naming, StepInstances, StepServices, CodeOf, Create;
    ServiceNameIsListed(app);
  }

  lemma IngressStep(parse: Parser, c: Cluster, version: nat, app: string, job: Job, allowed: bool)
    requires job.code.Do? && IngressCall(job.code.call) && Ready(c, version, app, job) && ValidApp(app)
    requires Backed(c.services, c.ingress)
    requires allowed && job.code.call.PutIngress? ==> job.read == version
    ensures var s := Step(parse, c, job.code.call, job.code.rest, allowed);
      var fetched := job.code.call.ListIngresses? || job.code.call.FetchIngress?;
      var version' := if s.cluster.ingress == c.ingress then version else version + 1;
      && s.cluster == c.(ingress := s.cluster.ingress) && Backed(c.services, s.cluster.ingress)
      && (forall t | t != ServiceName(app) :: S.NoRules(c.ingress, t) ==> S.NoRules(s.cluster.ingress, t))
      && Ready(s.cluster, version', app, Job(s.code, if fetched then version else job.read))
  {
    hide Step, Ready, Backed, S.NoRules, ValidApp;
    if job.code.call.ListIngresses? || job.code.call.FetchIngress? {
      IngressRead(parse, c, version, app, job, allowed);
    } else {
      IngressWritten(parse, c, version, app, job, allowed);
    }
  }

  /** What one operation does leaves what the others rely on. */
  lemma OthersReady(c: Cluster, version: nat, app: string, c': Cluster, version': nat, other: string, job: Job)
    requires Ready(c, version, other, job) && ValidApp(app) && ValidApp(other) && other != app
    requires version' == if c'.ingress == c.ingress then version else version + 1
    requires forall t | t != ServiceName(app) && t != HeadlessName(app) :: t in c.services ==> t in c'.services
    requires forall t | t != ServiceName(app) :: S.NoRules(c.ingress, t) ==> S.NoRules(c'.ingress, t)
    ensures Ready(c', version', other, job)
  {
    hide ValidApp, IsAppService, Naming;
    ServiceNameIsListed(other);
    HeadlessNameIsSkipped(app);
    assert ServiceName(other)[3..] == other && ServiceName(app)[3..] == app;
  }

  lemma AdvanceKeeps(parse: Parser, w: World, app: string, ok: bool)
    requires Good(w)
    ensures Good(Next(parse, w, Advance(app, ok)))
  {
    hide Backed, StoredByName, Ready, S.NoRules, Step, ValidApp;
    if app in w.jobs && w.jobs[app].code.Do? {
      var job := w.jobs[app];
      var w' := Next(parse, w, Advance(app, ok));
      OwnStep(parse, w, app, ok);
      forall other | other in w'.jobs && other != app ensures Ready(w'.cluster, w'.version, other, w'.jobs[other]) {
        OthersReady(w.cluster, w.version, app, w'.cluster, w'.version, other, w.jobs[other]);
      }
    }
  }

  lemma OwnStep(parse: Parser, w: World, app: string, ok: bool)
    requires Good(w) && app in w.jobs && w.jobs[app].code.Do?
    ensures var w' := Next(parse, w, Advance(app, ok));
      && Backed(w'.cluster.services, w'.cluster.ingress) && StoredByName(w'.cluster.services)
      && Ready(w'.cluster, w'.version, app, w'.jobs[app])
      && w'.version == (if w'.cluster.ingress == w.cluster.ingress then w.version else w.version + 1)
      && (forall t | t != ServiceName(app) && t != HeadlessName(app) ::
            t in w.cluster.services ==> t in w'.cluster.services)
      && (forall t | t != ServiceName(app) :: S.NoRules(w.cluster.ingress, t) ==> S.NoRules(w'.cluster.ingress, t))
  {
    hide Backed, StoredByName, S.NoRules, StepInstances, StepServices, StepIngress, ValidApp, OnlyOwnEdited,
         OwnRulesBacked;
    var job := w.jobs[app];
    if InstanceCall(job.code.call) {
      InstanceStep(w.cluster, w.version, app, job);
    } else if IngressCall(job.code.call) {
      IngressStep(parse, w.cluster, w.version, app, job, Allowed(w, job, ok));
    } else if ServiceCall(job.code.call) {
      ServiceStep(w.cluster, w.version, app, job);
    }
  }

  lemma BeginKeeps(parse: Parser, w: World, op: Op)
    requires Good(w)
    ensures Good(Next(parse, w, Begin(op)))
  {
    hide Backed, StoredByName, ValidApp, OnlyOwnEdited, OwnRulesBacked;
  }

  lemma {:induction false} RunIsGood(parse: Parser, foreign: S.Services, run: seq<Move>)
    requires R.Foreign(foreign)
    ensures Good(After(parse, foreign, run))
  {
    hide Next, Good;
    if run == [] {
      StartIsGood(foreign);
    } else {
      RunIsGood(parse, foreign, run[..|run| - 1]);
      var w := After(parse, foreign, run[..|run| - 1]);
      match run[|run| - 1]
      case Begin(op) => BeginKeeps(parse, w, op);
      case Advance(app, ok) => AdvanceKeeps(parse, w, app, ok);
    }
  }

  lemma StartIsGood(foreign: S.Services)
    requires R.Foreign(foreign)
    ensures Good(Start(foreign))
  {
  }

  // ----- the theorems -----

  /** No dangling backend, however the operations on different apps interleave and whichever requests fail. */
  lemma NoDanglingBackend(parse: Parser, foreign: S.Services, run: seq<Move>, s: string, rule: Rule)
    requires R.Foreign(foreign) && rule in RulesOf(After(parse, foreign, run).cluster.ingress, s)
    ensures rule.service == s && s in After(parse, foreign, run).cluster.services && IsAppService(s)
  {
    hide After, Ready, IsAppService;
    RunIsGood(parse, foreign, run);
  }

  /** The operation deletes the whole Ingress. */
  predicate RemovesIngress(w: World, a: Move) {
    && a.Advance? && a.ok && a.app in w.jobs && w.jobs[a.app].code.Do? && w.jobs[a.app].code.call.RemoveIngress?
    && w.cluster.ingress.Some?
  }

  /**
   Updates of the Ingress are safe and its deletion is not: in every run, a move of one app changes the rules
   of another app's service exactly when it deletes an Ingress that holds some.
   */
  lemma OthersRulesLostExactly(parse: Parser, foreign: S.Services, run: seq<Move>, a: Move, s: string)
    requires R.Foreign(foreign) && (a.Advance? ==> s != ServiceName(a.app))
    ensures var w, w' := After(parse, foreign, run), After(parse, foreign, run + [a]);
      RulesOf(w'.cluster.ingress, s) != RulesOf(w.cluster.ingress, s) <==>
        RemovesIngress(w, a) && RulesOf(w.cluster.ingress, s) != multiset{}
  {
    hide After, Next;
    assert (run + [a])[..|run|] == run;
    RunIsGood(parse, foreign, run);
    LastMove(parse, foreign, run, a);
    OneMove(parse, After(parse, foreign, run), a, s);
  }

  lemma LastMove(parse: Parser, foreign: S.Services, run: seq<Move>, a: Move)
    ensures After(parse, foreign, run + [a]) == Next(parse, After(parse, foreign, run), a)
  {
    hide Next;
    assert (run + [a])[..|run|] == run;
  }

  lemma OneMove(parse: Parser, w: World, a: Move, s: string)
    requires Good(w) && (a.Advance? ==> s != ServiceName(a.app))
    ensures RulesOf(Next(parse, w, a).cluster.ingress, s) != RulesOf(w.cluster.ingress, s) <==>
      RemovesIngress(w, a) && RulesOf(w.cluster.ingress, s) != multiset{}
  {
    hide Backed, StoredByName, StepInstances, StepServices, ValidApp, OwnRulesBacked, Lookup, Rules, AllParse;
    if a.Advance? && a.app in w.jobs && w.jobs[a.app].code.Do? {
      var job := w.jobs[a.app];
      assert Ready(w.cluster, w.version, a.app, job);
      if InstanceCall(job.code.call) {
        InstanceStep(w.cluster, w.version, a.app, job);
      } else if ServiceCall(job.code.call) {
        ServiceStep(w.cluster, w.version, a.app, job);
      }
    }
  }

  // ----- a run in which rules are lost -----

  predicate Healthy(a: Move) {
    a.Advance? ==> a.ok
  }

  /** Some run from the empty cluster, in which every request succeeds, ends in `w`. */
  ghost predicate Reached(parse: Parser, w: World) {
    exists run :: After(parse, map[], run) == w && forall a | a in run :: Healthy(a)
  }

  lemma ReachedNext(parse: Parser, w: World, a: Move)
    requires Reached(parse, w) && Healthy(a)
    ensures Reached(parse, Next(parse, w, a))
  {
    hide After, Next;
    var run :| After(parse, map[], run) == w && forall a | a in run :: Healthy(a);
    LastMove(parse, map[], run, a);
    assert forall b | b in run + [a] :: b in run || b == a;
  }

  predicate NoPut(code: Code) {
    code.Do? ==> !code.call.PutIngress? && NoPut(code.rest)
  }

  /** An update of the Ingress comes first or not at all, and then with the current version. */
  predicate PutsFirst(job: Job, version: nat) {
    job.code.Do? ==> NoPut(job.code.rest) && (job.code.call.PutIngress? ==> job.read == version)
  }

  lemma StepPutsFirst(parse: Parser, c: Cluster, call: Call, rest: Code)
    requires NoPut(rest)
    ensures var s := Step(parse, c, call, rest, true);
      && (s.code.Do? ==> NoPut(s.code.rest))
      && (s.code.Do? && s.code.call.PutIngress? ==>
            s.cluster.ingress == c.ingress && (call.ListIngresses? || call.FetchIngress?))
  {
    hide Lookup, Selects, Rules, AllParse, Unregistered, Scaled, ToStatefulSet, ToService, ToHeadlessService;
    if call.CheckExists? {
      assert NoPut(Do(CreateService(call.lrp), Do(ListIngresses(call.lrp), rest)));
    }
  }

  predicate OthersKept(w: World, w': World, app: string) {
    forall other | other in w.jobs && other != app :: other in w'.jobs && w'.jobs[other] == w.jobs[other]
  }

  /** An operation that the others leave alone for a while runs to its end as if it were alone. */
  lemma {:induction false} Undisturbed(parse: Parser, w: World, app: string, n: nat) returns (w': World)
    requires Reached(parse, w) && app in w.jobs && PutsFirst(w.jobs[app], w.version)
    ensures var f := Finish(Env(parse, _ => true), w.cluster, w.jobs[app].code, n);
      && Reached(parse, w') && w'.cluster == f.cluster && w'.jobs.Keys == w.jobs.Keys
      && w'.jobs[app].code == Halt(f.outcome) && OthersKept(w, w', app)
    decreases Rank(w.jobs[app].code)
  {
    hide Reached, Step, Rank, NoPut;
    var job := w.jobs[app];
    if job.code.Halt? {
      w' := w;
    } else {
      var s := Step(parse, w.cluster, job.code.call, job.code.rest, true);
      ReachedNext(parse, w, Advance(app, true));
      StepTerminates(parse, w.cluster, job.code.call, job.code.rest, true);
      StepPutsFirst(parse, w.cluster, job.code.call, job.code.rest);
      w' := Undisturbed(parse, Next(parse, w, Advance(app, true)), app, n + s.requests);
    }
  }

  lemma CodePutsFirst(op: Op, version: nat)
    ensures PutsFirst(Job(CodeOf(op), 0), version)
  {
    match op {
      case Desire(lrp) =>
      case Update(lrp) => assert NoPut(Do(ListIngresses(lrp), Halt(Ok)));
      case Stop(app) =>
        assert NoPut(Do(FetchDoomed(app), Halt(Ok)));
        assert NoPut(Do(FetchIngress(app), Do(FetchDoomed(app), Halt(Ok))));
    }
  }

  /** Begin an operation and run it to its end. */
  lemma Whole(parse: Parser, w: World, op: Op) returns (w': World)
    requires Reached(parse, w) && ValidApp(Name(op)) && Name(op) !in w.jobs
    ensures var f := Finish(Env(parse, _ => true), w.cluster, CodeOf(op), 0);
      && Reached(parse, w') && w'.cluster == f.cluster && w'.jobs.Keys == w.jobs.Keys + {Name(op)}
      && w'.jobs[Name(op)].code == Halt(f.outcome) && OthersKept(w, w', Name(op))
  {
    hide Reached, ValidApp, CodeOf, Finish;
    ReachedNext(parse, w, Begin(op));
    CodePutsFirst(op, w.version);
    w' := Undisturbed(parse, Next(parse, w, Begin(op)), Name(op), 0);
  }

  /** An answered request other than an update of the Ingress. */
  lemma Answered(parse: Parser, w: World, app: string, s: Stepped) returns (w': World)
    requires Reached(parse, w) && app in w.jobs && w.jobs[app].code.Do? && !w.jobs[app].code.call.PutIngress?
    requires s == Step(parse, w.cluster, w.jobs[app].code.call, w.jobs[app].code.rest, true)
    ensures Reached(parse, w') && w'.jobs.Keys == w.jobs.Keys
    ensures w'.cluster == s.cluster && w'.jobs[app].code == s.code && OthersKept(w, w', app)
  {
    hide Reached, Step;
    ReachedNext(parse, w, Advance(app, true));
    w' := Next(parse, w, Advance(app, true));
  }

  /** `Stop` of the only app with rules, up to its decision to delete the Ingress. */
  lemma StopDecides(parse: Parser, w: World, app: string) returns (w': World)
    requires Reached(parse, w) && ValidApp(app) && app in w.jobs && w.jobs[app].code.Halt?
    requires app in w.cluster.statefulSets && HeadlessName(app) in w.cluster.services
    requires w.cluster.ingress.Some? && w.cluster.ingress.value.Keys == {ServiceName(app)}
    ensures Reached(parse, w') && w'.jobs.Keys == w.jobs.Keys
    ensures w'.jobs[app].code == Do(RemoveIngress, Do(FetchDoomed(app), Halt(Ok)))
    ensures w'.cluster == w.cluster.(statefulSets := w.cluster.statefulSets - {app},
                                     services := w.cluster.services - {HeadlessName(app)})
  {
    hide Reached, ValidApp, StepInstances, StepServices, StepIngress;
    ReachedNext(parse, w, Begin(Op.Stop(app)));
    var w1 := Next(parse, w, Begin(Op.Stop(app)));
    var code := CodeOf(Op.Stop(app));
    var c2 := w.cluster.(statefulSets := w.cluster.statefulSets - {app});
    var c3 := c2.(services := c2.services - {HeadlessName(app)});
    InstanceDeleted(w.cluster, app, code.rest);
    var w2 := Answered(parse, w1, app, Go(c2, code.rest));
    HeadlessDeleted(c2, app, code.rest.rest);
    var w3 := Answered(parse, w2, app, Go(c3, code.rest.rest));
    LastRulesFound(parse, c3, app, code.rest.rest.rest);
    w' := Answered(parse, w3, app, Go(c3, Do(RemoveIngress, code.rest.rest.rest)));
  }

  lemma InstanceDeleted(c: Cluster, app: string, rest: Code)
    requires app in c.statefulSets
    ensures StepInstances(c, Call.DeleteInstance(app), rest) == Go(c.(statefulSets := c.statefulSets - {app}), rest)
  {
  }

  lemma HeadlessDeleted(c: Cluster, app: string, rest: Code)
    requires HeadlessName(app) in c.services
    ensures StepServices(c, Call.DeleteHeadless(app), rest) ==
      Go(c.(services := c.services - {HeadlessName(app)}), rest)
  {
  }

  lemma LastRulesFound(parse: Parser, c: Cluster, app: string, rest: Code)
    requires c.ingress.Some? && c.ingress.value.Keys == {ServiceName(app)}
    ensures StepIngress(parse, c, Call.FetchIngress(app), rest) == Go(c, Do(RemoveIngress, rest))
  {
    assert c.ingress.value - {ServiceName(app)} == map[];
  }

  /** Deployed with at least one route, and without any rule. */
  predicate LostRules(w: World, app: string) {
    && app in w.jobs && w.jobs[app].code == Halt(Ok) && app in w.cluster.statefulSets && w.cluster.ingress.None?
    && Announced(w.cluster.services, ServiceName(app)).Some?
    && Announced(w.cluster.services, ServiceName(app)).value != []
  }

  lemma Announces(parse: Parser, c: Cluster, lrp: LRP)
    requires E.Deployable(parse, c, lrp)
    ensures Announced(E.Deploy(parse, c, lrp).services, ServiceName(lrp.name)) == Some(Uris(lrp).uris)
  {
    E.LookupOne(Uris(lrp));
  }

  /** An LRP with routes, all of which parse. */
  predicate Routed(parse: Parser, lrp: LRP) {
    ValidApp(lrp.name) && Uris(lrp).UriList? && Uris(lrp).uris != [] && AllParse(parse, Uris(lrp).uris)
  }

  /** The first app is deployed, alone. */
  lemma FirstDeployed(parse: Parser, lrp: LRP) returns (w: World)
    requires Routed(parse, lrp)
    ensures Reached(parse, w) && w.jobs.Keys == {lrp.name} && w.jobs[lrp.name].code.Halt?
    ensures lrp.name in w.cluster.statefulSets && w.cluster.statefulSets.Keys == {lrp.name}
    ensures w.cluster.services.Keys == {HeadlessName(lrp.name), ServiceName(lrp.name)}
    ensures w.cluster.ingress.Some? && w.cluster.ingress.value.Keys == {ServiceName(lrp.name)}
  {
    hide Finish, CodeOf, Reached, ValidApp, Rules, AllParse, Lookup, ToStatefulSet, ToService, ToHeadlessService;
    assert Reached(parse, Start(map[])) by { StartReached(parse); }
    w := Whole(parse, Start(map[]), Op.Desire(lrp));
    E.DesireOk(Env(parse, _ => true), Start(map[]).cluster, lrp, 0);
    E.RulesEmptyExactly(parse, lrp.name, Uris(lrp).uris);
  }

  lemma StartReached(parse: Parser)
    ensures Reached(parse, Start(map[]))
  {
    assert After(parse, map[], []) == Start(map[]);
  }

  /** The second app is deployed beside whatever there is. */
  lemma SecondDeployed(parse: Parser, w: World, lrp: LRP) returns (w': World)
    requires Reached(parse, w) && Routed(parse, lrp) && lrp.name !in w.jobs && w.cluster.statefulSets == map[]
    requires HeadlessName(lrp.name) !in w.cluster.services && ServiceName(lrp.name) !in w.cluster.services
    ensures Reached(parse, w') && w'.jobs.Keys == w.jobs.Keys + {lrp.name} && w'.jobs[lrp.name].code == Halt(Ok)
    ensures OthersKept(w, w', lrp.name)
    ensures lrp.name in w'.cluster.statefulSets && w'.cluster.ingress.Some?
    ensures Announced(w'.cluster.services, ServiceName(lrp.name)) == Some(Uris(lrp).uris)
  {
    hide Finish, CodeOf, Reached, ValidApp, Rules, AllParse, Lookup, ToStatefulSet, ToService, ToHeadlessService,
         Announced;
    w' := Whole(parse, w, Op.Desire(lrp));
    E.DesireOk(Env(parse, _ => true), w.cluster, lrp, 0);
    E.RulesEmptyExactly(parse, lrp.name, Uris(lrp).uris);
    Announces(parse, w.cluster, lrp);
  }

  /** The pending deletion of the Ingress happens. */
  lemma IngressRemoved(parse: Parser, w: World, app: string)
    requires Reached(parse, w) && app in w.jobs && w.jobs[app].code.Do? && w.jobs[app].code.call.RemoveIngress?
    requires w.cluster.ingress.Some?
    ensures var w' := Next(parse, w, Advance(app, true));
      && Reached(parse, w') && w'.cluster == w.cluster.(ingress := None)
      && w'.jobs.Keys == w.jobs.Keys && OthersKept(w, w', app)
  {
    hide Reached, StepInstances, StepServices;
    ReachedNext(parse, w, Advance(app, true));
  }

  /**
   Rules can be lost between two apps, with every request succeeding: `Stop` of the first decides to delete
   the Ingress, a `Desire` of the second puts its rules there and returns nil, and the deletion takes them along.
   */
  lemma StopCanTakeOthersRules(parse: Parser, first: LRP, second: LRP)
    requires Routed(parse, first) && Routed(parse, second) && first.name != second.name
    ensures exists w :: Reached(parse, w) && LostRules(w, second.name)
  {
    hide Reached, ValidApp, AllParse, Next, Announced;
    var w1 := FirstDeployed(parse, first);
    D.NamesDiffer(first.name, second.name);
    D.NamesDiffer(second.name, first.name);
    var w2 := StopDecides(parse, w1, first.name);
    var w3 := SecondDeployed(parse, w2, second);
    IngressRemoved(parse, w3, first.name);
    assert LostRules(Next(parse, w3, Advance(first.name, true)), second.name);
  }
}
