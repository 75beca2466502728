/** The safety theorems, stated over every run from a cluster that holds only foreign services. */
module Reachable {
  import opened Names
  import opened Wrappers
  import opened Model
  import opened Protocol
  import opened Router
  import opened Runs
  import opened Safety

  ghost predicate GoodWorld(parse: Parser, h: History, w: World) {
    && GoodCluster(parse, h, w.cluster) && Ready(parse, h, w.cluster, w.code)
    && AllJustified(h, w.log) && AllJustified(h, w.outbox) && AllJustified(h, Flatten(w.queue))
    && (w.tick.Some? ==> AllJustified(h, Messages(w.tick.value)) && OnlyRegisters(Messages(w.tick.value)))
  }

  ghost predicate OnlyRegisters(ms: seq<Message>) {
    forall m | m in ms :: m.Register?
  }

  lemma FlattenAppend(p: seq<Batch>, q: seq<Batch>)
    ensures Flatten(p + q) == Flatten(p) + Flatten(q)
  {
    if p == [] {
      assert p + q == q;
    } else {
      assert (p + q)[1..] == p[1..] + q;
      FlattenAppend(p[1..], q);
    }
  }

  /** A listing carries the current annotations of app services and nothing else. */
  lemma {:induction false} ListingIsHeld(services: Services, order: seq<string>)
    requires forall k | k in order :: k in services
    ensures var b := ListRoutes(services, order);
            b.Some? ==> forall m | m in Messages(b.value) ::
              m.Register? && m.app in order && IsAppService(m.app) && (m.app, m.uris) in Held(services)
  {
    hide IsAppService;
    if order != [] {
      ListingIsHeld(services, order[1..]);
    }
  }

  /** Everything known so far stays known, whatever the action. */
  lemma NextKeeps(parse: Parser, h: History, h': History, w: World, a: Action)
    requires GoodWorld(parse, h, w) && Includes(h, h')
    requires var w' := Next(parse, w, a); Records(h', w.cluster.services, w'.cluster.services, w'.code)
    ensures GoodWorld(parse, h', Next(parse, w, a))
  {
    hide GoodCluster, Ready, Step, Justified, Held, Replaced, Doomed, ListRoutes;
    var w' := Next(parse, w, a);
    MessagesKept(h, h');
    if a.Advance? && w.code.Do? {
      var s := Step(parse, w.cluster, w.code.call, w.code.rest, a.ok);
      StepKeeps(parse, h, h', w.cluster, w.code.call, w.code.rest, a.ok);
      FlattenAppend(w.queue, s.sent);
    } else {
      ClusterKept(parse, h, h', w.cluster, w.code);
    }
    match a
    case Begin(op) => BeginReady(parse, h', w.cluster, op);
    case ListTick(ok, order) => ListingJustified(h', w.cluster.services, order);
    case SendTick =>
      if w.tick.Some? {
        FlattenAppend(w.queue, [w.tick.value]);
        assert Flatten([w.tick.value]) == Messages(w.tick.value) + Flatten([]);
      }
    case _ =>
  }

  lemma MessagesKept(h: History, h': History)
    requires Includes(h, h')
    ensures forall ms | AllJustified(h, ms) :: AllJustified(h', ms)
  {
  }

  lemma ListingJustified(h: History, services: Services, order: seq<string>)
    requires Held(services) <= h.held
    ensures (forall k | k in order :: k in services) ==>
            var b := ListRoutes(services, order);
            b.Some? ==> AllJustified(h, Messages(b.value)) && OnlyRegisters(Messages(b.value))
  {
    hide Held, ListRoutes, Messages;
    if forall k | k in order :: k in services {
      ListingIsHeld(services, order);
    }
  }

  /** A state that does not change stays good as more becomes known. */
  lemma ClusterKept(parse: Parser, h: History, h': History, c: Cluster, code: Code)
    requires GoodCluster(parse, h, c) && Ready(parse, h, c, code) && Includes(h, h')
    ensures GoodCluster(parse, h', c) && Ready(parse, h', c, code)
  {
    hide GoodIngress, GoodBackends, GoodInstances, GoodServices, Justified, Held, ValidApp, Tail, InStep;
    IngressKept(parse, h, h', c.services, c.services, c.ingress);
    if code.Do? && (code.call.PutIngress? || code.call.PostIngress?) {
      BackendsGrow(parse, h, h', c.services, c.services, code.call.backends);
    }
    if code.Do? && code.call.Send? {
      MessagesKept(h, h');
    }
  }

  lemma BeginReady(parse: Parser, h: History, c: Cluster, op: Op)
    ensures ValidApp(Name(op)) ==> Ready(parse, h, c, CodeOf(op))
  {
    hide ValidApp;
  }

  /** The induction over runs. */
  lemma {:induction false} RunIsGood(parse: Parser, foreign: Services, run: seq<Action>)
    requires Foreign(foreign)
    ensures GoodWorld(parse, Past(parse, foreign, run), After(parse, foreign, run))
  {
    hide Next, Held, Replaced, Doomed, Ready;
    if run == [] {
      StartIsGood(parse, foreign);
    } else {
      var before := run[..|run| - 1];
      RunIsGood(parse, foreign, before);
      NextKeeps(parse, Past(parse, foreign, before), Past(parse, foreign, run),
                After(parse, foreign, before), run[|run| - 1]);
    }
  }

  lemma StartIsGood(parse: Parser, foreign: Services)
    requires Foreign(foreign)
    ensures GoodWorld(parse, Past(parse, foreign, []), After(parse, foreign, []))
  {
    hide IsCFService, Held;
  }

  // ----- the theorems -----

  /** `s` announced `uris` in the state after the first `k` actions. */
  ghost predicate AnnouncedAt(parse: Parser, foreign: Services, run: seq<Action>, k: nat,
                              s: string, uris: seq<string>) {
    k <= |run| && Announced(After(parse, foreign, run[..k]).cluster.services, s) == Some(uris)
  }

  /** `k` actions into the run the annotation changed from `was` to `now` in one step. */
  ghost predicate ReplacedAt(parse: Parser, foreign: Services, run: seq<Action>, k: nat,
                             s: string, was: seq<string>, now: seq<string>) {
    k < |run| && AnnouncedAt(parse, foreign, run, k, s, was) && AnnouncedAt(parse, foreign, run, k + 1, s, now)
  }

  /** `k` actions into the run a `Stop` was about to unregister the routes of `s` and delete it. */
  ghost predicate DoomedAt(parse: Parser, foreign: Services, run: seq<Action>, k: nat, s: string, uris: seq<string>) {
    && AnnouncedAt(parse, foreign, run, k, s, uris)
    && var code := After(parse, foreign, run[..k]).code;
       code.Do? && code.call.Send? && code.rest.Do? && code.rest.call.DeleteService?
       && s == ServiceName(code.rest.call.app)
  }

  lemma {:induction false} HeldHappened(parse: Parser, foreign: Services, run: seq<Action>,
                                      s: string, uris: seq<string>)
    requires (s, uris) in Past(parse, foreign, run).held
    ensures exists k :: AnnouncedAt(parse, foreign, run, k, s, uris)
  {
    hide Next, After, Held, Replaced, Doomed, Announced;
    assert run[..|run|] == run;
    if run == [] {
      assert After(parse, foreign, run) == Start(foreign) by { AfterNothing(parse, foreign); }
      assert AnnouncedAt(parse, foreign, run, 0, s, uris);
    } else {
      var before := run[..|run| - 1];
      if (s, uris) in Past(parse, foreign, before).held {
        HeldHappened(parse, foreign, before, s, uris);
        var k: nat :| AnnouncedAt(parse, foreign, before, k, s, uris);
        assert before[..k] == run[..k];
        assert AnnouncedAt(parse, foreign, run, k, s, uris);
      } else {
        assert AnnouncedAt(parse, foreign, run, |run|, s, uris);
      }
    }
  }

  lemma {:induction false} ReplacedHappened(parse: Parser, foreign: Services, run: seq<Action>,
                                            s: string, was: seq<string>, now: seq<string>)
    requires (s, was, now) in Past(parse, foreign, run).replaced
    ensures exists k :: ReplacedAt(parse, foreign, run, k, s, was, now)
  {
    hide Next, After, Held, Replaced, Doomed, Announced;
    assert run[..|run|] == run;
    if run != [] {
      var n := |run| - 1;
      var before := run[..n];
      if (s, was, now) in Past(parse, foreign, before).replaced {
        ReplacedHappened(parse, foreign, before, s, was, now);
        var k: nat :| ReplacedAt(parse, foreign, before, k, s, was, now);
        assert before[..k] == run[..k] && before[..k + 1] == run[..k + 1];
        assert ReplacedAt(parse, foreign, run, k, s, was, now);
      } else {
        assert run[..n + 1] == run;
        assert ReplacedAt(parse, foreign, run, n, s, was, now);
      }
    }
  }

  lemma {:induction false} DoomedHappened(parse: Parser, foreign: Services, run: seq<Action>,
                                        s: string, uris: seq<string>)
    requires (s, uris) in Past(parse, foreign, run).doomed
    ensures exists k :: DoomedAt(parse, foreign, run, k, s, uris)
  {
    hide Next, After, Held, Replaced, Announced;
    assert run[..|run|] == run;
    if run != [] {
      var before := run[..|run| - 1];
      if (s, uris) in Past(parse, foreign, before).doomed {
        DoomedHappened(parse, foreign, before, s, uris);
        var k: nat :| DoomedAt(parse, foreign, before, k, s, uris);
        assert before[..k] == run[..k];
        assert DoomedAt(parse, foreign, run, k, s, uris);
      } else {
        assert DoomedAt(parse, foreign, run, |run|, s, uris);
      }
    }
  }

  lemma AfterNothing(parse: Parser, foreign: Services)
    ensures After(parse, foreign, []) == Start(foreign)
  {
  }

  /** The history of a run is what its states showed. */
  lemma HistoryHappened(parse: Parser, foreign: Services, run: seq<Action>)
    ensures var h := Past(parse, foreign, run);
      && (forall p | p in h.held :: exists k :: AnnouncedAt(parse, foreign, run, k, p.0, p.1))
      && (forall p | p in h.replaced :: exists k :: ReplacedAt(parse, foreign, run, k, p.0, p.1, p.2))
      && (forall p | p in h.doomed :: exists k :: DoomedAt(parse, foreign, run, k, p.0, p.1))
  {
    hide Past, AnnouncedAt, ReplacedAt, DoomedAt;
    var h := Past(parse, foreign, run);
    forall p | p in h.held ensures exists k :: AnnouncedAt(parse, foreign, run, k, p.0, p.1) {
      HeldHappened(parse, foreign, run, p.0, p.1);
    }
    forall p | p in h.replaced ensures exists k :: ReplacedAt(parse, foreign, run, k, p.0, p.1, p.2) {
      ReplacedHappened(parse, foreign, run, p.0, p.1, p.2);
    }
    forall p | p in h.doomed ensures exists k :: DoomedAt(parse, foreign, run, k, p.0, p.1) {
      DoomedHappened(parse, foreign, run, p.0, p.1);
    }
  }

  /** No dangling backend: every ingress rule of every reachable state names an existing app service. */
  lemma NoDanglingBackend(parse: Parser, foreign: Services, run: seq<Action>, s: string, rule: Rule)
    requires Foreign(foreign)
    requires var c := After(parse, foreign, run).cluster; rule in RulesOf(c.ingress, s)
    ensures var c := After(parse, foreign, run).cluster;
            rule.service == s && s in c.services && IsAppService(s)
  {
    hide IsAppService, After, Past;
    RunIsGood(parse, foreign, run);
    var w, h := After(parse, foreign, run), Past(parse, foreign, run);
    assert GoodBackend(parse, h.held, w.cluster.services, s, RulesOf(w.cluster.ingress, s));
    ListedNameHasApp(s);
    var uris :| (s, uris) in h.held && uris != [] && AllParse(parse, uris)
      && RulesOf(w.cluster.ingress, s) == multiset(Rules(parse, s[3..], uris));
    assert rule in Rules(parse, s[3..], uris);
  }

  /** The rules of an app are none, or those of one whole list its service announced at some moment. */
  lemma RulesAreOneSnapshot(parse: Parser, foreign: Services, run: seq<Action>, app: string)
    requires Foreign(foreign)
    ensures var rules := RulesOf(After(parse, foreign, run).cluster.ingress, ServiceName(app));
      || rules == multiset{}
      || exists k, uris :: AnnouncedAt(parse, foreign, run, k, ServiceName(app), uris)
           && AllParse(parse, uris) && rules == multiset(Rules(parse, app, uris))
  {
    hide IsAppService, After, Past;
    RunIsGood(parse, foreign, run);
    HistoryHappened(parse, foreign, run);
    var w, h, s := After(parse, foreign, run), Past(parse, foreign, run), ServiceName(app);
    if w.cluster.ingress.Some? && s in w.cluster.ingress.value {
      assert GoodBackend(parse, h.held, w.cluster.services, s, RulesOf(w.cluster.ingress, s));
      var uris :| (s, uris) in h.held && uris != [] && AllParse(parse, uris)
        && RulesOf(w.cluster.ingress, s) == multiset(Rules(parse, app, uris));
      var p := (s, uris);
      assert p in h.held;
      var k :| AnnouncedAt(parse, foreign, run, k, p.0, p.1);
    }
  }

  lemma BuiltRulesExist(parse: Parser, held: Lists, s: string, rules: multiset<Rule>)
    requires |s| >= 3 && Built(parse, held, s, rules)
    ensures rules != multiset{}
  {
    var uris :| (s, uris) in held && uris != [] && AllParse(parse, uris)
      && rules == multiset(Rules(parse, s[3..], uris));
    assert Rules(parse, s[3..], uris)[0] in rules;
  }

  /** The stored Ingress is never left without rules, nor with an app entry without rules. */
  lemma IngressNeverEmpty(parse: Parser, foreign: Services, run: seq<Action>)
    requires Foreign(foreign)
    ensures var ingress := After(parse, foreign, run).cluster.ingress;
            ingress.Some? ==> ingress.value != map[] && forall s | s in ingress.value :: ingress.value[s] != multiset{}
  {
    hide IsAppService, After, Past, Built;
    RunIsGood(parse, foreign, run);
    var ingress, h := After(parse, foreign, run).cluster.ingress, Past(parse, foreign, run);
    if ingress.Some? {
      forall s | s in ingress.value ensures ingress.value[s] != multiset{} {
        ListedNameHasApp(s);
        BuiltRulesExist(parse, h.held, s, ingress.value[s]);
      }
    }
  }

  /** What the route lister skips is foreign or a headless service of an app. */
  lemma OnlyHeadlessAndForeignAreSkipped(parse: Parser, foreign: Services, run: seq<Action>, s: string)
    requires Foreign(foreign) && s in After(parse, foreign, run).cluster.services && !IsAppService(s)
    ensures !IsCFService(s) || exists app :: ValidApp(app) && s == HeadlessName(app)
  {
    hide IsAppService, After, Past;
    RunIsGood(parse, foreign, run);
  }

  /** The label selector of `Exists` and the object name of `Get` agree in every reachable state. */
  lemma ExistsAgreesWithGet(parse: Parser, foreign: Services, run: seq<Action>, app: string)
    requires Foreign(foreign)
    ensures var c := After(parse, foreign, run).cluster; Selects(c.statefulSets, app) <==> app in c.statefulSets
  {
    hide After, Past, ValidApp;
    RunIsGood(parse, foreign, run);
    var c := After(parse, foreign, run).cluster;
    if app in c.statefulSets {
      assert Labelled(app, c.statefulSets[app]);
    }
  }

  /** Provenance: where every publish attempt comes from, however operations, ticks and publishing interleave. */
  lemma Provenance(parse: Parser, foreign: Services, run: seq<Action>, m: Message)
    requires Foreign(foreign) && m in After(parse, foreign, run).log
    ensures match m
      case Register(s, uris) => exists k :: AnnouncedAt(parse, foreign, run, k, s, uris)
      case Unregister(s, uris) =>
        || (exists k :: DoomedAt(parse, foreign, run, k, s, uris))
        || (exists k, was, now :: ReplacedAt(parse, foreign, run, k, s, was, now) && uris == Unregistered(was, now))
  {
    hide After, Past, GoodCluster, Ready, AnnouncedAt, ReplacedAt, DoomedAt;
    RunIsGood(parse, foreign, run);
    HistoryHappened(parse, foreign, run);
    var h := Past(parse, foreign, run);
    assert Justified(h, m);
    match m
    case Register(s, uris) =>
      var p := (s, uris);
      var k :| AnnouncedAt(parse, foreign, run, k, p.0, p.1);
    case Unregister(s, uris) =>
      if (s, uris) in h.doomed {
        var p := (s, uris);
        var k :| DoomedAt(parse, foreign, run, k, p.0, p.1);
      } else {
        var was, now :| (s, was, now) in h.replaced && uris == Unregistered(was, now);
        var p := (s, was, now);
        var k :| ReplacedAt(parse, foreign, run, k, p.0, p.1, p.2);
      }
  }

  /** The same for the manager classes: no sequence of operations, however each one ends, leaves a dangling backend. */
  lemma OperationsKeepBackends(env: Env, foreign: Services, ops: seq<Op>, s: string, rule: Rule)
    requires Foreign(foreign) && forall op | op in ops :: ValidApp(Name(op))
    requires rule in RulesOf(RunAll(env, Start(foreign).cluster, ops, 0).cluster.ingress, s)
    ensures rule.service == s && s in RunAll(env, Start(foreign).cluster, ops, 0).cluster.services
  {
    hide After, RunAll, ValidApp, IsAppService;
    OperationsAreARun(env, foreign, ops);
    var f := RunAll(env, Start(foreign).cluster, ops, 0);
    var run :| After(env.parse, foreign, run) ==
      Start(foreign).(cluster := f.cluster, code := Halt(f.outcome), queue := f.sent);
    NoDanglingBackend(env.parse, foreign, run, s, rule);
  }
}
