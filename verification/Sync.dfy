/**
 The router table against the service annotations: which steps keep the table inside the
 annotations, exactly, and what a full collector tick restores.
 */
module Sync {
  import opened Names
  import opened Wrappers
  import opened Model
  import opened Protocol
  import opened Router
  import opened Runs
  import opened Safety
  import opened Reachable

  /** Service `p.0` is an app service that announces route `p.1`. */
  predicate Announces(services: Services, p: (string, string)) {
    IsAppService(p.0) && Announced(services, p.0).Some? && p.1 in Announced(services, p.0).value
  }

  predicate Inside(table: Table, services: Services) {
    forall p | p in table :: Announces(services, p)
  }

  /** The batch the operation in progress is about to send. */
  function Unsent(code: Code): seq<Message> {
    if code.Do? && code.call.Send? then Messages(code.call.batch) else []
  }

  /** The router once everything received, queued or about to be sent is published. */
  function Settled(w: World): Table {
    ApplyAll(w.router, w.outbox + Flatten(w.queue) + Unsent(w.code))
  }

  predicate InSync(w: World) {
    Inside(Settled(w), w.cluster.services)
  }

  function Registrations(ms: seq<Message>): Table {
    if ms == [] then {} else (if ms[0].Register? then Pairs(ms[0].app, ms[0].uris) else {}) + Registrations(ms[1..])
  }

  /** What is left of `table` after the unregister messages of `ms`. */
  function Surviving(table: Table, ms: seq<Message>): Table
    decreases |ms|
  {
    if ms == [] then table
    else Surviving(if ms[0].Unregister? then table - Pairs(ms[0].app, ms[0].uris) else table, ms[1..])
  }

  // ----- laws of the table -----

  /** Extra endpoints only matter as far as no later message unregisters them. */
  lemma {:induction false} ApplyUnion(a: Table, b: Table, ms: seq<Message>)
    ensures ApplyAll(a + b, ms) == ApplyAll(a, ms) + Surviving(b, ms)
    decreases |ms|
  {
    if ms != [] {
      var b' := if ms[0].Unregister? then b - Pairs(ms[0].app, ms[0].uris) else b;
      assert Apply(a + b, ms[0]) == Apply(a, ms[0]) + b';
      ApplyUnion(Apply(a, ms[0]), b', ms[1..]);
    }
  }

  lemma {:induction false} ApplyRegisters(table: Table, ms: seq<Message>)
    requires OnlyRegisters(ms)
    ensures ApplyAll(table, ms) == table + Registrations(ms)
    decreases |ms|
  {
    if ms != [] {
      ApplyRegisters(Apply(table, ms[0]), ms[1..]);
    }
  }

  lemma ApplyMonotone(small: Table, large: Table, ms: seq<Message>)
    requires small <= large
    ensures ApplyAll(small, ms) <= ApplyAll(large, ms)
  {
    assert small + large == large;
    ApplyUnion(small, large, ms);
    ApplyUnion(large, small, ms);
    assert large + small == large;
  }

  /** `getUnregisteredRoutes` and `emit` compute the right delta, in either publish order. */
  lemma DeltaIsExact(s: string, was: seq<string>, now: seq<string>)
    ensures Pairs(s, now) !! Pairs(s, Unregistered(was, now))
    ensures ApplyAll(Pairs(s, was), MessagesOf(Routes(s, now, Unregistered(was, now)))) == Pairs(s, now)
    ensures Apply(Apply(Pairs(s, was), Unregister(s, Unregistered(was, now))), Register(s, now)) == Pairs(s, now)
  {
    EntryApplies(Pairs(s, was), Routes(s, now, Unregistered(was, now)));
  }

  lemma EntryApplies(table: Table, r: Routes)
    ensures ApplyAll(table, MessagesOf(r)) == (table + Pairs(r.name, r.routes)) - Pairs(r.name, r.unregistered)
    ensures Messages([r]) == MessagesOf(r)
    ensures Surviving(table, MessagesOf(r)) == table - Pairs(r.name, r.unregistered)
  {
    assert Messages([r]) == MessagesOf(r) + Messages([]);
    var registers := if r.routes != [] then [Register(r.name, r.routes)] else [];
    var unregisters := if r.unregistered != [] then [Unregister(r.name, r.unregistered)] else [];
    hide ApplyAll, Surviving, Apply;
    ApplyAppend(table, registers, unregisters);
    SurvivingAppend(table, registers, unregisters);
    AtMostOne(table, r.name, r.routes, r.unregistered);
    AtMostOne(table + Pairs(r.name, r.routes), r.name, r.routes, r.unregistered);
  }

  lemma AtMostOne(table: Table, s: string, uris: seq<string>, gone: seq<string>)
    ensures var registers := if uris != [] then [Register(s, uris)] else [];
      ApplyAll(table, registers) == table + Pairs(s, uris) && Surviving(table, registers) == table
    ensures var unregisters := if gone != [] then [Unregister(s, gone)] else [];
      ApplyAll(table, unregisters) == table - Pairs(s, gone) && Surviving(table, unregisters) == table - Pairs(s, gone)
  {
    assert [Register(s, uris)][1..] == [] && [Unregister(s, gone)][1..] == [];
    assert uris == [] ==> Pairs(s, uris) == {};
    assert gone == [] ==> Pairs(s, gone) == {};
  }

  lemma {:induction false} SurvivingAppend(table: Table, p: seq<Message>, q: seq<Message>)
    ensures Surviving(table, p + q) == Surviving(Surviving(table, p), q)
    decreases |p|
  {
    if p == [] {
      assert p + q == q;
    } else {
      assert (p + q)[1..] == p[1..] + q;
      SurvivingAppend(if p[0].Unregister? then table - Pairs(p[0].app, p[0].uris) else table, p[1..], q);
    }
  }

  // ----- which steps keep the router inside the annotations -----

  /** Every endpoint the collector's pending batch would add, as far as it is not about to be withdrawn again. */
  function Revived(w: World): Table {
    if w.tick.Some? then Surviving(Registrations(Messages(w.tick.value)), Unsent(w.code)) else {}
  }

  /** The collector delivers a listing that names a route no longer announced. */
  ghost predicate Stale(w: World, a: Action) {
    a.SendTick? && w.tick.Some? && !Inside(Revived(w), w.cluster.services)
  }

  /** `Stop` deletes a service that the router still, or again, knows. */
  ghost predicate Orphans(w: World, a: Action) {
    && a == Advance(true) && w.code.Do? && w.code.call.DeleteService?
    && ServiceName(w.code.call.app) in w.cluster.services
    && exists u :: (ServiceName(w.code.call.app), u) in Settled(w)
  }

  ghost predicate LosesUnregister(w: World, a: Action) {
    a == Publish(false) && w.outbox != [] && w.outbox[0].Unregister?
  }

  /** The endpoints that only the message to publish next would withdraw from the router. */
  function LeftBehind(w: World): Table
    requires w.outbox != []
  {
    Surviving(w.router * Pairs(w.outbox[0].app, w.outbox[0].uris), w.outbox[1..] + Flatten(w.queue) + Unsent(w.code))
  }

  /** A failing publish leaves the router with a route that is no longer announced. */
  ghost predicate Leaves(w: World, a: Action) {
    LosesUnregister(w, a) && !Inside(LeftBehind(w), w.cluster.services)
  }

  lemma NothingAfterSend(h: History, c: Cluster, batch: Batch, rest: Code)
    requires ReadySend(h, c, batch, rest)
    ensures Unsent(rest) == []
  {
    hide AllJustified, InStep;
  }

  /** A step of an operation changes what will be settled by the batch it prepares. */
  lemma AdvanceSettles(parse: Parser, h: History, w: World, ok: bool)
    requires GoodWorld(parse, h, w) && w.code.Do?
    ensures var w' := Next(parse, w, Advance(ok));
            Settled(w') == if w.code.call.Send? then Settled(w) else ApplyAll(Settled(w), Unsent(w'.code))
  {
    hide GoodCluster, ReadySend, ReadyStore, AllJustified, Step, ApplyAll, Messages;
    var w' := Next(parse, w, Advance(ok));
    var sent := w.outbox + Flatten(w.queue);
    OnlySendSends(parse, w.cluster, w.code.call, w.code.rest, ok);
    if w.code.call.Send? {
      var batch := w.code.call.batch;
      SendSteps(parse, w, ok);
      NothingAfterSend(h, w.cluster, batch, w.code.rest);
      FlattenAppend(w.queue, [batch]);
      assert Flatten([batch]) == Messages(batch);
      assert w'.outbox + Flatten(w'.queue) + Unsent(w'.code) == sent + Messages(batch);
    } else {
      assert w'.queue == w.queue;
      assert sent + Unsent(w.code) == sent;
      ApplyAppend(w.router, sent, Unsent(w'.code));
    }
  }

  lemma SendSteps(parse: Parser, w: World, ok: bool)
    requires w.code.Do? && w.code.call.Send?
    ensures Next(parse, w, Advance(ok)) == w.(code := w.code.rest, queue := w.queue + [w.code.call.batch])
  {
    hide StepInstances, StepServices, StepIngress;
  }

  /** The routes of one service come and go; everyone else's stay announced. */
  lemma InsideAfterEntry(table: Table, was: Services, now: Services, r: Routes)
    requires Inside(table, was) && IsAppService(r.name)
    requires forall s | s != r.name :: Announced(now, s) == Announced(was, s)
    requires Announced(now, r.name).Some?
    requires forall u | u in r.routes :: u in Announced(now, r.name).value
    requires forall u | Announces(was, (r.name, u)) && u !in Announced(now, r.name).value :: u in r.unregistered
    ensures Inside(ApplyAll(table, Messages([r])), now)
  {
    hide IsAppService;
    EntryApplies(table, r);
  }

  lemma CreateServiceInside(parse: Parser, h: History, c: Cluster, table: Table, lrp: LRP, rest: Code)
    requires GoodCluster(parse, h, c) && Ready(parse, h, c, Do(CreateService(lrp), rest)) && Inside(table, c.services)
    ensures var s := StepServices(c, CreateService(lrp), rest);
      Inside(ApplyAll(table, Unsent(s.code)), s.cluster.services)
  {
    hide GoodCluster, ValidApp, IsAppService, Messages;
    var s := StepServices(c, CreateService(lrp), rest);
    ServiceNameIsListed(lrp.name);
    if s.code.Do? {
      InsideAfterEntry(table, c.services, s.cluster.services, Routes(ServiceName(lrp.name), Uris(lrp).uris, []));
    } else {
      assert forall t | Announced(c.services, t).Some? :: Announced(s.cluster.services, t) == Announced(c.services, t);
    }
  }

  lemma StoreServiceInside(parse: Parser, h: History, c: Cluster, table: Table, service: Service, rest: Code)
    requires GoodCluster(parse, h, c) && Ready(parse, h, c, Do(StoreService(service), rest))
    requires Inside(table, c.services)
    ensures var s := StepServices(c, StoreService(service), rest);
      Inside(ApplyAll(table, Unsent(s.code)), s.cluster.services)
  {
    hide GoodCluster, ValidApp, IsAppService, Messages, Unregistered;
    var s := StepServices(c, StoreService(service), rest);
    ServiceNameIsListed(rest.rest.call.lrp.name);
    assert Announced(s.cluster.services, service.name) == Some(Uris(rest.rest.call.lrp).uris);
    InsideAfterEntry(table, c.services, s.cluster.services, rest.call.batch[0]);
  }

  lemma FetchDoomedInside(parse: Parser, h: History, c: Cluster, table: Table, app: string, rest: Code)
    requires GoodCluster(parse, h, c) && Ready(parse, h, c, Do(FetchDoomed(app), rest)) && Inside(table, c.services)
    ensures var s := StepServices(c, FetchDoomed(app), rest);
      Inside(ApplyAll(table, Unsent(s.code)), s.cluster.services)
  {
    hide GoodCluster, ValidApp, IsAppService, Messages;
    var s := StepServices(c, FetchDoomed(app), rest);
    ServiceNameIsListed(app);
    if s.code.Do? {
      InsideAfterEntry(table, c.services, s.cluster.services, s.code.call.batch[0]);
    }
  }

  lemma QuietStepInside(parse: Parser, h: History, c: Cluster, call: Call, rest: Code, ok: bool)
    requires !(call.CreateService? || call.StoreService? || call.FetchDoomed? || call.DeleteService? || call.Send?)
    requires GoodCluster(parse, h, c) && Ready(parse, h, c, Do(call, rest))
    ensures var s := Step(parse, c, call, rest, ok);
      && (s.code.Do? ==> !s.code.call.Send? && !s.code.call.DeleteService?)
      && forall p :: Announces(s.cluster.services, p) <==> Announces(c.services, p)
  {
    hide GoodIngress, GoodInstances, GoodServices, ValidApp, IsAppService, Justified, GoodBackends, Selects;
    if call.CreateHeadless? || call.DeleteHeadless? {
      HeadlessNameIsSkipped(if call.CreateHeadless? then call.lrp.name else call.app);
    }
  }

  lemma DeleteInside(parse: Parser, h: History, c: Cluster, table: Table, app: string, rest: Code)
    requires GoodCluster(parse, h, c) && Ready(parse, h, c, Do(DeleteService(app), rest)) && Inside(table, c.services)
    ensures var s := StepServices(c, DeleteService(app), rest);
      && Unsent(s.code) == []
      && (Inside(table, s.cluster.services) <==>
            !(ServiceName(app) in c.services && exists u :: (ServiceName(app), u) in table))
  {
    hide GoodIngress, GoodInstances, GoodServices, IsAppService;
    var s := StepServices(c, DeleteService(app), rest);
    if u :| (ServiceName(app), u) in table {
      var p := (ServiceName(app), u);
      assert Announces(c.services, p) && (ServiceName(app) in c.services ==> !Announces(s.cluster.services, p));
    } else {
      forall p | p in table ensures Announces(s.cluster.services, p) {
        assert Announces(c.services, p) && p == (p.0, p.1);
      }
    }
  }

  /** An operation's step keeps the router inside the annotations exactly when it orphans no route. */
  lemma AdvanceSyncExactly(parse: Parser, h: History, w: World, ok: bool)
    requires GoodWorld(parse, h, w) && InSync(w) && w.code.Do?
    ensures InSync(Next(parse, w, Advance(ok))) <==> !Orphans(w, Advance(ok))
  {
    hide GoodCluster, Ready, AllJustified, Flatten, StepInstances, StepServices, StepIngress, Announces, Settled;
    var c, call, rest := w.cluster, w.code.call, w.code.rest;
    var w' := Next(parse, w, Advance(ok));
    AdvanceSettles(parse, h, w, ok);
    if call.Send? {
    } else if call.CreateService? {
      if ok { CreateServiceInside(parse, h, c, Settled(w), call.lrp, rest); }
    } else if call.StoreService? {
      if ok { StoreServiceInside(parse, h, c, Settled(w), call.service, rest); }
    } else if call.FetchDoomed? {
      if ok { FetchDoomedInside(parse, h, c, Settled(w), call.app, rest); }
    } else if call.DeleteService? {
      if ok { DeleteInside(parse, h, c, Settled(w), call.app, rest); }
    } else {
      QuietStepInside(parse, h, c, call, rest, ok);
    }
  }

  lemma RegistersInTheMiddle(table: Table, p: seq<Message>, registers: seq<Message>, q: seq<Message>)
    requires OnlyRegisters(registers)
    ensures ApplyAll(table, p + registers + q) == ApplyAll(table, p + q) + Surviving(Registrations(registers), q)
  {
    ApplyAppend(table, p + registers, q);
    ApplyAppend(table, p, registers);
    ApplyAppend(table, p, q);
    ApplyRegisters(ApplyAll(table, p), registers);
    ApplyUnion(ApplyAll(table, p), Registrations(registers), q);
  }

  /** Delivering a listing adds to what will be settled exactly the endpoints it revives. */
  lemma TickSettles(parse: Parser, h: History, w: World)
    requires GoodWorld(parse, h, w) && w.tick.Some?
    ensures Settled(Next(parse, w, SendTick)) == Settled(w) + Revived(w)
  {
    hide GoodCluster, Ready, AllJustified, ApplyAll, Surviving, Registrations, Messages;
    var ms, sent := Messages(w.tick.value), w.outbox + Flatten(w.queue);
    FlattenAppend(w.queue, [w.tick.value]);
    assert Flatten([w.tick.value]) == ms;
    assert w.outbox + (Flatten(w.queue) + ms) == sent + ms;
    RegistersInTheMiddle(w.router, sent, ms, Unsent(w.code));
  }

  /** Receiving and publishing only lose register messages, and with them endpoints. */
  lemma EmitterSettles(parse: Parser, w: World, a: Action)
    requires (a.Receive? || a.Publish?) && !LosesUnregister(w, a)
    ensures Settled(Next(parse, w, a)) <= Settled(w)
    ensures a != Publish(false) ==> Settled(Next(parse, w, a)) == Settled(w)
  {
    hide Messages, Unsent;
    var w' := Next(parse, w, a);
    var tail := Flatten(w.queue) + Unsent(w.code);
    assert w.outbox + Flatten(w.queue) + Unsent(w.code) == w.outbox + tail;
    if a.Publish? && w.outbox != [] {
      var ms := w.outbox[1..] + tail;
      assert w'.outbox + Flatten(w'.queue) + Unsent(w'.code) == ms;
      assert (w.outbox + tail)[1..] == ms && (w.outbox + tail)[0] == w.outbox[0];
      if !a.ok { ApplyMonotone(w.router, Apply(w.router, w.outbox[0]), ms); }
    } else if a.Receive? && w' != w {
      assert w'.outbox + Flatten(w'.queue) == w.outbox + Flatten(w.queue);
    }
  }

  /** Losing an unregister message adds exactly the endpoints that it alone would have withdrawn. */
  lemma LossSettles(parse: Parser, w: World, a: Action)
    requires LosesUnregister(w, a)
    ensures Settled(Next(parse, w, a)) == Settled(w) + LeftBehind(w)
  {
    hide Messages, Unsent, Surviving;
    var m, w' := w.outbox[0], Next(parse, w, a);
    var pairs := Pairs(m.app, m.uris);
    var tail := Flatten(w.queue) + Unsent(w.code);
    var ms := w.outbox[1..] + tail;
    assert w.outbox[1..] + Flatten(w.queue) + Unsent(w.code) == ms;
    assert w'.outbox + Flatten(w'.queue) + Unsent(w'.code) == ms;
    assert w.outbox + Flatten(w.queue) + Unsent(w.code) == w.outbox + tail;
    assert (w.outbox + tail)[1..] == ms && (w.outbox + tail)[0] == m;
    assert w.router == (w.router - pairs) + (w.router * pairs);
    ApplyUnion(w.router - pairs, w.router * pairs, ms);
  }

  /** The exact condition, step by step: every other action keeps the router inside the annotations. */
  lemma NextSyncExactly(parse: Parser, h: History, w: World, a: Action)
    requires GoodWorld(parse, h, w) && InSync(w)
    ensures InSync(Next(parse, w, a)) <==> !Stale(w, a) && !Orphans(w, a) && !Leaves(w, a)
  {
    hide GoodWorld, Announces, Settled, Revived, LeftBehind, Step, LosesUnregister;
    if LosesUnregister(w, a) {
      LossSettles(parse, w, a);
      LossIsPublish(parse, w, a);
      return;
    }
    match a
    case Advance(ok) => if w.code.Do? { AdvanceSyncExactly(parse, h, w, ok); }
    case SendTick => if w.tick.Some? { TickSettles(parse, h, w); }
    case Begin(op) => SettledUnchanged(w, Next(parse, w, a));
    case ListTick(_, _) => SettledUnchanged(w, Next(parse, w, a));
    case _ => EmitterSettles(parse, w, a);
  }

  lemma LossIsPublish(parse: Parser, w: World, a: Action)
    requires LosesUnregister(w, a)
    ensures a.Publish? && Next(parse, w, a).cluster == w.cluster
  {
  }

  lemma SettledUnchanged(w: World, w': World)
    requires w.router == w'.router && w.outbox == w'.outbox && w.queue == w'.queue && Unsent(w.code) == Unsent(w'.code)
    ensures Settled(w) == Settled(w')
  {
  }

  /** The router is inside the annotations `k` actions into the run. */
  ghost predicate SyncAt(parse: Parser, foreign: Services, run: seq<Action>, k: nat) {
    k <= |run| && InSync(After(parse, foreign, run[..k]))
  }

  /** Action `k` of the run neither delivers a stale listing, nor orphans a route, nor leaves one by a lost message. */
  ghost predicate SoundAt(parse: Parser, foreign: Services, run: seq<Action>, k: nat) {
    && k < |run|
    && var w := After(parse, foreign, run[..k]);
       !Stale(w, run[k]) && !Orphans(w, run[k]) && !Leaves(w, run[k])
  }

  lemma SyncStep(parse: Parser, foreign: Services, run: seq<Action>, n: nat)
    requires Foreign(foreign) && n < |run| && SyncAt(parse, foreign, run, n)
    ensures SyncAt(parse, foreign, run, n + 1) <==> SoundAt(parse, foreign, run, n)
  {
    hide Next, After, GoodWorld, InSync, Stale, Orphans, Leaves;
    AfterLast(parse, foreign, run, n);
    RunIsGood(parse, foreign, run[..n]);
    NextSyncExactly(parse, Past(parse, foreign, run[..n]), After(parse, foreign, run[..n]), run[n]);
  }

  lemma {:induction false} SyncUpTo(parse: Parser, foreign: Services, run: seq<Action>, n: nat)
    requires Foreign(foreign) && n <= |run|
    ensures (forall k | 0 <= k <= n :: SyncAt(parse, foreign, run, k))
       <==> (forall k | 0 <= k < n :: SoundAt(parse, foreign, run, k))
  {
    hide SyncAt, SoundAt;
    if n == 0 {
      SyncAtStart(parse, foreign, run);
    } else {
      SyncUpTo(parse, foreign, run, n - 1);
      if SyncAt(parse, foreign, run, n - 1) {
        SyncStep(parse, foreign, run, n - 1);
      }
    }
  }

  lemma SyncAtStart(parse: Parser, foreign: Services, run: seq<Action>)
    ensures SyncAt(parse, foreign, run, 0)
  {
    hide InSync;
    assert run[..0] == [];
    StartInSync(parse, foreign);
  }

  /** Over any whole run: in sync throughout exactly when every action was sound. */
  lemma SyncExactly(parse: Parser, foreign: Services, run: seq<Action>)
    requires Foreign(foreign)
    ensures (forall k | 0 <= k <= |run| :: SyncAt(parse, foreign, run, k))
       <==> (forall k | 0 <= k < |run| :: SoundAt(parse, foreign, run, k))
  {
    hide SyncAt, SoundAt;
    SyncUpTo(parse, foreign, run, |run|);
  }

  lemma StartInSync(parse: Parser, foreign: Services)
    ensures InSync(After(parse, foreign, []))
  {
    assert [] + Flatten([]) + Unsent(Halt(Ok)) == [];
  }

  // ----- a schedule that is always in sync -----

  predicate WritesRoutes(call: Call) {
    call.CreateService? || call.StoreService? || call.DeleteService?
  }

  /**
   The schedule: no app service is written between a listing and its delivery, no listing is delivered
   between the unregistration and the deletion of `Stop`, and no unregister publish fails.
   */
  ghost predicate Quiet(w: World, a: Action) {
    && !LosesUnregister(w, a)
    && (w.tick.Some? && a == Advance(true) && w.code.Do? ==> !WritesRoutes(w.code.call))
    && (a.SendTick? && w.code.Do? ==> !w.code.call.DeleteService?)
  }

  /** The service `Stop` has begun, or is about, to unregister and delete. */
  function Going(code: Code): Option<string> {
    if code.Do? && code.call.DeleteService? then Some(ServiceName(code.call.app))
    else if code.Do? && code.call.Send? && code.rest.Do? && code.rest.call.DeleteService?
    then Some(ServiceName(code.rest.call.app)) else None
  }

  predicate Lacks(table: Table, s: string) {
    forall p | p in table :: p.0 != s
  }

  /** The pending listing is up to date, and a service about to go has no endpoint left. */
  predicate Clean(w: World) {
    && (w.tick.Some? ==> Inside(Registrations(Messages(w.tick.value)), w.cluster.services))
    && (Going(w.code).Some? ==> Lacks(Settled(w), Going(w.code).value))
  }

  lemma {:induction false} ListingIsFresh(services: Services, ms: seq<Message>)
    requires forall m | m in ms :: m.Register? && IsAppService(m.app) && (m.app, m.uris) in Held(services)
    ensures Inside(Registrations(ms), services)
  {
    hide IsAppService;
    if ms != [] {
      ListingIsFresh(services, ms[1..]);
    }
  }

  lemma SurvivorsWere(table: Table, ms: seq<Message>)
    ensures Surviving(table, ms) <= table
    decreases |ms|
  {
  }

  /** Before its batch is sent, a doomed service's routes are all withdrawn by it. */
  lemma RevivedLacksGoing(parse: Parser, h: History, w: World)
    requires GoodWorld(parse, h, w) && Clean(w) && w.tick.Some? && Going(w.code).Some? && w.code.call.Send?
    ensures Lacks(Revived(w), Going(w.code).value)
  {
    hide GoodCluster, AllJustified, IsAppService, Messages, Registrations, ValidApp;
    var table := Registrations(Messages(w.tick.value));
    var r := w.code.call.batch[0];
    EntryApplies(table, r);
    forall p | p in Revived(w) ensures p.0 != Going(w.code).value {
      assert p == (p.0, p.1) && Announces(w.cluster.services, p);
    }
  }

  lemma QuietAdvanceKeepsClean(parse: Parser, h: History, w: World, ok: bool)
    requires GoodWorld(parse, h, w) && InSync(w) && Clean(w) && Quiet(w, Advance(ok)) && w.code.Do?
    ensures Clean(Next(parse, w, Advance(ok)))
  {
    hide GoodCluster, AllJustified, StepInstances, StepServices, StepIngress, Settled, Messages,
         Registrations, IsAppService, ValidApp;
    var c, call, rest := w.cluster, w.code.call, w.code.rest;
    var w' := Next(parse, w, Advance(ok));
    AdvanceSettles(parse, h, w, ok);
    CallKeepsListing(parse, h, c, call, rest, ok);
    if call.FetchDoomed? && ok {
      FetchDoomedGoes(c, call.app, rest);
      if w'.code.Do? {
        EntryApplies(Settled(w), w'.code.call.batch[0]);
        forall p | p in Settled(w') ensures p.0 != ServiceName(call.app) {
          assert p == (p.0, p.1) && Announces(c.services, p);
        }
      }
    }
  }

  lemma FetchDoomedGoes(c: Cluster, app: string, rest: Code)
    ensures var code := StepServices(c, FetchDoomed(app), rest).code;
      code.Do? ==>
        && Announced(c.services, ServiceName(app)).Some?
        && code == Do(Send([Routes(ServiceName(app), [], Announced(c.services, ServiceName(app)).value)]),
                   Do(DeleteService(app), rest))
  {
  }

  /** Calls that do not write an app service leave what is announced alone; only `Stop` dooms a service. */
  lemma CallKeepsListing(parse: Parser, h: History, c: Cluster, call: Call, rest: Code, ok: bool)
    requires GoodCluster(parse, h, c) && Ready(parse, h, c, Do(call, rest))
    ensures var s := Step(parse, c, call, rest, ok);
      && (!(ok && WritesRoutes(call)) ==> forall p :: Announces(s.cluster.services, p) <==> Announces(c.services, p))
      && (Going(s.code).Some? ==> (call.FetchDoomed? && ok) || (call.Send? && Going(s.code) == Going(Do(call, rest))))
  {
    hide GoodCluster, ValidApp, Announces, AllJustified, GoodBackends, StepInstances, StepIngress;
    if !call.Send? && !call.FetchDoomed? && !WritesRoutes(call) {
      QuietStepInside(parse, h, c, call, rest, ok);
    }
  }

  lemma QuietNextIsClean(parse: Parser, h: History, w: World, a: Action)
    requires GoodWorld(parse, h, w) && InSync(w) && Clean(w) && Quiet(w, a)
    ensures !Stale(w, a) && !Orphans(w, a) && Clean(Next(parse, w, a))
  {
    hide GoodWorld, Settled, Step, Messages, Registrations, Announces, LosesUnregister, Enumerates, ListRoutes;
    match a
    case Advance(ok) => if w.code.Do? { QuietAdvanceKeepsClean(parse, h, w, ok); }
    case SendTick =>
      if w.tick.Some? {
        SurvivorsWere(Registrations(Messages(w.tick.value)), Unsent(w.code));
        TickSettles(parse, h, w);
        if Going(w.code).Some? { RevivedLacksGoing(parse, h, w); }
      }
    case Begin(op) => SettledUnchanged(w, Next(parse, w, a));
    case ListTick(_, order) => ListTickIsFresh(parse, w, a);
    case _ => EmitterSettles(parse, w, a);
  }

  lemma ListTickIsFresh(parse: Parser, w: World, a: Action)
    requires a.ListTick? && Clean(w)
    ensures Clean(Next(parse, w, a))
  {
    hide Held, ListRoutes, Messages, Registrations, Announces;
    var w' := Next(parse, w, a);
    SettledUnchanged(w, w');
    if w' != w {
      ListingIsHeld(w.cluster.services, a.order);
      if w'.tick.Some? { ListingIsFresh(w.cluster.services, Messages(w'.tick.value)); }
    }
  }

  ghost predicate QuietRun(parse: Parser, foreign: Services, run: seq<Action>) {
    forall k | 0 <= k < |run| :: Quiet(After(parse, foreign, run[..k]), run[k])
  }

  /** On the quiet schedule the router never runs ahead of the annotations, whatever else fails. */
  lemma {:induction false} QuietRunInSync(parse: Parser, foreign: Services, run: seq<Action>)
    requires Foreign(foreign) && QuietRun(parse, foreign, run)
    ensures var w := After(parse, foreign, run); InSync(w) && Clean(w)
  {
    hide Next, GoodWorld, InSync, Clean, Quiet, Stale, Orphans;
    if run == [] {
      StartInSync(parse, foreign);
      StartIsClean(foreign);
    } else {
      var n := |run| - 1;
      var before := run[..n];
      assert forall k | 0 <= k <= n :: before[..k] == run[..k];
      QuietRunInSync(parse, foreign, before);
      RunIsGood(parse, foreign, before);
      var h, w := Past(parse, foreign, before), After(parse, foreign, before);
      assert Quiet(w, run[n]);
      QuietKeepsUnregisters(w, run[n]);
      NextSyncExactly(parse, h, w, run[n]);
      QuietNextIsClean(parse, h, w, run[n]);
    }
  }

  lemma StartIsClean(foreign: Services)
    ensures Clean(Start(foreign))
  {
  }

  lemma QuietKeepsUnregisters(w: World, a: Action)
    requires Quiet(w, a)
    ensures !LosesUnregister(w, a)
  {
  }

  predicate Drained(w: World) {
    w.outbox == [] && w.queue == [] && Unsent(w.code) == []
  }

  /** Router sync: with the channel drained, the router's URIs of an app are among those its service announces. */
  lemma RouterInsideAnnotations(parse: Parser, foreign: Services, run: seq<Action>, s: string, uri: string)
    requires Foreign(foreign) && QuietRun(parse, foreign, run)
    requires var w := After(parse, foreign, run); Drained(w) && (s, uri) in w.router
    ensures var services := After(parse, foreign, run).cluster.services;
            IsAppService(s) && Announced(services, s).Some? && uri in Announced(services, s).value
  {
    hide After, QuietRun, IsAppService;
    QuietRunInSync(parse, foreign, run);
    assert Announces(After(parse, foreign, run).cluster.services, (s, uri));
  }
}
