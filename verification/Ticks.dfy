/**
 The collector: what a listing contains, what one fully published tick restores, and the two
 schedules on which a tick brings back a route that is gone.
 */
module Ticks {
  import opened Names
  import opened Wrappers
  import opened Model
  import opened Protocol
  import opened Router
  import opened Runs
  import opened Safety
  import opened Reachable
  import opened Sync

  predicate Undecodable(services: Services, s: string) {
    IsAppService(s) && Announced(services, s).None?
  }

  /** A listing fails precisely on an undecodable app service. */
  lemma {:induction false} ListingFailsExactly(services: Services, order: seq<string>)
    requires forall s | s in order :: s in services
    ensures ListRoutes(services, order).None? <==> exists s | s in order :: Undecodable(services, s)
  {
    hide IsAppService;
    if order != [] {
      ListingFailsExactly(services, order[1..]);
      assert order[0] in order && forall s | s in order :: s == order[0] || s in order[1..];
      if ListRoutes(services, order[1..]).None? {
        var s :| s in order[1..] && Undecodable(services, s);
        assert s in order && Undecodable(services, s);
      } else {
        assert ListRoutes(services, order).None? <==> Undecodable(services, order[0]);
      }
    }
  }

  // ----- which runs have undecodable services -----

  /** The action that creates the service of an LRP whose routes do not decode. */
  predicate CreatesUndecodable(w: World, a: Action, s: string) {
    && a == Advance(true) && w.code.Do? && w.code.call.CreateService?
    && s == ServiceName(w.code.call.lrp.name) && s !in w.cluster.services && Uris(w.code.call.lrp).Plain?
  }

  predicate AllDecode(services: Services) {
    forall s | s in services :: !Undecodable(services, s)
  }

  predicate WritesServices(call: Call) {
    WritesRoutes(call) || call.CreateHeadless? || call.DeleteHeadless?
  }

  lemma StepDecodes(parse: Parser, h: History, c: Cluster, call: Call, rest: Code, ok: bool, s: string)
    requires GoodCluster(parse, h, c) && Ready(parse, h, c, Do(call, rest)) && AllDecode(c.services)
    ensures var after := Step(parse, c, call, rest, ok).cluster.services;
      s in after && Undecodable(after, s) <==>
        && ok && call.CreateService? && s == ServiceName(call.lrp.name)
        && s !in c.services && Uris(call.lrp).Plain?
  {
    hide GoodIngress, GoodInstances, GoodServices, ValidApp, IsAppService, Justified, GoodBackends, Selects,
         StepInstances, StepIngress, Unregistered, AllJustified;
    if call.CreateHeadless? || call.DeleteHeadless? {
      HeadlessNameIsSkipped(if call.CreateHeadless? then call.lrp.name else call.app);
    }
    if call.CreateService? {
      ServiceNameIsListed(call.lrp.name);
    }
    if !WritesServices(call) {
      OnlyServiceCallsWrite(parse, c, call, rest, ok);
    }
  }

  lemma OnlyServiceCallsWrite(parse: Parser, c: Cluster, call: Call, rest: Code, ok: bool)
    requires !WritesServices(call)
    ensures Step(parse, c, call, rest, ok).cluster.services == c.services
  {
  }

  /** In any run, the next action makes a service undecodable exactly when it creates one for undecodable routes. */
  lemma UndecodableExactly(parse: Parser, foreign: Services, run: seq<Action>, a: Action, s: string)
    requires Foreign(foreign) && AllDecode(After(parse, foreign, run).cluster.services)
    ensures var services := After(parse, foreign, run + [a]).cluster.services;
      s in services && Undecodable(services, s) <==> CreatesUndecodable(After(parse, foreign, run), a, s)
  {
    hide Step, GoodCluster, Ready, ValidApp, AllJustified, Enumerates, ListRoutes, Messages, Apply, Undecodable;
    var w := After(parse, foreign, run);
    assert (run + [a])[..|run|] == run;
    assert After(parse, foreign, run + [a]) == Next(parse, w, a);
    RunIsGood(parse, foreign, run);
    if a.Advance? && w.code.Do? {
      StepDecodes(parse, Past(parse, foreign, run), w.cluster, w.code.call, w.code.rest, a.ok, s);
    }
  }

  predicate DesiresDecodable(a: Action) {
    a.Begin? && a.op.Desire? ==> Uris(a.op.lrp).UriList?
  }

  /** The calls of `Desire` up to the creation of the service. */
  predicate Creates(call: Call) {
    call.CheckExists? || call.CreateInstance? || call.CreateHeadless? || call.CreateService?
  }

  /** The operation in progress, if it is still to create the service, creates a decodable one. */
  predicate WillDecode(code: Code) {
    code.Do? && Creates(code.call) ==>
      Uris(code.call.lrp).UriList?
  }

  lemma StepWillDecode(parse: Parser, h: History, c: Cluster, call: Call, rest: Code, ok: bool)
    requires GoodCluster(parse, h, c) && Ready(parse, h, c, Do(call, rest)) && WillDecode(Do(call, rest))
    ensures WillDecode(Step(parse, c, call, rest, ok).code)
  {
    hide GoodCluster, AllJustified, GoodBackends, ValidApp, Selects, Rules, Unregistered, NoRules;
  }

  /** No service is ever undecodable, and so no answered listing fails, when every desired LRP carries a URI list. */
  lemma {:induction false} ListingsSucceed(parse: Parser, foreign: Services, run: seq<Action>, order: seq<string>)
    requires Foreign(foreign) && forall a | a in run :: DesiresDecodable(a)
    ensures var w := After(parse, foreign, run);
      && AllDecode(w.cluster.services) && WillDecode(w.code)
      && (Enumerates(order, w.cluster.services.Keys) ==> ListRoutes(w.cluster.services, order).Some?)
    decreases |run|
  {
    hide Next, Step, GoodCluster, Ready, AllJustified, ListRoutes, Undecodable, IsCFService;
    var w := After(parse, foreign, run);
    if run == [] {
      StartDecodes(foreign);
    } else {
      var before, a := run[..|run| - 1], run[|run| - 1];
      assert a in run && run == before + [a];
      ListingsSucceed(parse, foreign, before, []);
      RunIsGood(parse, foreign, before);
      NextWillDecode(parse, Past(parse, foreign, before), After(parse, foreign, before), a);
      forall s | s in w.cluster.services ensures !Undecodable(w.cluster.services, s) {
        UndecodableExactly(parse, foreign, before, a, s);
      }
    }
    if Enumerates(order, w.cluster.services.Keys) {
      ListingFailsExactly(w.cluster.services, order);
    }
  }

  lemma StartDecodes(foreign: Services)
    requires Foreign(foreign)
    ensures AllDecode(foreign)
  {
  }

  lemma NextWillDecode(parse: Parser, h: History, w: World, a: Action)
    requires GoodCluster(parse, h, w.cluster) && Ready(parse, h, w.cluster, w.code)
    requires WillDecode(w.code) && DesiresDecodable(a)
    ensures WillDecode(Next(parse, w, a).code)
  {
    hide Step, GoodCluster, Ready, ValidApp, Enumerates, ListRoutes, Messages, Apply;
    if a.Advance? && w.code.Do? {
      StepWillDecode(parse, h, w.cluster, w.code.call, w.code.rest, a.ok);
    }
  }

  // ----- what a listing contains -----

  /** An entry is right: an app service with exactly the routes it announces. */
  predicate RightEntry(services: Services, r: Routes) {
    IsAppService(r.name) && Announced(services, r.name) == Some(r.routes) && r.unregistered == []
  }

  /** Otherwise it has an entry for every app service, with the routes it announces, and no other entry. */
  lemma {:induction false} ListingIsExact(services: Services, order: seq<string>)
    requires (forall s | s in order :: s in services) && ListRoutes(services, order).Some?
    ensures var b := ListRoutes(services, order).value;
      && (forall r | r in b :: r.name in order && RightEntry(services, r))
      && (forall s | s in order && IsAppService(s) :: exists r :: r in b && r.name == s)
  {
    hide IsAppService;
    if order != [] {
      var rest := ListRoutes(services, order[1..]).value;
      ListingIsExact(services, order[1..]);
      assert forall s | s in order :: s == order[0] || s in order[1..];
      if IsAppService(order[0]) {
        var r := Routes(order[0], Announced(services, order[0]).value, []);
        assert ListRoutes(services, order).value == [r] + rest;
        assert RightEntry(services, r) && r in [r] + rest;
        assert forall q | q in rest :: q in [r] + rest;
      }
    }
  }

  /** No app service is listed twice. */
  lemma {:induction false} ListingHasNoDuplicates(services: Services, order: seq<string>)
    requires (forall i, j | 0 <= i < j < |order| :: order[i] != order[j]) && (forall s | s in order :: s in services)
    requires ListRoutes(services, order).Some?
    ensures var b := ListRoutes(services, order).value; forall i, j | 0 <= i < j < |b| :: b[i].name != b[j].name
  {
    hide IsAppService;
    if order != [] {
      var rest := ListRoutes(services, order[1..]).value;
      ListingHasNoDuplicates(services, order[1..]);
      ListingIsExact(services, order[1..]);
      if IsAppService(order[0]) {
        assert ListRoutes(services, order).value == [Routes(order[0], Announced(services, order[0]).value, [])] + rest;
        forall k | 0 <= k < |rest| ensures rest[k].name != order[0] { assert rest[k] in rest; }
      }
    }
  }

  /** The listed names are the service names of the valid apps, whatever else the namespace holds. */
  lemma ListingCoversApps(services: Services, order: seq<string>, app: string)
    requires Enumerates(order, services.Keys) && ListRoutes(services, order).Some? && ValidApp(app)
    ensures var b := ListRoutes(services, order).value;
            ServiceName(app) in services <==> exists r :: r in b && r.name == ServiceName(app)
  {
    hide IsAppService, ValidApp;
    ServiceNameIsListed(app);
    ListingIsExact(services, order);
  }

  /**
   The listing in the constants of the source: one entry for each service that has an app's name, with the
   URI list of its annotation `routes` and nothing to withdraw, and no other entry.
   */
  ghost predicate ListsApps(services: Services, batch: Batch) {
    && (forall r | r in batch ::
          && r.name in services && AppName(r.name) && r.unregistered == []
          && "routes" in services[r.name].annotations && services[r.name].annotations["routes"] == UriList(r.routes))
    && (forall s | s in services && AppName(s) :: exists r :: r in batch && r.name == s)
    && (forall i, j | 0 <= i < j < |batch| :: batch[i].name != batch[j].name)
  }

  /** `cf-` in front, no newline behind it, and not `headless` at the end. */
  predicate AppName(name: string) {
    && |name| >= 3 && name[0] == 'c' && name[1] == 'f' && name[2] == '-'
    && (forall i | 3 <= i < |name| :: name[i] != '\n')
    && !(|name| >= 8 && name[|name| - 8..] == "headless")
  }

  lemma ListingListsApps(services: Services, order: seq<string>)
    requires Enumerates(order, services.Keys) && ListRoutes(services, order).Some?
    ensures ListsApps(services, ListRoutes(services, order).value)
  {
    hide IsAppService, AppName, Announced;
    ListingIsExact(services, order);
    ListingHasNoDuplicates(services, order);
    var b := ListRoutes(services, order).value;
    forall s ensures IsAppService(s) <==> AppName(s) { IsAppName(s); }
    forall r | r in b
      ensures "routes" in services[r.name].annotations && services[r.name].annotations["routes"] == UriList(r.routes)
    {
      AnnouncedExactly(services, r.name, r.routes);
    }
  }

  lemma IsAppName(name: string)
    ensures IsAppService(name) <==> AppName(name)
  {
    ListedExactly(name);
  }

  function PublishAll(n: nat): seq<Action> {
    seq(n, _ => Publish(true))
  }

  lemma {:induction false} PublishingSettles(parse: Parser, w: World)
    ensures var w' := RunFrom(parse, w, PublishAll(|w.outbox|));
      w' == w.(outbox := [], log := w.log + w.outbox, router := ApplyAll(w.router, w.outbox))
    decreases |w.outbox|
  {
    hide Step;
    if w.outbox == [] {
      assert w.log + w.outbox == w.log;
    } else {
      var w1 := Next(parse, w, Publish(true));
      assert PublishAll(|w.outbox|)[1..] == PublishAll(|w1.outbox|);
      PublishingSettles(parse, w1);
      assert w1.log + w1.outbox == w.log + w.outbox;
    }
  }

  /** The endpoints of a listing are the announced ones. */
  lemma {:induction false} ListingRegisters(services: Services, order: seq<string>, p: (string, string))
    requires (forall s | s in order :: s in services) && ListRoutes(services, order).Some?
    ensures p in Registrations(Messages(ListRoutes(services, order).value)) <==> p.0 in order && Announces(services, p)
  {
    hide IsAppService;
    if order != [] {
      var rest := order[1..];
      ListingRegisters(services, rest, p);
      if IsAppService(order[0]) {
        var uris := Announced(services, order[0]).value;
        var r := Routes(order[0], uris, []);
        assert ListRoutes(services, order).value == [r] + ListRoutes(services, rest).value;
        RegisteredAppend(MessagesOf(r), Messages(ListRoutes(services, rest).value));
        assert Registrations(MessagesOf(r)) == Pairs(order[0], uris);
      }
    }
  }

  lemma {:induction false} RegisteredAppend(p: seq<Message>, q: seq<Message>)
    ensures Registrations(p + q) == Registrations(p) + Registrations(q)
  {
    if p == [] {
      assert p + q == q;
    } else {
      assert (p + q)[1..] == p[1..] + q;
      RegisteredAppend(p[1..], q);
    }
  }

  /** A tick from listing to the last publish. */
  function FullTick(order: seq<string>, messages: nat): seq<Action> {
    [ListTick(true, order), SendTick, Receive] + PublishAll(messages)
  }

  /** What a full tick does to a drained world: register everything listed, touch nothing else. */
  lemma FullTickRuns(parse: Parser, w: World, order: seq<string>)
    requires Drained(w) && w.tick.None? && Enumerates(order, w.cluster.services.Keys)
    requires ListRoutes(w.cluster.services, order).Some?
    ensures var ms := Messages(ListRoutes(w.cluster.services, order).value);
            RunFrom(parse, w, FullTick(order, |ms|)) ==
              w.(log := w.log + ms, router := ApplyAll(w.router, ms))
  {
    hide Step, ListRoutes, Messages, ApplyAll;
    var b := ListRoutes(w.cluster.services, order).value;
    var start := [ListTick(true, order), SendTick, Receive];
    var w1 := w.(tick := Some(b));
    var w2 := w.(queue := [b]);
    var w3 := w.(outbox := Messages(b));
    assert Next(parse, w, ListTick(true, order)) == w1;
    assert Next(parse, w1, SendTick) == w2;
    assert Next(parse, w2, Receive) == w3;
    assert start[1..] == [SendTick, Receive] && start[1..][1..] == [Receive] && [Receive][1..] == [];
    assert RunFrom(parse, w2, [Receive]) == w3;
    assert RunFrom(parse, w1, [SendTick, Receive]) == w3;
    assert RunFrom(parse, w, start) == w3;
    RunInTwo(parse, w, start, PublishAll(|Messages(b)|));
    PublishingSettles(parse, w3);
  }

  /** One fully published tick in a synced, drained state makes the router equal to the annotations. */
  lemma FullTickRestores(parse: Parser, foreign: Services, run: seq<Action>, order: seq<string>, p: (string, string))
    requires Foreign(foreign)
    requires var w := After(parse, foreign, run);
      && Drained(w) && w.tick.None? && InSync(w) && Enumerates(order, w.cluster.services.Keys)
      && ListRoutes(w.cluster.services, order).Some?
    ensures var w := After(parse, foreign, run);
      var ms := Messages(ListRoutes(w.cluster.services, order).value);
      p in RunFrom(parse, w, FullTick(order, |ms|)).router <==> Announces(w.cluster.services, p)
  {
    hide After, ListRoutes, IsAppService, Registrations, Messages;
    var w := After(parse, foreign, run);
    var services := w.cluster.services;
    FullTickRuns(parse, w, order);
    ListingIsHeld(services, order);
    ApplyRegisters(w.router, Messages(ListRoutes(services, order).value));
    ListingRegisters(services, order, p);
    assert w.outbox + Flatten(w.queue) + Unsent(w.code) == [];
  }

  // ----- the two races -----

  /**
   A tick that runs inside `Stop`, after its unregister message and before its last request, leaves
   the router with every route of a service that is then deleted, though nothing failed and no
   service was written between listing and delivery.
   */
  lemma TickInsideStopOrphansRoutes(parse: Parser, w: World, app: string, order: seq<string>, uri: string)
    requires w.code == Do(DeleteService(app), Halt(Ok)) && Drained(w) && w.tick.None?
    requires Enumerates(order, w.cluster.services.Keys) && ListRoutes(w.cluster.services, order).Some?
    requires Announces(w.cluster.services, (ServiceName(app), uri))
    ensures var ms := Messages(ListRoutes(w.cluster.services, order).value);
      var w' := RunFrom(parse, w, FullTick(order, |ms|) + [Advance(true)]);
      w'.code == Halt(Ok) && Drained(w') && ServiceName(app) !in w'.cluster.services
      && (ServiceName(app), uri) in w'.router
  {
    hide ListRoutes, IsAppService, Registrations, Messages, ApplyAll;
    var services := w.cluster.services;
    var ms := Messages(ListRoutes(services, order).value);
    FullTickRuns(parse, w, order);
    ListingIsHeld(services, order);
    ApplyRegisters(w.router, ms);
    ListingRegisters(services, order, (ServiceName(app), uri));
    RunInTwo(parse, w, FullTick(order, |ms|), [Advance(true)]);
    var w1 := RunFrom(parse, w, FullTick(order, |ms|));
    assert [Advance(true)][1..] == [];
    assert RunFrom(parse, w1, [Advance(true)]) == Next(parse, w1, Advance(true));
  }

  /** Up to the received listing: the service is gone by then. */
  lemma LateTickStarts(parse: Parser, w: World, order: seq<string>, app: string)
    requires w.code == Do(DeleteService(app), Halt(Ok)) && Drained(w) && w.tick.None?
    requires Enumerates(order, w.cluster.services.Keys) && ListRoutes(w.cluster.services, order).Some?
    requires ServiceName(app) in w.cluster.services
    ensures RunFrom(parse, w, [ListTick(true, order), Advance(true), SendTick, Receive]) ==
      w.(code := Halt(Ok), cluster := w.cluster.(services := w.cluster.services - {ServiceName(app)}),
         outbox := Messages(ListRoutes(w.cluster.services, order).value))
  {
    hide ListRoutes, Messages, StepInstances, StepIngress;
    var b := ListRoutes(w.cluster.services, order).value;
    var start := [ListTick(true, order), Advance(true), SendTick, Receive];
    var gone := w.cluster.(services := w.cluster.services - {ServiceName(app)});
    var w1 := w.(tick := Some(b));
    var w2 := w1.(code := Halt(Ok), cluster := gone);
    var w3 := w2.(tick := None, queue := [b]);
    var w4 := w2.(tick := None, outbox := Messages(b));
    assert Next(parse, w, ListTick(true, order)) == w1;
    assert Next(parse, w1, Advance(true)) == w2;
    assert Next(parse, w2, SendTick) == w3;
    assert Next(parse, w3, Receive) == w4;
    hide Next;
    assert start[1..] == [Advance(true), SendTick, Receive] && start[1..][1..] == [SendTick, Receive];
    assert [SendTick, Receive][1..] == [Receive] && [Receive][1..] == [];
    assert RunFrom(parse, w3, [Receive]) == w4;
    assert RunFrom(parse, w2, [SendTick, Receive]) == w4;
    assert RunFrom(parse, w1, start[1..]) == w4;
  }

  /** A listing delivered after its service was deleted does the same. */
  lemma LateTickOrphansRoutes(parse: Parser, w: World, order: seq<string>, app: string, uri: string)
    requires w.code == Do(DeleteService(app), Halt(Ok)) && Drained(w) && w.tick.None?
    requires Enumerates(order, w.cluster.services.Keys) && ListRoutes(w.cluster.services, order).Some?
    requires Announces(w.cluster.services, (ServiceName(app), uri))
    ensures var ms := Messages(ListRoutes(w.cluster.services, order).value);
      var w' := RunFrom(parse, w, [ListTick(true, order), Advance(true), SendTick, Receive] + PublishAll(|ms|));
      w'.code == Halt(Ok) && Drained(w') && ServiceName(app) !in w'.cluster.services
      && (ServiceName(app), uri) in w'.router
  {
    hide Next, RunFrom, ListRoutes, IsAppService, Registrations, Messages, ApplyAll;
    var services := w.cluster.services;
    var ms := Messages(ListRoutes(services, order).value);
    var start := [ListTick(true, order), Advance(true), SendTick, Receive];
    LateTickStarts(parse, w, order, app);
    var w4 := RunFrom(parse, w, start);
    RunInTwo(parse, w, start, PublishAll(|ms|));
    PublishingSettles(parse, w4);
    ListingIsHeld(services, order);
    ApplyRegisters(w4.router, ms);
    ListingRegisters(services, order, (ServiceName(app), uri));
  }
}
