/** What one collector tick restores, while operations, other ticks and the emitter go on around it. */
module Restore {
  import opened Names
  import opened Wrappers
  import opened Model
  import opened Protocol
  import opened Router
  import opened Runs
  import opened Safety
  import opened Reachable
  import opened Sync
  import opened Ticks

  /** Every announced route is in the table, except those of a service that `Stop` is about to delete. */
  ghost predicate Covered(table: Table, services: Services, going: Option<string>) {
    forall p | Announces(services, p) && going != Some(p.0) :: p in table
  }

  /** Once all is published, the router has every announced route, except those of a service about to go. */
  ghost predicate WillCover(w: World) {
    Covered(Settled(w), w.cluster.services, Going(w.code))
  }

  // ----- from the listing to its delivery -----

  /** The pending listing has every announced route. */
  ghost predicate Complete(w: World) {
    w.tick.Some? ==> Covered(Registrations(Messages(w.tick.value)), w.cluster.services, None)
  }

  /** The action does not write an app service while a listing is pending. */
  predicate KeepsListing(w: World, a: Action) {
    w.tick.Some? && a == Advance(true) && w.code.Do? ==> !WritesRoutes(w.code.call)
  }

  lemma NextKeepsComplete(parse: Parser, h: History, w: World, a: Action)
    requires GoodWorld(parse, h, w) && Complete(w) && KeepsListing(w, a)
    ensures Complete(Next(parse, w, a))
  {
    hide GoodCluster, Ready, AllJustified, Step, Messages, Registrations, Announces, ListRoutes;
    if a.Advance? && w.code.Do? {
      CallKeepsListing(parse, h, w.cluster, w.code.call, w.code.rest, a.ok);
    }
    var w' := Next(parse, w, a);
    if a.ListTick? && w' != w && w'.tick.Some? {
      forall p | Announces(w.cluster.services, p) ensures p in Registrations(Messages(w'.tick.value)) {
        ListingRegisters(w.cluster.services, a.order, p);
        AnnouncesStored(w.cluster.services, p);
      }
    }
  }

  lemma AnnouncesStored(services: Services, p: (string, string))
    ensures Announces(services, p) ==> p.0 in services
  {
  }

  /** No listing was pending `l` actions into the run, and none lost a service write between then and now. */
  lemma {:induction false} ListingIsComplete(parse: Parser, foreign: Services, run: seq<Action>, l: nat, d: nat)
    requires Foreign(foreign) && l <= d <= |run| && After(parse, foreign, run[..l]).tick.None?
    requires forall k | l <= k < d :: KeepsListing(After(parse, foreign, run[..k]), run[k])
    ensures Complete(After(parse, foreign, run[..d]))
    decreases d
  {
    hide Next, After, GoodWorld, KeepsListing;
    if d > l {
      var n := d - 1;
      ListingIsComplete(parse, foreign, run, l, n);
      AfterLast(parse, foreign, run, n);
      RunIsGood(parse, foreign, run[..n]);
      NextKeepsComplete(parse, Past(parse, foreign, run[..n]), After(parse, foreign, run[..n]), run[n]);
    }
  }

  /** What the batch about to be sent withdraws is not announced, or belongs to the service about to go. */
  lemma RevivedCovers(parse: Parser, h: History, w: World)
    requires GoodWorld(parse, h, w) && w.tick.Some? && Complete(w)
    ensures Covered(Revived(w), w.cluster.services, Going(w.code))
  {
    hide GoodCluster, AllJustified, IsAppService, Messages, Registrations, ValidApp, Announced;
    var table := Registrations(Messages(w.tick.value));
    if w.code.Do? && w.code.call.Send? {
      var r := w.code.call.batch[0];
      assert w.code.call.batch == [r];
      EntryApplies(table, r);
      forall p | Announces(w.cluster.services, p) && Going(w.code) != Some(p.0) ensures p in Revived(w) {
        assert p in table && p == (p.0, p.1);
      }
    } else {
      assert Unsent(w.code) == [] && Surviving(table, []) == table;
    }
  }

  lemma DeliveryCovers(parse: Parser, h: History, w: World)
    requires GoodWorld(parse, h, w) && w.tick.Some? && Complete(w)
    ensures WillCover(Next(parse, w, SendTick))
  {
    hide GoodWorld, Complete, Announces, Settled, Revived, Going;
    TickSettles(parse, h, w);
    RevivedCovers(parse, h, w);
  }

  // ----- after the delivery -----

  /** Nothing is lost: no publish fails, nor the deletion of a service whose routes `Stop` has unregistered. */
  predicate LossFree(w: World, a: Action) {
    a != Publish(false) && (a == Advance(false) && w.code.Do? ==> !w.code.call.DeleteService?)
  }

  /** An entry that registers what its service now announces, or unregisters a service about to go. */
  lemma CoveredAfterEntry(table: Table, was: Services, now: Services, r: Routes, going: Option<string>)
    requires Covered(table, was, None)
    requires forall s | s != r.name :: Announced(now, s) == Announced(was, s)
    requires going == Some(r.name) || forall u | Announces(now, (r.name, u)) :: u in r.routes && u !in r.unregistered
    ensures Covered(ApplyAll(table, Messages([r])), now, going)
  {
    hide IsAppService;
    EntryApplies(table, r);
    forall p | Announces(now, p) && going != Some(p.0) ensures p in ApplyAll(table, Messages([r])) {
      assert p == (p.0, p.1);
      if p.0 != r.name { assert Announces(was, p); }
    }
  }

  lemma CreateServiceCovers(parse: Parser, h: History, c: Cluster, table: Table, lrp: LRP, rest: Code)
    requires GoodCluster(parse, h, c) && Ready(parse, h, c, Do(CreateService(lrp), rest))
    requires Covered(table, c.services, None)
    ensures var s := StepServices(c, CreateService(lrp), rest);
      Covered(ApplyAll(table, Unsent(s.code)), s.cluster.services, None) && Going(s.code) == None
  {
    hide GoodCluster, ValidApp, IsAppService, Messages;
    var s := StepServices(c, CreateService(lrp), rest);
    if s.code.Do? {
      var r := Routes(ServiceName(lrp.name), Uris(lrp).uris, []);
      CoveredAfterEntry(table, c.services, s.cluster.services, r, None);
    }
  }

  lemma StoreServiceCovers(parse: Parser, h: History, c: Cluster, table: Table, service: Service, rest: Code)
    requires GoodCluster(parse, h, c) && Ready(parse, h, c, Do(StoreService(service), rest))
    requires Covered(table, c.services, None)
    ensures var s := StepServices(c, StoreService(service), rest);
      Covered(ApplyAll(table, Unsent(s.code)), s.cluster.services, None) && Going(s.code) == None
  {
    hide GoodCluster, ValidApp, IsAppService, Messages;
    var s := StepServices(c, StoreService(service), rest);
    assert Announced(s.cluster.services, service.name) == Some(Uris(rest.rest.call.lrp).uris);
    CoveredAfterEntry(table, c.services, s.cluster.services, rest.call.batch[0], None);
  }

  lemma FetchDoomedCovers(parse: Parser, h: History, c: Cluster, table: Table, app: string, rest: Code)
    requires GoodCluster(parse, h, c) && Ready(parse, h, c, Do(FetchDoomed(app), rest))
    requires Covered(table, c.services, None)
    ensures var s := StepServices(c, FetchDoomed(app), rest);
      Covered(ApplyAll(table, Unsent(s.code)), s.cluster.services, Going(s.code))
  {
    hide GoodCluster, ValidApp, IsAppService, Messages;
    var s := StepServices(c, FetchDoomed(app), rest);
    FetchDoomedGoes(c, app, rest);
    if s.code.Do? {
      CoveredAfterEntry(table, c.services, s.cluster.services, s.code.call.batch[0], Going(s.code));
    }
  }

  lemma DeleteServiceCovers(c: Cluster, table: Table, app: string, rest: Code)
    requires rest == Halt(Ok) && Covered(table, c.services, Some(ServiceName(app)))
    ensures var s := StepServices(c, DeleteService(app), rest);
      Covered(ApplyAll(table, Unsent(s.code)), s.cluster.services, Going(s.code))
  {
    hide IsAppService;
    var s := StepServices(c, DeleteService(app), rest);
    forall p | Announces(s.cluster.services, p) ensures p in table {
      assert Announces(c.services, p);
    }
  }

  lemma AdvanceKeepsCovered(parse: Parser, h: History, w: World, ok: bool)
    requires GoodWorld(parse, h, w) && w.code.Do? && LossFree(w, Advance(ok)) && WillCover(w)
    ensures WillCover(Next(parse, w, Advance(ok)))
  {
    hide GoodCluster, Flatten, StepInstances, StepServices, StepIngress, Announces, Settled, AllJustified, ReadyStore;
    var c, call, rest, table := w.cluster, w.code.call, w.code.rest, Settled(w);
    AdvanceSettles(parse, h, w, ok);
    CallKeepsListing(parse, h, c, call, rest, ok);
    if !ok && !call.Send? {
    } else if call.CreateService? {
      CreateServiceCovers(parse, h, c, table, call.lrp, rest);
    } else if call.StoreService? {
      StoreServiceCovers(parse, h, c, table, call.service, rest);
    } else if call.FetchDoomed? {
      FetchDoomedCovers(parse, h, c, table, call.app, rest);
    } else if call.DeleteService? {
      DeleteServiceCovers(c, table, call.app, rest);
    } else if !call.Send? {
      QuietStepInside(parse, h, c, call, rest, ok);
    }
  }

  lemma NextKeepsCovered(parse: Parser, h: History, w: World, a: Action)
    requires GoodWorld(parse, h, w) && LossFree(w, a) && WillCover(w)
    ensures WillCover(Next(parse, w, a))
  {
    hide GoodWorld, Settled, Step, Messages, Registrations, Announces, Enumerates, ListRoutes, Revived;
    match a
    case Advance(ok) => if w.code.Do? { AdvanceKeepsCovered(parse, h, w, ok); }
    case SendTick => if w.tick.Some? { TickSettles(parse, h, w); }
    case Begin(op) => SettledUnchanged(w, Next(parse, w, a));
    case ListTick(_, _) => SettledUnchanged(w, Next(parse, w, a));
    case _ => EmitterSettles(parse, w, a);
  }

  /** From the delivery on, every announced route stays covered. */
  lemma {:induction false} StaysCovered(parse: Parser, foreign: Services, run: seq<Action>, d: nat, n: nat)
    requires Foreign(foreign) && d < n <= |run| && run[d] == SendTick
    requires After(parse, foreign, run[..d]).tick.Some? && Complete(After(parse, foreign, run[..d]))
    requires forall k | d < k < n :: LossFree(After(parse, foreign, run[..k]), run[k])
    ensures WillCover(After(parse, foreign, run[..n]))
    decreases n
  {
    hide Next, After, Past, GoodWorld, Complete, WillCover, LossFree;
    var m := n - 1;
    AfterLast(parse, foreign, run, m);
    RunIsGood(parse, foreign, run[..m]);
    if m == d {
      DeliveryCovers(parse, Past(parse, foreign, run[..m]), After(parse, foreign, run[..m]));
    } else {
      StaysCovered(parse, foreign, run, d, m);
      NextKeepsCovered(parse, Past(parse, foreign, run[..m]), After(parse, foreign, run[..m]), run[m]);
    }
  }

  /**
   A tick restores equality for every app and URI, whatever goes on around it: no service is written
   between its listing (after the `l`-th state) and its delivery (action `d`), nothing is lost afterwards,
   and the run ends drained and in sync, not just before a deletion.
   */
  lemma TickRestores(parse: Parser, foreign: Services, run: seq<Action>, l: nat, d: nat, p: (string, string))
    requires Foreign(foreign) && l <= d < |run| && run[d] == SendTick
    requires After(parse, foreign, run[..l]).tick.None? && After(parse, foreign, run[..d]).tick.Some?
    requires forall k | l <= k < d :: KeepsListing(After(parse, foreign, run[..k]), run[k])
    requires forall k | d < k < |run| :: LossFree(After(parse, foreign, run[..k]), run[k])
    requires var w := After(parse, foreign, run); InSync(w) && Drained(w) && Going(w.code).None?
    ensures var w := After(parse, foreign, run); p in w.router <==> Announces(w.cluster.services, p)
  {
    hide After, Complete, KeepsListing, LossFree, Announces;
    ListingIsComplete(parse, foreign, run, l, d);
    StaysCovered(parse, foreign, run, d, |run|);
    assert run[..|run|] == run;
    DrainedIsSettled(After(parse, foreign, run));
  }

  lemma DrainedIsSettled(w: World)
    requires Drained(w)
    ensures Settled(w) == w.router
  {
    assert w.outbox + Flatten(w.queue) + Unsent(w.code) == [];
  }

  /** On the quiet schedule any delivered tick does, once nothing is lost after it and all is published. */
  lemma QuietTickRestores(parse: Parser, foreign: Services, run: seq<Action>, d: nat, p: (string, string))
    requires Foreign(foreign) && QuietRun(parse, foreign, run)
    requires d < |run| && run[d] == SendTick && After(parse, foreign, run[..d]).tick.Some?
    requires forall k | d < k < |run| :: LossFree(After(parse, foreign, run[..k]), run[k])
    requires var w := After(parse, foreign, run); Drained(w) && Going(w.code).None?
    ensures var w := After(parse, foreign, run); p in w.router <==> Announces(w.cluster.services, p)
  {
    hide InSync, Clean, LossFree, Announces, Going, Drained;
    QuietRunInSync(parse, foreign, run);
    assert run[..0] == [];
    forall k | 0 <= k < d ensures KeepsListing(After(parse, foreign, run[..k]), run[k]) {
      assert Quiet(After(parse, foreign, run[..k]), run[k]);
    }
    TickRestores(parse, foreign, run, 0, d, p);
  }
}
