/** bifrost/bifrost.go: Cloud Controller's requests turned into operations on LRPs. */
module Bifrost {
  import opened Names
  import opened Wrappers
  import opened Model
  import opened Protocol
  import opened Client
  import opened Desirer
  import opened ServiceManager
  import Effects
  import I = Instances
  import Reachable
  import Results
  import Router
  import Runs
  import Safety
  import Ticks

  datatype RouteEntry = RouteEntry(hostnames: seq<string>, port: int)

  /** The raw JSON of one router's routes: a list of entries, or text that does not decode to one. */
  datatype RouterRoutes = Entries(entries: seq<RouteEntry>) | Malformed

  datatype DesireLRPRequest = DesireLRPRequest(processGuid: string, numInstances: int, lastUpdated: string)

  datatype VcapApp = VcapApp(appId: string, appName: string, version: string, uris: seq<string>)

  /**
   The converter: `vcap` is None when the application's JSON does not decode, `image` when the droplet
   could not be fetched or staged; `env` is the request's environment with the launcher's.
   */
  function Convert(request: DesireLRPRequest, vcap: Option<VcapApp>, image: Option<string>, env: map<string, string>)
    : Option<LRP>
  {
    if vcap.None? || image.None? then None
    else
      var app := vcap.value;
      Some(LRP(app.appId, image.value, ["/lifecycle/launch"], env, request.numInstances, 0, map[
        "application_name" := Plain(app.appName), "application_id" := Plain(app.appId),
        "version" := Plain(app.version), VCAP_APP_URIS := UriList(app.uris),
        PROCESS_GUID := Plain(request.processGuid), LAST_UPDATED := Plain(request.lastUpdated)]))
  }

  /** The transferred app runs as many instances of the image as requested, and announces the routes it came with. */
  predicate TransferredTo(c: Cluster, request: DesireLRPRequest, vcap: VcapApp, image: string,
                          env: map<string, string>) {
    && vcap.appId in c.statefulSets && "cf-" + vcap.appId in c.services
    && var instance, service := c.statefulSets[vcap.appId], c.services["cf-" + vcap.appId];
    && instance.image == image && instance.command == ["/lifecycle/launch"] && instance.env == env
    && Results.Stored32(instance.replicas, request.numInstances)
    && instance.annotations == map[
         "application_name" := Plain(vcap.appName), "application_id" := Plain(vcap.appId),
         "version" := Plain(vcap.version), "application_uris" := UriList(vcap.uris),
         "process_guid" := Plain(request.processGuid), "last_updated" := Plain(request.lastUpdated)]
    && "routes" in service.annotations && service.annotations["routes"] == UriList(vcap.uris)
  }

  lemma ConvertedIsTransferred(parse: Parser, before: Cluster, request: DesireLRPRequest, vcap: VcapApp,
                               image: string, env: map<string, string>)
    ensures forall after, sent |
      Results.Deployed(parse, before, after, Convert(request, Some(vcap), Some(image), env).value, sent) ::
        TransferredTo(after, request, vcap, image, env)
  {
    hide Results.Routed, Results.Stored32;
  }

  /** `Desire` is only called with what the converter made of some request. */
  ghost predicate Transferred(a: Runs.Action) {
    a.Begin? && a.op.Desire? ==>
      exists request, vcap, image, env :: Convert(request, vcap, image, env) == Some(a.op.lrp)
  }

  /** Nothing that comes in through `Transfer` panics, and no answered listing fails on its services. */
  lemma TransferredAppsAreSafe(parse: Parser, foreign: map<string, Service>, run: seq<Runs.Action>, order: seq<string>)
    requires Runs.Foreign(foreign) && forall a | a in run :: Transferred(a)
    ensures var w := Runs.After(parse, foreign, run);
      && w.code != Halt(Panic)
      && (Router.Enumerates(order, w.cluster.services.Keys) ==> Router.ListRoutes(w.cluster.services, order).Some?)
  {
    hide Runs.After, Runs.Foreign, Router.ListRoutes, Router.Enumerates;
    forall a | a in run ensures I.HasMetadata(a) && Ticks.DesiresDecodable(a) {
      if a.Begin? && a.op.Desire? {
        assert Transferred(a);
        var request, vcap, image, env :| Convert(request, vcap, image, env) == Some(a.op.lrp);
        assert LAST_UPDATED in a.op.lrp.metadata;
      }
    }
    I.NeverPanics(parse, foreign, run);
    Ticks.ListingsSucceed(parse, foreign, run, order);
  }

  /** The instance that a lookup by `guid` finds, as `Update` does it, is the one of `app`. */
  predicate Reaches(instances: map<string, StatefulSet>, guid: string, app: string) {
    guid in instances && instances[guid].name == app
  }

  /**
   Identity through the whole system: the app is stored under its application ID and listed under the
   process GUID it came with, and that GUID leads back to the app exactly when the two agree.
   */
  lemma ReportedGuidReachesExactly(parse: Parser, foreign: map<string, Service>, run: seq<Runs.Action>, app: string)
    requires Runs.Foreign(foreign) && forall a | a in run :: Transferred(a)
    requires app in Runs.After(parse, foreign, run).cluster.statefulSets
    ensures var instances := Runs.After(parse, foreign, run).cluster.statefulSets;
      exists request, vcap, image, env ::
        var lrp := Convert(request, vcap, image, env);
        && lrp.Some? && Runs.Begin(Op.Desire(lrp.value)) in run && vcap.value.appId == app
        && I.Info(ToLRP(instances[app])).processGuid == Plain(request.processGuid)
        && (Reaches(instances, request.processGuid, app) <==> request.processGuid == app)
  {
    hide Runs.After, Runs.Foreign, I.LedgerAfter, ToLRP, I.Info;
    var instances, l := Runs.After(parse, foreign, run).cluster.statefulSets, I.LedgerAfter(parse, foreign, run);
    I.InstancesOriginate(parse, foreign, run);
    I.ListReportsLedger(parse, foreign, run, app);
    Reachable.RunIsGood(parse, foreign, run);
    var begin := Runs.Begin(Op.Desire(l[app].created));
    assert Transferred(begin);
    var request, vcap, image, env :| Convert(request, vcap, image, env) == Some(l[app].created);
    NamedByKey(parse, Safety.Past(parse, foreign, run), Runs.After(parse, foreign, run));
    assert Convert(request, vcap, image, env).Some?;
  }

  lemma NamedByKey(parse: Parser, h: Safety.History, w: Runs.World)
    requires Reachable.GoodWorld(parse, h, w)
    ensures forall k | k in w.cluster.statefulSets :: w.cluster.statefulSets[k].name == k
  {
  }

  /** Idle after a successful operation, with an app listed under a GUID that `Update` does not find. */
  predicate Misses(w: Runs.World, app: string, guid: string) {
    && w.code == Halt(Ok) && app in w.cluster.statefulSets
    && I.Info(ToLRP(w.cluster.statefulSets[app])).processGuid == Plain(guid) && guid !in w.cluster.statefulSets
  }

  /** A process GUID that is not the application ID: every request succeeds, and the app is out of `Update`'s reach. */
  lemma ReportedGuidCanMiss(parse: Parser, request: DesireLRPRequest, vcap: VcapApp,
                            image: string, env: map<string, string>)
    requires ValidApp(vcap.appId) && AllParse(parse, vcap.uris) && request.processGuid != vcap.appId
    ensures exists run :: Misses(Runs.After(parse, map[], run), vcap.appId, request.processGuid)
  {
    hide Finish, CodeOf, ValidApp, Runs.After, Rules, AllParse, Effects.WithRules, ToService, ToHeadlessService;
    var lrp := Convert(request, Some(vcap), Some(image), env).value;
    var healthy, start := Env(parse, _ => true), Runs.Start(map[]).cluster;
    assert Uris(lrp) == UriList(vcap.uris);
    Effects.DesireOk(healthy, start, lrp, 0);
    Runs.OperationsAreARun(healthy, map[], [Op.Desire(lrp)]);
    var f := Finish(healthy, start, CodeOf(Op.Desire(lrp)), 0);
    Runs.InTurn(healthy, start, Op.Desire(lrp), Op.Desire(lrp));
    var run :| Runs.After(parse, map[], run) ==
      Runs.Start(map[]).(cluster := f.cluster, code := Halt(f.outcome), queue := f.sent);
    assert Misses(Runs.After(parse, map[], run), vcap.appId, request.processGuid);
  }

  type Int32 = n: int | -0x8000_0000 <= n < 0x8000_0000

  /** The update's pointers may be nil. */
  datatype UpdateRequest = UpdateRequest(
    processGuid: string, instances: Option<Int32>, annotation: Option<string>,
    routes: Option<map<string, RouterRoutes>>)

  function Hostnames(entries: seq<RouteEntry>): seq<string> {
    if entries == [] then [] else entries[0].hostnames + Hostnames(entries[1..])
  }

  /** The URIs an update asks for: none without `cf-router` routes, an error when they do not decode. */
  function RequestedUris(update: UpdateRequest): Option<seq<string>> {
    if update.routes.None? || "cf-router" !in update.routes.value then Some([])
    else
      match update.routes.value["cf-router"]
      case Malformed => None
      case Entries(entries) => Some(Hostnames(entries))
  }

  predicate RoutesAvailable(routes: Option<map<string, RouterRoutes>>) {
    routes.Some? && "cf-router" in routes.value
  }

  lemma {:induction false} HostnamesAppend(a: seq<RouteEntry>, b: seq<RouteEntry>)
    ensures Hostnames(a + b) == Hostnames(a) + Hostnames(b)
  {
    if a == [] {
      assert a + b == b;
    } else {
      assert (a + b)[1..] == a[1..] + b;
      HostnamesAppend(a[1..], b);
    }
  }

  /** `uris` are the hostname lists of the entries, each complete and in turn; entry `i` starts at position `at[i]`. */
  predicate Concatenates(entries: seq<RouteEntry>, uris: seq<string>, at: seq<nat>) {
    && |at| == |entries| + 1 && at[0] == 0 && at[|entries|] == |uris|
    && forall i | 0 <= i < |entries| ::
         at[i + 1] == at[i] + |entries[i].hostnames| <= |uris| && uris[at[i]..at[i + 1]] == entries[i].hostnames
  }

  /** The URIs asked for: none without `cf-router` routes, otherwise every hostname of every entry, in order. */
  ghost predicate Asked(update: UpdateRequest, uris: seq<string>) {
    if update.routes.None? || "cf-router" !in update.routes.value then uris == []
    else
      && update.routes.value["cf-router"].Entries?
      && exists at :: Concatenates(update.routes.value["cf-router"].entries, uris, at)
  }

  lemma {:induction false} OffsetsGrow(entries: seq<RouteEntry>, uris: seq<string>, at: seq<nat>, i: nat, j: nat)
    requires Concatenates(entries, uris, at) && i <= j <= |entries|
    ensures at[i] <= at[j]
    decreases j
  {
    if i < j {
      OffsetsGrow(entries, uris, at, i, j - 1);
    }
  }

  lemma HostnamesOfLast(entries: seq<RouteEntry>)
    requires entries != []
    ensures var n := |entries| - 1; Hostnames(entries) == Hostnames(entries[..n]) + entries[n].hostnames
  {
    var n := |entries| - 1;
    assert entries == entries[..n] + [entries[n]];
    HostnamesAppend(entries[..n], [entries[n]]);
  }

  lemma {:induction false} HostnamesConcatenate(entries: seq<RouteEntry>) returns (at: seq<nat>)
    ensures Concatenates(entries, Hostnames(entries), at)
    decreases |entries|
  {
    if entries == [] {
      at := [0];
    } else {
      var n, uris := |entries| - 1, Hostnames(entries);
      var before := HostnamesConcatenate(entries[..n]);
      HostnamesOfLast(entries);
      at := before + [|uris|];
      forall i | 0 <= i < |entries|
        ensures at[i + 1] == at[i] + |entries[i].hostnames| <= |uris| && uris[at[i]..at[i + 1]] == entries[i].hostnames
      {
        if i < n {
          assert uris[at[i]..at[i + 1]] == Hostnames(entries[..n])[before[i]..before[i + 1]];
        }
      }
    }
  }

  /** The last entry's hostnames come last, and those before them belong to the entries before it. */
  lemma AllButLast(entries: seq<RouteEntry>, uris: seq<string>, at: seq<nat>) returns (from: nat)
    requires Concatenates(entries, uris, at) && entries != []
    ensures |at| == |entries| + 1 && from <= |uris|
    ensures var n := |entries| - 1;
      Concatenates(entries[..n], uris[..from], at[..n + 1]) && uris[from..] == entries[n].hostnames
  {
    var n := |entries| - 1;
    from := at[n];
    OffsetsGrow(entries, uris, at, n, n + 1);
    var init, before, start := entries[..n], uris[..at[n]], at[..n + 1];
    forall i | 0 <= i < |init|
      ensures start[i + 1] == start[i] + |init[i].hostnames| <= |before|
      ensures before[start[i]..start[i + 1]] == init[i].hostnames
    {
      OffsetsGrow(entries, uris, at, i + 1, n);
      assert before[at[i]..at[i + 1]] == uris[at[i]..at[i + 1]];
    }
  }

  lemma {:induction false} ConcatenationIsUnique(entries: seq<RouteEntry>, uris: seq<string>, at: seq<nat>)
    requires Concatenates(entries, uris, at)
    ensures uris == Hostnames(entries)
    decreases |entries|
  {
    if entries == [] {
      assert |uris| == 0;
    } else {
      hide Concatenates, Hostnames;
      var n := |entries| - 1;
      var from := AllButLast(entries, uris, at);
      ConcatenationIsUnique(entries[..n], uris[..from], at[..n + 1]);
      HostnamesOfLast(entries);
      assert uris == uris[..from] + uris[from..];
    }
  }

  /** The two agree: a request has the URIs it asks for, and no others. */
  lemma AskedExactly(update: UpdateRequest, uris: seq<string>)
    ensures RequestedUris(update) == Some(uris) <==> Asked(update, uris)
    ensures RequestedUris(update).None? <==>
      update.routes.Some? && "cf-router" in update.routes.value && update.routes.value["cf-router"].Malformed?
  {
    hide Hostnames, Concatenates;
    if update.routes.Some? && "cf-router" in update.routes.value && update.routes.value["cf-router"].Entries? {
      var entries := update.routes.value["cf-router"].entries;
      var at := HostnamesConcatenate(entries);
      if at' :| Concatenates(entries, uris, at') {
        ConcatenationIsUnique(entries, uris, at');
      }
    }
  }

  method GetURIs(update: UpdateRequest) returns (uris: Option<seq<string>>)
    ensures uris == RequestedUris(update)
    ensures uris.Some? ==> Asked(update, uris.value)
    ensures uris.None? <==>
      update.routes.Some? && "cf-router" in update.routes.value && update.routes.value["cf-router"].Malformed?
  {
    hide Asked;
    AskedExactly(update, if RequestedUris(update).Some? then RequestedUris(update).value else []);
    if !RoutesAvailable(update.routes) {
      return Some([]);
    }
    match update.routes.value["cf-router"] {
      case Malformed => return None;
      case Entries(routes) =>
        var hostnames := [];
        for i := 0 to |routes|
          invariant hostnames == Hostnames(routes[..i])
        {
          HostnamesAppend(routes[..i], [routes[i]]);
          assert routes[..i + 1] == routes[..i] + [routes[i]];
          hostnames := hostnames + routes[i].hostnames;
        }
        assert routes[..|routes|] == routes;
        return Some(hostnames);
    }
  }

  method ToDesiredLRPSchedulingInfo(lrps: seq<LRP>) returns (infos: seq<I.SchedulingInfo>)
    ensures |infos| == |lrps| && forall i | 0 <= i < |lrps| :: infos[i] == I.Info(lrps[i])
  {
    infos := [];
    for i := 0 to |lrps|
      invariant |infos| == i && forall k | 0 <= k < i :: infos[k] == I.Info(lrps[k])
    {
      infos := infos + [I.Info(lrps[i])];
    }
  }

  /** What is reported of a stored instance. */
  predicate Reports(info: I.SchedulingInfo, s: StatefulSet) {
    && info.processGuid == (if "process_guid" in s.annotations then s.annotations["process_guid"] else Plain(""))
    && info.annotation == (if "last_updated" in s.annotations then s.annotations["last_updated"] else Plain(""))
  }

  lemma ReportsInstances()
    ensures forall s :: Reports(I.Info(ToLRP(s)), s)
  {
  }

  class Bifrost {
    const desirer: Desirer

    constructor (desirer: Desirer)
      ensures this.desirer == desirer
    {
      this.desirer := desirer;
    }

    /** A request that does not convert reaches nothing. */
    method Transfer(request: DesireLRPRequest, vcap: Option<VcapApp>, image: Option<string>, env: map<string, string>)
      returns (o: Outcome)
      requires desirer.Wired()
      modifies desirer.Client(), desirer.serviceManager.routesChan
      ensures var lrp := Convert(request, vcap, image, env);
        if lrp.None? then
          && o.Err? && desirer.Client().Snapshot() == old(desirer.Client().Snapshot())
          && desirer.serviceManager.routesChan.queue == old(desirer.serviceManager.routesChan.queue)
        else
          var f := Finish(desirer.Environment(), old(desirer.Client().Snapshot()), CodeOf(Op.Desire(lrp.value)),
                          old(desirer.Client().requests));
          && desirer.Client().Snapshot() == f.cluster && o == f.outcome
          && desirer.serviceManager.routesChan.queue == old(desirer.serviceManager.routesChan.queue) + f.sent
      ensures Convert(request, vcap, image, env).Some? <==> vcap.Some? && image.Some?
      ensures o.Ok? ==>
        && vcap.Some? && image.Some?
        && (old(desirer.WellNamed()) && vcap.value.appId !in old(desirer.Client().statefulSets) ==>
              TransferredTo(desirer.Client().Snapshot(), request, vcap.value, image.value, env))
    {
      hide Finish, CodeOf, Results.Deployed, TransferredTo;
      if vcap.Some? && image.Some? {
        ConvertedIsTransferred(desirer.ingressManager.parse, desirer.Client().Snapshot(),
                               request, vcap.value, image.value, env);
      }
      var desiredLRP := Convert(request, vcap, image, env);
      if desiredLRP.None? {
        return Err;
      }
      o := desirer.Desire(desiredLRP.value);
    }

    /** One entry per stored StatefulSet. */
    method List() returns (infos: Option<seq<I.SchedulingInfo>>)
      requires desirer.Wired()
      modifies desirer.Client()`requests
      ensures infos.Some? <==> desirer.Client().healthy(old(desirer.Client().requests))
      ensures infos.Some? ==>
        exists items :: Listing(desirer.Client().statefulSets, items) && |items| == |infos.value|
          && (forall i | 0 <= i < |items| :: infos.value[i] == I.Info(ToLRP(items[i])))
          && (forall i | 0 <= i < |items| :: Reports(infos.value[i], items[i]))
    {
      hide I.Info, ToLRP, Listing, Reports;
      var lrps := desirer.instanceManager.List();
      if lrps.None? {
        return None;
      }
      var found := ToDesiredLRPSchedulingInfo(lrps.value);
      ReportsInstances();
      infos := Some(found);
    }

    /** The LRP handed to the desirer: the stored one with count, last-updated value and URIs of the update. */
    function Requested(stored: LRP, count: Int32, annotation: string, uris: seq<string>): LRP {
      stored.(targetInstances := count,
              metadata := stored.metadata[LAST_UPDATED := Plain(annotation)][VCAP_APP_URIS := UriList(uris)])
    }

    /**
     What a successful update leaves: the stored instance with only replicas and last-updated value
     changed, the service announcing exactly the requested URIs, the app's rules built from exactly
     them, everything else untouched, and one batch with the difference.
     */
    ghost predicate Updated(before: Cluster, after: Cluster, update: UpdateRequest, sent: seq<Batch>) {
      && update.instances.Some? && update.annotation.Some?
      && exists uris :: Asked(update, uris) && UpdatedTo(before, after, update, uris, sent)
    }

    ghost predicate UpdatedTo(before: Cluster, after: Cluster, update: UpdateRequest, uris: seq<string>,
                              sent: seq<Batch>)
      requires update.instances.Some? && update.annotation.Some?
    {
      var guid, s := update.processGuid, "cf-" + update.processGuid;
      && guid in before.statefulSets && s in before.services
      && "routes" in before.services[s].annotations && before.services[s].annotations["routes"].UriList?
      && var instance, service := before.statefulSets[guid], before.services[s];
      && after.statefulSets == before.statefulSets[guid := instance.(
           replicas := update.instances.value,
           annotations := instance.annotations["last_updated" := Plain(update.annotation.value)])]
      && after.services == before.services[s := service.(annotations := service.annotations["routes" := UriList(uris)])]
      && Results.Routed(desirer.ingressManager.parse, before.ingress, after.ingress, s, uris)
      && exists gone, at ::
           TakesMissing(service.annotations["routes"].uris, uris, gone, at) && sent == [[Routes(s, uris, gone)]]
    }

    /** A request that stops before the desirer: the app is not found, a pointer is nil, or the routes do not decode. */
    function Refusal(stored: Option<StatefulSet>, update: UpdateRequest): Option<Outcome> {
      if stored.None? then Some(Err)
      else if update.instances.None? || update.annotation.None? then Some(Panic)
      else if RequestedUris(update).None? then Some(Err)
      else None
    }

    /** The stored instance, if the first request is answered. */
    function Found(c: Cluster, app: string, healthy: bool): Option<StatefulSet> {
      if healthy && app in c.statefulSets then Some(c.statefulSets[app]) else None
    }

    /** A refused request changes nothing; any other one is the desirer's update with the requested LRP. */
    method Update(update: UpdateRequest) returns (o: Outcome)
      requires desirer.Wired() && desirer.Addressed(update.processGuid)
      modifies desirer.Client(), desirer.serviceManager.routesChan
      ensures var before, n := old(desirer.Client().Snapshot()), old(desirer.Client().requests);
        var stored := Found(before, update.processGuid, desirer.Client().healthy(n));
        var refusal := Refusal(stored, update);
        if refusal.Some? then
          && o == refusal.value && desirer.Client().Snapshot() == before
          && desirer.serviceManager.routesChan.queue == old(desirer.serviceManager.routesChan.queue)
        else
          var lrp := Requested(ToLRP(stored.value), update.instances.value, update.annotation.value,
                               RequestedUris(update).value);
          var f := Finish(desirer.Environment(), before, CodeOf(Op.Update(lrp)), n + 1);
          && o == f.outcome && desirer.Client().Snapshot() == f.cluster
          && desirer.serviceManager.routesChan.queue == old(desirer.serviceManager.routesChan.queue) + f.sent
      ensures var n, guid := old(desirer.Client().requests), update.processGuid;
        var found := desirer.Client().healthy(n) && guid in old(desirer.Client().statefulSets);
        var nil := update.instances.None? || update.annotation.None?;
        var malformed := update.routes.Some? && "cf-router" in update.routes.value
                         && update.routes.value["cf-router"].Malformed?;
        && (!found || (!nil && malformed) ==> o.Err?) && (found && nil ==> o.Panic?)
        && (!found || nil || malformed ==>
              && desirer.Client().Snapshot() == old(desirer.Client().Snapshot())
              && desirer.serviceManager.routesChan.queue == old(desirer.serviceManager.routesChan.queue))
      ensures o.Ok? ==>
        && old(desirer.serviceManager.routesChan.queue) <= desirer.serviceManager.routesChan.queue
        && Updated(old(desirer.Client().Snapshot()), desirer.Client().Snapshot(), update,
                   desirer.serviceManager.routesChan.queue[|old(desirer.serviceManager.routesChan.queue)|..])
      ensures old(desirer.WellNamed()) ==> desirer.WellNamed()
    {
      hide Finish, CodeOf, Updated, Results.Rescaled, Lookup;
      ghost var before := desirer.Client().Snapshot();
      var stored := desirer.instanceManager.Get(update.processGuid);
      if stored.None? {
        return Err;
      }
      if update.instances.None? || update.annotation.None? {
        return Panic; // nil pointer
      }
      var hostnames := GetURIs(update);
      if hostnames.None? {
        return Err;
      }
      var lrp := Requested(stored.value, update.instances.value, update.annotation.value, hostnames.value);
      o := desirer.Update(lrp);
      if o.Ok? {
        RequestedUpdates(before, desirer.Client().Snapshot(), update, lrp,
          desirer.serviceManager.routesChan.queue[|old(desirer.serviceManager.routesChan.queue)|..]);
      }
    }

    /** Updating with the LRP that a request leads to is updating as the request asks. */
    lemma RequestedUpdates(before: Cluster, after: Cluster, update: UpdateRequest, lrp: LRP, sent: seq<Batch>)
      requires update.instances.Some? && update.annotation.Some? && RequestedUris(update).Some?
      requires update.processGuid in before.statefulSets
      requires before.statefulSets[update.processGuid].name == update.processGuid
      requires lrp == Requested(ToLRP(before.statefulSets[update.processGuid]), update.instances.value,
                                update.annotation.value, RequestedUris(update).value)
      requires Results.Rescaled(desirer.ingressManager.parse, before, after, lrp, sent)
      ensures Updated(before, after, update, sent)
    {
      hide Results.Routed, TakesMissing, Asked, RequestedUris, Lookup;
      var uris := RequestedUris(update).value;
      AskedExactly(update, uris);
      UrisExactly(lrp, uris);
      assert lrp.metadata["last_updated"] == Plain(update.annotation.value);
      assert UpdatedTo(before, after, update, uris, sent);
    }
  }
}
