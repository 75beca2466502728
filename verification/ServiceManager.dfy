/** k8s/service.go and k8s/routes.go: services, their route annotation, and the batches sent about them. */
module ServiceManager {
  import opened Names
  import opened Wrappers
  import opened Model
  import opened Protocol
  import opened Client
  import Effects
  import R = Router
  import Ticks

  /** The route channel, as the queue of batches sent and not yet received. */
  class Channel {
    var queue: seq<Batch>

    constructor ()
      ensures queue == []
    {
      queue := [];
    }

    method Send(batch: Batch)
      modifies this
      ensures queue == old(queue) + [batch]
    {
      queue := queue + [batch];
    }
  }

  method SliceToMap(slice: seq<string>) returns (result: map<string, bool>)
    ensures forall e :: e in result <==> e in slice
  {
    result := map[];
    for i := 0 to |slice|
      invariant forall e :: e in result <==> e in slice[..i]
    {
      result := result[slice[i] := true];
    }
  }

  lemma {:induction false} UnregisteredAppend(a: seq<string>, b: seq<string>, updated: seq<string>)
    ensures Unregistered(a + b, updated) == Unregistered(a, updated) + Unregistered(b, updated)
  {
    if a == [] {
      assert a + b == b;
    } else {
      assert (a + b)[1..] == a[1..] + b;
      UnregisteredAppend(a[1..], b, updated);
    }
  }

  lemma UnregisteredNone(updated: seq<string>)
    ensures Unregistered([], updated) == []
  {
  }

  lemma UnregisteredSnoc(existing: seq<string>, e: string, updated: seq<string>)
    ensures Unregistered(existing + [e], updated) ==
      Unregistered(existing, updated) + if e in updated then [] else [e]
  {
    UnregisteredAppend(existing, [e], updated);
  }

  /** The routes that were and no longer are announced, in their order. */
  method GetUnregisteredRoutes(existing: seq<string>, updated: seq<string>) returns (unregistered: seq<string>)
    ensures unregistered == Unregistered(existing, updated)
    ensures exists at :: TakesMissing(existing, updated, unregistered, at)
  {
    hide TakesMissing, Unregistered;
    UnregisteredNone(updated);
    var updatedMap := SliceToMap(updated);
    unregistered := [];
    for i := 0 to |existing|
      invariant unregistered == Unregistered(existing[..i], updated)
    {
      var e := existing[i];
      UnregisteredSnoc(existing[..i], e, updated);
      assert existing[..i + 1] == existing[..i] + [e];
      if e !in updatedMap {
        unregistered := unregistered + [e];
      }
    }
    assert existing[..|existing|] == existing;
    UnregisteredExactly(existing, updated);
  }

  class ServiceManager {
    const client: Server
    const routesChan: Channel?

    /** `routesChan` is nil in the service manager that a StatefulSetManager makes for itself. */
    constructor (client: Server, routesChan: Channel?)
      ensures this.client == client && this.routesChan == routesChan
    {
      this.client, this.routesChan := client, routesChan;
    }

    /** Sending on a nil channel blocks for ever, so the three methods that send need a channel. */
    method Create(lrp: LRP, ghost parse: Parser) returns (o: Outcome)
      requires routesChan != null
      modifies client, routesChan
      ensures var f := Finish(Env(parse, client.healthy), old(client.Snapshot()),
                              Do(CreateService(lrp), Halt(Ok)), old(client.requests));
        && client.Snapshot() == f.cluster && o == f.outcome && client.requests == f.requests
        && routesChan.queue == old(routesChan.queue) + f.sent
      ensures client.statefulSets == old(client.statefulSets) && client.ingress == old(client.ingress)
    {
      hide Finish, Lookup;
      Effects.CreateServiceRuns(Env(parse, client.healthy), client.Snapshot(), lrp, client.requests);
      var service := ToService(lrp);
      var ok := client.CreateService(service);
      if !ok {
        return Err;
      }
      assert Registered(service) == Uris(lrp) by { Effects.LookupOne(Uris(lrp)); }
      match Registered(service) {
        case Plain(_) => return Err;
        case UriList(registeredRoutes) =>
          routesChan.Send([Routes(service.name, registeredRoutes, [])]);
          return Ok;
      }
    }

    method CreateHeadless(lrp: LRP, ghost parse: Parser) returns (o: Outcome)
      modifies client
      ensures var f := Finish(Env(parse, client.healthy), old(client.Snapshot()),
                              Do(Call.CreateHeadless(lrp), Halt(Ok)), old(client.requests));
        client.Snapshot() == f.cluster && o == f.outcome && client.requests == f.requests && f.sent == []
      ensures client.statefulSets == old(client.statefulSets) && client.ingress == old(client.ingress)
    {
      hide Finish;
      Effects.CreateHeadlessRuns(Env(parse, client.healthy), client.Snapshot(), lrp, client.requests);
      var ok := client.CreateService(ToHeadlessService(lrp));
      o := if ok then Ok else Err;
    }

    method Update(lrp: LRP, ghost parse: Parser) returns (o: Outcome)
      requires routesChan != null
      requires ServiceName(lrp.name) in client.services ==>
        client.services[ServiceName(lrp.name)].name == ServiceName(lrp.name)
      modifies client, routesChan
      ensures var f := Finish(Env(parse, client.healthy), old(client.Snapshot()),
                              Do(FetchService(lrp), Halt(Ok)), old(client.requests));
        && client.Snapshot() == f.cluster && o == f.outcome && client.requests == f.requests
        && routesChan.queue == old(routesChan.queue) + f.sent
      ensures client.statefulSets == old(client.statefulSets) && client.ingress == old(client.ingress)
    {
      hide Finish, Lookup, Unregistered;
      Effects.UpdateServiceRuns(Env(parse, client.healthy), client.Snapshot(), lrp, client.requests);
      var serviceName := ServiceName(lrp.name);
      var service := client.GetService(serviceName);
      if service.None? || Registered(service.value).Plain? || Uris(lrp).Plain? {
        return Err;
      }
      var registeredRoutes, updatedRoutes := Registered(service.value).uris, Uris(lrp).uris;
      var ok := client.UpdateService(Announcing(service.value, Uris(lrp)));
      if !ok {
        return Err;
      }
      var unregistered := GetUnregisteredRoutes(registeredRoutes, updatedRoutes);
      routesChan.Send([Routes(serviceName, updatedRoutes, unregistered)]);
      o := Ok;
    }

    method Delete(appName: string, ghost parse: Parser) returns (o: Outcome)
      requires routesChan != null
      modifies client, routesChan
      ensures var f := Finish(Env(parse, client.healthy), old(client.Snapshot()),
                              Do(FetchDoomed(appName), Halt(Ok)), old(client.requests));
        && client.Snapshot() == f.cluster && o == f.outcome && client.requests == f.requests
        && routesChan.queue == old(routesChan.queue) + f.sent
      ensures client.statefulSets == old(client.statefulSets) && client.ingress == old(client.ingress)
    {
      hide Finish, Lookup;
      Effects.DeleteServiceRuns(Env(parse, client.healthy), client.Snapshot(), appName, client.requests);
      var serviceName := ServiceName(appName);
      var service := client.GetService(serviceName);
      if service.None? || Registered(service.value).Plain? {
        return Err;
      }
      routesChan.Send([Routes(serviceName, [], Registered(service.value).uris)]);
      var ok := client.DeleteService(serviceName);
      o := if ok then Ok else Err;
    }

    method DeleteHeadless(appName: string, ghost parse: Parser) returns (o: Outcome)
      modifies client
      ensures var f := Finish(Env(parse, client.healthy), old(client.Snapshot()),
                              Do(Call.DeleteHeadless(appName), Halt(Ok)), old(client.requests));
        client.Snapshot() == f.cluster && o == f.outcome && client.requests == f.requests && f.sent == []
      ensures client.statefulSets == old(client.statefulSets) && client.ingress == old(client.ingress)
    {
      hide Finish;
      Effects.DeleteHeadlessRuns(Env(parse, client.healthy), client.Snapshot(), appName, client.requests);
      var ok := client.DeleteService(HeadlessName(appName));
      o := if ok then Ok else Err;
    }
  }

  /** The route lister behind the collector. */
  class ServiceRouteLister {
    const client: Server

    constructor (client: Server)
      ensures this.client == client
    {
      this.client := client;
    }

    method ListRoutes() returns (routes: Option<Batch>)
      modifies client`requests
      ensures client.requests == old(client.requests) + 1
      ensures !client.healthy(old(client.requests)) ==> routes == None
      ensures client.healthy(old(client.requests)) ==>
        exists order: seq<string> ::
          R.Enumerates(order, client.services.Keys) && routes == R.ListRoutes(client.services, order)
      ensures routes.Some? ==> Ticks.ListsApps(client.services, routes.value)
    {
      hide IsAppService, Ticks.ListsApps;
      var items := client.ListServices();
      if items.None? {
        return None;
      }
      var order := items.value;
      assert R.Enumerates(order, client.services.Keys);
      var found: Batch := [];
      assert order[0..] == order && forall rest: Batch :: found + rest == rest;
      for i := 0 to |order|
        invariant R.ListRoutes(client.services, order) ==
          match R.ListRoutes(client.services, order[i..]) { case None => None case Some(rest) => Some(found + rest) }
      {
        var s := client.services[order[i]];
        assert order[i..][1..] == order[i + 1..];
        if !IsCFService(order[i]) || IsHeadless(order[i]) {
          assert !IsAppService(order[i]) by { NotListed(order[i]); }
          continue;
        }
        assert IsAppService(order[i]) by { NotListed(order[i]); }
        match Registered(s) {
          case Plain(_) => return None;
          case UriList(registered) =>
            var route := Routes(order[i], registered, []);
            assert forall rest: Batch :: found + ([route] + rest) == found + [route] + rest;
            found := found + [route];
        }
      }
      assert order[|order|..] == [] && found + [] == found;
      routes := Some(found);
      Ticks.ListingListsApps(client.services, order);
    }
  }

  lemma NotListed(name: string)
    ensures IsAppService(name) <==> IsCFService(name) && !IsHeadless(name)
  {
  }
}
