/** k8s/statefulset.go: the instance manager. */
module StatefulSetManager {
  import opened Wrappers
  import opened Model
  import opened Protocol
  import opened Client
  import opened ServiceManager
  import Effects
  import Results
  import RuleObjects

  /** What an LRP read back says of its instance. */
  predicate Reads(lrp: LRP, s: StatefulSet) {
    && lrp.name == s.name && lrp.image == s.image && lrp.command == s.command && lrp.runningInstances == s.readyReplicas
    && lrp.metadata.Keys == {"process_guid", "last_updated", "application_uris"}
    && forall key | key in lrp.metadata ::
         lrp.metadata[key] == if key in s.annotations then s.annotations[key] else Plain("")
  }

  lemma ReadsInstance(s: StatefulSet)
    ensures Reads(ToLRP(s), s)
  {
    LRPExactly(s);
  }

  lemma ReadsAll(lrps: seq<LRP>, items: seq<StatefulSet>)
    requires |lrps| == |items| && forall i | 0 <= i < |items| :: lrps[i] == ToLRP(items[i])
    ensures forall i | 0 <= i < |items| :: Reads(lrps[i], items[i])
  {
    hide Reads, ToLRP;
    forall i | 0 <= i < |items| ensures Reads(lrps[i], items[i]) {
      ReadsInstance(items[i]);
    }
  }

  class StatefulSetManager {
    const client: Server
    const serviceManager: ServiceManager

    /** Its own service manager has a nil route channel; it only ever creates and deletes headless services. */
    constructor (client: Server)
      ensures this.client == client && Wired()
    {
      this.client := client;
      serviceManager := new ServiceManager(client, null);
    }

    predicate Wired() {
      serviceManager.client == client && serviceManager.routesChan == null
    }

    /** `Exists`: the outer option is the error. */
    method Exists(appName: string) returns (r: Option<bool>)
      modifies client`requests
      ensures client.requests == old(client.requests) + 1
      ensures r == if client.healthy(old(client.requests)) then Some(Selects(client.statefulSets, appName)) else None
    {
      var list := client.ListSelected(appName);
      r := if list.None? then None else Some(|list.value| > 0);
    }

    method Get(appName: string) returns (r: Option<LRP>)
      modifies client`requests
      ensures client.requests == old(client.requests) + 1
      ensures r == if client.healthy(old(client.requests)) && appName in client.statefulSets
        then Some(ToLRP(client.statefulSets[appName])) else None
      ensures r.Some? ==> Reads(r.value, client.statefulSets[appName])
    {
      if appName in client.statefulSets { ReadsInstance(client.statefulSets[appName]); }
      var statefulSet := client.GetStatefulSet(appName);
      r := if statefulSet.None? then None else Some(ToLRP(statefulSet.value));
    }

    /** One LRP per StatefulSet, in the order of the listing. */
    method List() returns (lrps: Option<seq<LRP>>)
      modifies client`requests
      ensures client.requests == old(client.requests) + 1 && (lrps.Some? <==> client.healthy(old(client.requests)))
      ensures lrps.Some? ==>
        exists items :: Listing(client.statefulSets, items) && |items| == |lrps.value|
          && (forall i | 0 <= i < |items| :: lrps.value[i] == ToLRP(items[i]))
          && (forall i | 0 <= i < |items| :: Reads(lrps.value[i], items[i]))
    {
      hide Lookup, Listing, Reads, ToLRP;
      var items := client.ListStatefulSets();
      if items.None? {
        return None;
      }
      var found := [];
      for i := 0 to |items.value|
        invariant |found| == i && forall k | 0 <= k < i :: found[k] == ToLRP(items.value[k])
      {
        found := found + [ToLRP(items.value[i])];
      }
      ReadsAll(found, items.value);
      lrps := Some(found);
    }

    method Create(lrp: LRP, ghost parse: Parser) returns (o: Outcome)
      requires Wired()
      modifies client
      ensures var f := Finish(Env(parse, client.healthy), old(client.Snapshot()),
                              Do(CreateInstance(lrp), Do(CreateHeadless(lrp), Halt(Ok))), old(client.requests));
        client.Snapshot() == f.cluster && o == f.outcome && client.requests == f.requests && f.sent == []
      ensures Results.CreatedAtMost(lrp, o.Ok?, old(client.statefulSets), client.statefulSets)
    {
      hide Finish, Step, Lookup, ToInt32, Results.Describes;
      Results.CreatedDescribes(lrp);
      ghost var env, c, n := Env(parse, client.healthy), client.Snapshot(), client.requests;
      ghost var f, g := Effects.First(env, c, CreateInstance(lrp), Do(CreateHeadless(lrp), Halt(Ok)), n);
      Effects.CreateInstanceRuns(env, c, lrp, n);
      var ok := client.CreateStatefulSet(ToStatefulSet(lrp));
      if !ok {
        return Err;
      }
      o := serviceManager.CreateHeadless(lrp, parse);
    }

    method Update(lrp: LRP, ghost parse: Parser) returns (o: Outcome)
      requires lrp.name in client.statefulSets ==> client.statefulSets[lrp.name].name == lrp.name
      modifies client
      ensures var f := Finish(Env(parse, client.healthy), old(client.Snapshot()),
                              Do(FetchInstance(lrp), Halt(Ok)), old(client.requests));
        client.Snapshot() == f.cluster && o == f.outcome && client.requests == f.requests && f.sent == []
      ensures client.services == old(client.services) && client.ingress == old(client.ingress)
      ensures o.Ok? ==> Results.InstanceRescaled(lrp, old(client.statefulSets), client.statefulSets)
    {
      hide Finish, Step, Lookup, ToInt32, Scaled, RuleObjects.Group, Results.Rescales;
      Effects.UpdateInstanceRuns(Env(parse, client.healthy), client.Snapshot(), lrp, client.requests);
      var statefulSet := client.GetStatefulSet(lrp.name);
      if statefulSet.None? {
        return Err;
      }
      if statefulSet.value.annotations == map[] {
        return Panic; // the decoded annotation map is nil
      }
      var scaled := statefulSet.value.(replicas := ToInt32(lrp.targetInstances),
        annotations := statefulSet.value.annotations[LAST_UPDATED := Lookup(lrp.metadata, LAST_UPDATED)]);
      IsScaled(statefulSet.value, lrp);
      Results.ScaledRescales(statefulSet.value, lrp);
      var ok := client.UpdateStatefulSet(scaled);
      o := if ok then Ok else Err;
    }

    method Delete(appName: string, ghost parse: Parser) returns (o: Outcome)
      requires Wired()
      modifies client
      ensures var f := Finish(Env(parse, client.healthy), old(client.Snapshot()),
                              Do(DeleteInstance(appName), Do(DeleteHeadless(appName), Halt(Ok))), old(client.requests));
        client.Snapshot() == f.cluster && o == f.outcome && client.requests == f.requests && f.sent == []
    {
      hide Finish, Step;
      ghost var env, c, n := Env(parse, client.healthy), client.Snapshot(), client.requests;
      ghost var f, g := Effects.First(env, c, DeleteInstance(appName), Do(DeleteHeadless(appName), Halt(Ok)), n);
      Effects.DeleteInstanceRuns(env, c, appName, n);
      var ok := client.DeleteStatefulSet(appName);
      if !ok {
        return Err;
      }
      o := serviceManager.DeleteHeadless(appName, parse);
    }
  }

  lemma IsScaled(instance: StatefulSet, lrp: LRP)
    ensures Scaled(instance, lrp) == instance.(replicas := ToInt32(lrp.targetInstances),
      annotations := instance.annotations[LAST_UPDATED := Lookup(lrp.metadata, LAST_UPDATED)])
  {
  }
}
