/**
 What the operations that return nil leave behind, object by object and field by field, in the constants
 of the source and without naming the functions that build the objects.
 */
module Results {
  import opened Names
  import opened Wrappers
  import opened Model
  import opened Protocol
  import opened Effects

  /** The count as the API server stores it: itself in 32 bits, otherwise the 32-bit number congruent to it. */
  predicate Stored32(replicas: int, count: int) {
    && -0x8000_0000 <= replicas < 0x8000_0000 && (replicas - count) % 0x1_0000_0000 == 0
    && (-0x8000_0000 <= count < 0x8000_0000 ==> replicas == count)
  }

  /** The instance that an LRP describes, before any of it is ready. */
  predicate Describes(lrp: LRP, instance: StatefulSet) {
    && instance.name == lrp.name && instance.labels == map["eirini" := "eirini", "name" := lrp.name]
    && instance.annotations == lrp.metadata && instance.image == lrp.image && instance.command == lrp.command
    && instance.env == lrp.env && Stored32(instance.replicas, lrp.targetInstances) && instance.readyReplicas == 0
  }

  /** At most the app's instance is new, and then it is what the LRP describes; after success it certainly is. */
  predicate CreatedAtMost(lrp: LRP, ok: bool, before: map<string, StatefulSet>, after: map<string, StatefulSet>) {
    && (ok ==> lrp.name !in before && lrp.name in after)
    && (after == before ||
        (&& lrp.name in after && Describes(lrp, after[lrp.name]) && after == before[lrp.name := after[lrp.name]]))
  }

  lemma CreatedDescribes(lrp: LRP)
    ensures Describes(lrp, ToStatefulSet(lrp))
  {
    hide ToInt32;
    Int32Exactly(lrp.targetInstances);
  }

  /** `rules` are what the URIs ask for: per URI and in order host, path, service and port. */
  predicate RulesFor(parse: Parser, service: string, uris: seq<string>, rules: seq<Rule>) {
    && |rules| == |uris|
    && forall i | 0 <= i < |uris| ::
         && parse(uris[i]).Some?
         && rules[i].host == ToLower(parse(uris[i]).value.host)
         && rules[i].path == (if parse(uris[i]).value.path == "" then "/" else parse(uris[i]).value.path)
         && rules[i].service == service && rules[i].port == 8080
  }

  /** The service has exactly the rules its URIs ask for, and every other service what it had. */
  ghost predicate Routed(parse: Parser, before: Option<Backends>, after: Option<Backends>,
                         service: string, uris: seq<string>) {
    && (exists rules :: RulesFor(parse, service, uris, rules) && RulesOf(after, service) == multiset(rules))
    && forall other | other != service :: RulesOf(after, other) == RulesOf(before, other)
  }

  lemma ReplacedRulesRoute(parse: Parser, before: Option<Backends>, app: string, uris: seq<string>)
    requires AllParse(parse, uris)
    ensures Routed(parse, before, WithRules(before, ServiceName(app), multiset(Rules(parse, app, uris))),
                   "cf-" + app, uris)
  {
    hide AllParse, Rules, WithRules;
    RulesExactly(parse, app, uris);
    assert RulesFor(parse, "cf-" + app, uris, Rules(parse, app, uris));
    forall t ensures RulesOf(WithRules(before, ServiceName(app), multiset(Rules(parse, app, uris))), t)
      == if t == ServiceName(app) then multiset(Rules(parse, app, uris)) else RulesOf(before, t) {
      WithRulesReplaces(before, ServiceName(app), multiset(Rules(parse, app, uris)), t);
    }
  }

  /** The ingress step's result: the rules of the URIs in the LRP's metadata, for this service only. */
  ghost predicate RoutedByLRP(parse: Parser, before: Option<Backends>, after: Option<Backends>, lrp: LRP) {
    && "application_uris" in lrp.metadata && lrp.metadata["application_uris"].UriList?
    && Routed(parse, before, after, "cf-" + lrp.name, lrp.metadata["application_uris"].uris)
  }

  lemma IngressUpdateLeaves(env: Env, c: Cluster, lrp: LRP, n: nat)
    ensures var f := Finish(env, c, Do(ListIngresses(lrp), Halt(Ok)), n);
      f.outcome.Ok? ==> RoutedByLRP(env.parse, c.ingress, f.cluster.ingress, lrp)
  {
    hide Finish, Rules, AllParse, WithRules, Routed;
    UpdateRulesRuns(env, c, lrp, n);
    if Finish(env, c, Do(ListIngresses(lrp), Halt(Ok)), n).outcome.Ok? {
      UrisExactly(lrp, Uris(lrp).uris);
      ReplacedRulesRoute(env.parse, c.ingress, lrp.name, Uris(lrp).uris);
    }
  }

  /** What `Desire` deploys, field by field. */
  ghost predicate Deployed(parse: Parser, before: Cluster, after: Cluster, lrp: LRP, sent: seq<Batch>) {
    && "application_uris" in lrp.metadata && lrp.metadata["application_uris"].UriList?
    && lrp.name in after.statefulSets
    && var uris, instance := lrp.metadata["application_uris"].uris, after.statefulSets[lrp.name];
    && after.statefulSets == before.statefulSets[lrp.name := instance]
    && Describes(lrp, instance)
    && after.services == before.services
         ["cf-" + lrp.name + "-headless" := Service("cf-" + lrp.name + "-headless", lrp.name, "None", map[])]
         ["cf-" + lrp.name := Service("cf-" + lrp.name, lrp.name, "", map["routes" := UriList(uris)])]
    && Routed(parse, before.ingress, after.ingress, "cf-" + lrp.name, uris)
    && sent == [[Routes("cf-" + lrp.name, uris, [])]]
  }

  /** A first `Desire` that returns nil: the instance the LRP describes, both services, the rules and the batch. */
  lemma DesireLeaves(env: Env, c: Cluster, lrp: LRP, n: nat)
    requires AllLabelled(c.statefulSets) && lrp.name !in c.statefulSets
    requires Finish(env, c, CodeOf(Desire(lrp)), n).outcome.Ok?
    ensures var f := Finish(env, c, CodeOf(Desire(lrp)), n); Deployed(env.parse, c, f.cluster, lrp, f.sent)
  {
    hide Finish, Rules, AllParse, WithRules, ToInt32, Routed, RulesOf;
    DesireOk(env, c, lrp, n);
    UrisExactly(lrp, Uris(lrp).uris);
    CreatedDescribes(lrp);
    ReplacedRulesRoute(env.parse, c.ingress, lrp.name, Uris(lrp).uris);
  }

  /** Count and last-updated value as in the LRP, everything else as it was. */
  predicate Rescales(lrp: LRP, before: StatefulSet, after: StatefulSet) {
    && after == before.(replicas := after.replicas, annotations := after.annotations)
    && Stored32(after.replicas, lrp.targetInstances)
    && after.annotations == before.annotations
         ["last_updated" := if "last_updated" in lrp.metadata then lrp.metadata["last_updated"] else Plain("")]
  }

  predicate InstanceRescaled(lrp: LRP, before: map<string, StatefulSet>, after: map<string, StatefulSet>) {
    && lrp.name in before && lrp.name in after && after == before[lrp.name := after[lrp.name]]
    && Rescales(lrp, before[lrp.name], after[lrp.name])
  }

  lemma ScaledRescales(instance: StatefulSet, lrp: LRP)
    ensures Rescales(lrp, instance, Scaled(instance, lrp))
  {
    hide ToInt32;
    Int32Exactly(lrp.targetInstances);
  }

  /** What `Update` changes, and that it changes nothing else. */
  ghost predicate Rescaled(parse: Parser, before: Cluster, after: Cluster, lrp: LRP, sent: seq<Batch>) {
    var s := "cf-" + lrp.name;
    && "application_uris" in lrp.metadata && lrp.metadata["application_uris"].UriList?
    && lrp.name in before.statefulSets && lrp.name in after.statefulSets && s in before.services
    && "routes" in before.services[s].annotations && before.services[s].annotations["routes"].UriList?
    && var uris, existing := lrp.metadata["application_uris"].uris, before.services[s].annotations["routes"].uris;
    var instance := after.statefulSets[lrp.name];
    && after.statefulSets == before.statefulSets[lrp.name := instance]
    && Rescales(lrp, before.statefulSets[lrp.name], instance)
    && after.services == before.services[s := before.services[s].(
         annotations := before.services[s].annotations["routes" := UriList(uris)])]
    && Routed(parse, before.ingress, after.ingress, s, uris)
    && exists gone, at :: TakesMissing(existing, uris, gone, at) && sent == [[Routes(s, uris, gone)]]
  }

  /** An `Update` that returns nil. */
  lemma UpdateLeaves(env: Env, c: Cluster, lrp: LRP, n: nat)
    requires lrp.name in c.statefulSets ==> c.statefulSets[lrp.name].name == lrp.name
    requires ServiceName(lrp.name) in c.services ==> c.services[ServiceName(lrp.name)].name == ServiceName(lrp.name)
    requires Finish(env, c, CodeOf(Update(lrp)), n).outcome.Ok?
    ensures var f := Finish(env, c, CodeOf(Update(lrp)), n); Rescaled(env.parse, c, f.cluster, lrp, f.sent)
  {
    hide Finish, Rules, AllParse, WithRules, ToInt32, Routed, RulesOf, TakesMissing, Unregistered;
    UpdateOk(env, c, lrp, n);
    var existing, uris := Announced(c.services, ServiceName(lrp.name)).value, Uris(lrp).uris;
    UrisExactly(lrp, uris);
    AnnouncedExactly(c.services, ServiceName(lrp.name), existing);
    ScaledRescales(c.statefulSets[lrp.name], lrp);
    ReplacedRulesRoute(env.parse, c.ingress, lrp.name, uris);
    UnregisteredExactly(existing, uris);
  }

  /** What `Stop` removes. */
  ghost predicate Retired(before: Cluster, after: Cluster, app: string, sent: seq<Batch>) {
    var s := "cf-" + app;
    && after.statefulSets == before.statefulSets - {app}
    && after.services == before.services - {s, "cf-" + app + "-headless"}
    && RulesOf(after.ingress, s) == multiset{}
    && (forall other | other != s :: RulesOf(after.ingress, other) == RulesOf(before.ingress, other))
    && s in before.services && "routes" in before.services[s].annotations
    && before.services[s].annotations["routes"].UriList?
    && sent == [[Routes(s, [], before.services[s].annotations["routes"].uris)]]
  }

  /** A `Stop` that returns nil. */
  lemma StopLeaves(env: Env, c: Cluster, app: string, n: nat)
    requires Finish(env, c, CodeOf(Stop(app)), n).outcome.Ok?
    ensures var f := Finish(env, c, CodeOf(Stop(app)), n); Retired(c, f.cluster, app, f.sent)
  {
    hide Finish, WithRules, RulesOf;
    StopOk(env, c, app, n);
    AnnouncedExactly(c.services, ServiceName(app), Announced(c.services, ServiceName(app)).value);
    forall t ensures RulesOf(WithRules(c.ingress, ServiceName(app), multiset{}), t)
      == if t == ServiceName(app) then multiset{} else RulesOf(c.ingress, t) {
      WithRulesReplaces(c.ingress, ServiceName(app), multiset{}, t);
    }
  }
}
