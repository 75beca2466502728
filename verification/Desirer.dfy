/** k8s/desire.go: the operations on a whole app, each a sequence of manager calls. */
module Desirer {
  import opened Names
  import opened Wrappers
  import opened Model
  import opened Protocol
  import opened Client
  import opened IngressManager
  import opened ServiceManager
  import opened StatefulSetManager
  import Effects
  import Results

  class Desirer {
    const ingressManager: KubeIngressManager
    const instanceManager: StatefulSetManager
    const serviceManager: ServiceManager

    constructor (client: Server, parse: Parser, routesChan: Channel)
      ensures Wired() && serviceManager.client == client
        && ingressManager.parse == parse && serviceManager.routesChan == routesChan
    {
      instanceManager := new StatefulSetManager(client);
      ingressManager := new KubeIngressManager(client, parse);
      serviceManager := new ServiceManager(client, routesChan);
    }

    predicate Wired() {
      && ingressManager.client == serviceManager.client && instanceManager.client == serviceManager.client
      && instanceManager.Wired() && serviceManager.routesChan != null
    }

    function Client(): Server {
      serviceManager.client
    }

    function Environment(): Env {
      Env(ingressManager.parse, Client().healthy)
    }

    /** Object names are map keys and labels; kept by every operation. */
    ghost predicate WellNamed()
      reads Client()
    {
      Effects.Named(Client().Snapshot())
    }

    /** The API server stores the app's instance and service under their own names. */
    predicate Addressed(app: string)
      reads Client()
    {
      && (app in Client().statefulSets ==> Client().statefulSets[app].name == app)
      && (ServiceName(app) in Client().services ==> Client().services[ServiceName(app)].name == ServiceName(app))
    }

    method Desire(lrp: LRP) returns (o: Outcome)
      requires Wired()
      modifies Client(), serviceManager.routesChan
      ensures var f := Finish(Environment(), old(Client().Snapshot()), CodeOf(Op.Desire(lrp)), old(Client().requests));
        && Client().Snapshot() == f.cluster && o == f.outcome && Client().requests == f.requests
        && serviceManager.routesChan.queue == old(serviceManager.routesChan.queue) + f.sent
      ensures |serviceManager.routesChan.queue| >= |old(serviceManager.routesChan.queue)|
      ensures o.Ok? && old(WellNamed()) && lrp.name !in old(Client().statefulSets) ==>
        Results.Deployed(ingressManager.parse, old(Client().Snapshot()), Client().Snapshot(), lrp,
                         serviceManager.routesChan.queue[|old(serviceManager.routesChan.queue)|..])
      ensures old(WellNamed()) ==> WellNamed()
    {
      hide Finish, CodeOf, Create, Step, Selects, Effects.Named, Results.Deployed, Results.CreatedAtMost,
           Results.RoutedByLRP;
      ghost var env, c0, n0 := Environment(), Client().Snapshot(), Client().requests;
      if WellNamed() { Effects.OperationsKeepNames(env, c0, Op.Desire(lrp), n0); }
      DesireResult(env, c0, lrp, n0, serviceManager.routesChan.queue);
      ExistsRuns(env, c0, lrp, n0);
      var exists_ := instanceManager.Exists(lrp.name);
      if exists_.None? {
        return Err;
      }
      if exists_.value {
        return Ok;
      }
      CreateInParts(env, c0, lrp, n0 + 1);
      o := instanceManager.Create(lrp, ingressManager.parse);
      if o != Ok {
        return;
      }
      ghost var c1, n1 := Client().Snapshot(), Client().requests;
      ghost var f1, g1 := Effects.First(env, c1, CreateService(lrp), Do(ListIngresses(lrp), Halt(Ok)), n1);
      o := serviceManager.Create(lrp, ingressManager.parse);
      if o != Ok {
        return;
      }
      o := ingressManager.Update(lrp);
    }

    method Update(lrp: LRP) returns (o: Outcome)
      requires Wired() && Addressed(lrp.name)
      modifies Client(), serviceManager.routesChan
      ensures var f := Finish(Environment(), old(Client().Snapshot()), CodeOf(Op.Update(lrp)), old(Client().requests));
        && Client().Snapshot() == f.cluster && o == f.outcome && Client().requests == f.requests
        && serviceManager.routesChan.queue == old(serviceManager.routesChan.queue) + f.sent
      ensures |serviceManager.routesChan.queue| >= |old(serviceManager.routesChan.queue)|
      ensures o.Ok? ==>
        Results.Rescaled(ingressManager.parse, old(Client().Snapshot()), Client().Snapshot(), lrp,
                         serviceManager.routesChan.queue[|old(serviceManager.routesChan.queue)|..])
      ensures old(WellNamed()) ==> WellNamed()
    {
      hide Finish, CodeOf, Step, ServiceName, Effects.Named, Results.Rescaled, Results.InstanceRescaled,
           Results.RoutedByLRP;
      ghost var env, c0, n0 := Environment(), Client().Snapshot(), Client().requests;
      if WellNamed() { Effects.OperationsKeepNames(env, c0, Op.Update(lrp), n0); }
      UpdateResult(env, c0, lrp, n0, serviceManager.routesChan.queue);
      UpdateInParts(env, c0, lrp, n0);
      o := instanceManager.Update(lrp, ingressManager.parse);
      if o != Ok {
        return;
      }
      ghost var c1, n1 := Client().Snapshot(), Client().requests;
      ghost var f1, g1 := Effects.First(env, c1, FetchService(lrp), Do(ListIngresses(lrp), Halt(Ok)), n1);
      o := serviceManager.Update(lrp, ingressManager.parse);
      if o != Ok {
        return;
      }
      o := ingressManager.Update(lrp);
    }

    method Stop(name: string) returns (o: Outcome)
      requires Wired()
      modifies Client(), serviceManager.routesChan
      ensures var f := Finish(Environment(), old(Client().Snapshot()), CodeOf(Op.Stop(name)), old(Client().requests));
        && Client().Snapshot() == f.cluster && o == f.outcome && Client().requests == f.requests
        && serviceManager.routesChan.queue == old(serviceManager.routesChan.queue) + f.sent
      ensures |serviceManager.routesChan.queue| >= |old(serviceManager.routesChan.queue)|
      ensures o.Ok? ==>
        Results.Retired(old(Client().Snapshot()), Client().Snapshot(), name,
                        serviceManager.routesChan.queue[|old(serviceManager.routesChan.queue)|..])
      ensures old(WellNamed()) ==> WellNamed()
    {
      hide Finish, CodeOf, Step, Effects.Named, Results.Retired;
      ghost var env, c0, n0 := Environment(), Client().Snapshot(), Client().requests;
      if WellNamed() { Effects.OperationsKeepNames(env, c0, Op.Stop(name), n0); }
      StopResult(env, c0, name, n0, serviceManager.routesChan.queue);
      DeleteInParts(env, c0, name, n0);
      o := instanceManager.Delete(name, ingressManager.parse);
      if o != Ok {
        return;
      }
      ghost var c1, n1 := Client().Snapshot(), Client().requests;
      ghost var f1, g1 := Effects.First(env, c1, FetchIngress(name), Do(FetchDoomed(name), Halt(Ok)), n1);
      o := ingressManager.Delete(name);
      if o != Ok {
        return;
      }
      o := serviceManager.Delete(name, ingressManager.parse);
    }
  }

  lemma DesireResult(env: Env, c: Cluster, lrp: LRP, n: nat, queue: seq<Batch>)
    ensures var f := Finish(env, c, CodeOf(Op.Desire(lrp)), n);
      f.outcome.Ok? && Effects.Named(c) && lrp.name !in c.statefulSets ==>
        Results.Deployed(env.parse, c, f.cluster, lrp, (queue + f.sent)[|queue|..])
  {
    hide Finish, CodeOf, Results.Deployed;
    var f := Finish(env, c, CodeOf(Op.Desire(lrp)), n);
    assert (queue + f.sent)[|queue|..] == f.sent;
    if f.outcome.Ok? && Effects.Named(c) && lrp.name !in c.statefulSets {
      Results.DesireLeaves(env, c, lrp, n);
    }
  }

  lemma UpdateResult(env: Env, c: Cluster, lrp: LRP, n: nat, queue: seq<Batch>)
    requires lrp.name in c.statefulSets ==> c.statefulSets[lrp.name].name == lrp.name
    requires ServiceName(lrp.name) in c.services ==> c.services[ServiceName(lrp.name)].name == ServiceName(lrp.name)
    ensures var f := Finish(env, c, CodeOf(Op.Update(lrp)), n);
      f.outcome.Ok? ==>
        Results.Rescaled(env.parse, c, f.cluster, lrp, (queue + f.sent)[|queue|..])
  {
    hide Finish, CodeOf, Results.Rescaled;
    var f := Finish(env, c, CodeOf(Op.Update(lrp)), n);
    assert (queue + f.sent)[|queue|..] == f.sent;
    if f.outcome.Ok? { Results.UpdateLeaves(env, c, lrp, n); }
  }

  lemma StopResult(env: Env, c: Cluster, app: string, n: nat, queue: seq<Batch>)
    ensures var f := Finish(env, c, CodeOf(Op.Stop(app)), n);
      f.outcome.Ok? ==> Results.Retired(c, f.cluster, app, (queue + f.sent)[|queue|..])
  {
    hide Finish, CodeOf, Results.Retired;
    var f := Finish(env, c, CodeOf(Op.Stop(app)), n);
    assert (queue + f.sent)[|queue|..] == f.sent;
    if f.outcome.Ok? { Results.StopLeaves(env, c, app, n); }
  }

  lemma ExistsRuns(env: Env, c: Cluster, lrp: LRP, n: nat)
    ensures Finish(env, c, CodeOf(Op.Desire(lrp)), n) ==
      if !env.healthy(n) then Final(c, Err, n + 1, [])
      else if Selects(c.statefulSets, lrp.name) then Final(c, Ok, n + 1, [])
      else Finish(env, c, Create(lrp, Halt(Ok)), n + 1)
  {
    hide Finish, StepServices, StepIngress, Selects;
    var s := Effects.Unfold(env, c, CheckExists(lrp), Halt(Ok), n);
    assert forall f: Final :: Sent([], f) == f;
  }

  lemma CreateInParts(env: Env, c: Cluster, lrp: LRP, n: nat)
    ensures var f := Finish(env, c, Do(CreateInstance(lrp), Do(CreateHeadless(lrp), Halt(Ok))), n);
      Finish(env, c, Create(lrp, Halt(Ok)), n) ==
        Then(f, Finish(env, f.cluster, Do(CreateService(lrp), Do(ListIngresses(lrp), Halt(Ok))), f.requests))
  {
    hide Finish;
    TwoThen(env, c, CreateInstance(lrp), CreateHeadless(lrp),
            Do(CreateService(lrp), Do(ListIngresses(lrp), Halt(Ok))), n);
  }

  lemma UpdateInParts(env: Env, c: Cluster, lrp: LRP, n: nat)
    ensures var f := Finish(env, c, Do(FetchInstance(lrp), Halt(Ok)), n);
      Finish(env, c, CodeOf(Op.Update(lrp)), n) ==
        Then(f, Finish(env, f.cluster, Do(FetchService(lrp), Do(ListIngresses(lrp), Halt(Ok))), f.requests))
  {
    hide Finish;
    var f, g := Effects.First(env, c, FetchInstance(lrp), Do(FetchService(lrp), Do(ListIngresses(lrp), Halt(Ok))), n);
  }

  lemma DeleteInParts(env: Env, c: Cluster, app: string, n: nat)
    ensures var f := Finish(env, c, Do(DeleteInstance(app), Do(DeleteHeadless(app), Halt(Ok))), n);
      Finish(env, c, CodeOf(Op.Stop(app)), n) ==
        Then(f, Finish(env, f.cluster, Do(FetchIngress(app), Do(FetchDoomed(app), Halt(Ok))), f.requests))
  {
    hide Finish;
    TwoThen(env, c, DeleteInstance(app), DeleteHeadless(app), Do(FetchIngress(app), Do(FetchDoomed(app), Halt(Ok))), n);
  }

  /** The first two calls of a sequence, and what follows them. */
  lemma TwoThen(env: Env, c: Cluster, a: Call, b: Call, rest: Code, n: nat)
    requires !a.CheckExists? && !b.CheckExists?
    ensures var f := Finish(env, c, Do(a, Do(b, Halt(Ok))), n);
      Finish(env, c, Do(a, Do(b, rest)), n) == Then(f, Finish(env, f.cluster, rest, f.requests))
  {
    hide Finish;
    var tail := Do(b, Halt(Ok));
    assert Straight(Halt(Ok)) && Append(Halt(Ok), rest) == rest;
    assert Straight(tail) && Append(tail, rest) == Do(b, rest);
    FinishInSequence(env, c, Do(a, Do(b, Halt(Ok))), rest, n);
  }
}
