/**
 The desired-state engine as a machine: the code still to run is a list of calls, each step runs
 the first one, and every Kubernetes request may fail without effect. `Finish` runs an operation
 to its end; the methods of the manager classes are proved equal to it.
 */
module Protocol {
  import opened Names
  import opened Wrappers
  import opened Model

  datatype Call =
    | CheckExists(lrp: LRP)
    | CreateInstance(lrp: LRP)
    | CreateHeadless(lrp: LRP)
    | CreateService(lrp: LRP)
    | FetchInstance(lrp: LRP)
    | StoreInstance(instance: StatefulSet)
    | FetchService(lrp: LRP)
    | StoreService(service: Service)
    | Send(batch: Batch)
    | ListIngresses(lrp: LRP)
    | FetchIngress(app: string)
    | PutIngress(backends: Backends)
    | PostIngress(backends: Backends)
    | RemoveIngress
    | DeleteInstance(app: string)
    | DeleteHeadless(app: string)
    | FetchDoomed(app: string)
    | DeleteService(app: string)

  /** Calls to run in order; every failure abandons the rest. */
  datatype Code = Halt(outcome: Outcome) | Do(call: Call, rest: Code)

  datatype Op = Desire(lrp: LRP) | Update(lrp: LRP) | Stop(app: string)

  function Name(op: Op): string {
    match op
    case Desire(lrp) => lrp.name
    case Update(lrp) => lrp.name
    case Stop(app) => app
  }

  function Create(lrp: LRP, rest: Code): Code {
    Do(CreateInstance(lrp), Do(CreateHeadless(lrp), Do(CreateService(lrp), Do(ListIngresses(lrp), rest))))
  }

  function CodeOf(op: Op): Code {
    match op
    case Desire(lrp) => Do(CheckExists(lrp), Halt(Ok))
    case Update(lrp) => Do(FetchInstance(lrp), Do(FetchService(lrp), Do(ListIngresses(lrp), Halt(Ok))))
    case Stop(app) =>
      Do(DeleteInstance(app), Do(DeleteHeadless(app), Do(FetchIngress(app), Do(FetchDoomed(app), Halt(Ok)))))
  }

  /** The state and code after a step, the batches it sent, and the number of API requests it made. */
  datatype Stepped = Stepped(cluster: Cluster, code: Code, sent: seq<Batch>, requests: nat)

  function Go(c: Cluster, code: Code): Stepped {
    Stepped(c, code, [], 1)
  }

  function Fail(c: Cluster): Stepped {
    Go(c, Halt(Err))
  }

  function Scaled(instance: StatefulSet, lrp: LRP): StatefulSet {
    instance.(replicas := ToInt32(lrp.targetInstances),
              annotations := instance.annotations[LAST_UPDATED := Lookup(lrp.metadata, LAST_UPDATED)])
  }

  predicate InstanceCall(call: Call) {
    || call.CheckExists? || call.CreateInstance? || call.FetchInstance? || call.StoreInstance?
    || call.DeleteInstance?
  }

  predicate ServiceCall(call: Call) {
    || call.CreateHeadless? || call.CreateService? || call.FetchService? || call.StoreService?
    || call.DeleteHeadless? || call.FetchDoomed? || call.DeleteService?
  }

  predicate IngressCall(call: Call) {
    || call.ListIngresses? || call.FetchIngress? || call.PutIngress? || call.PostIngress?
    || call.RemoveIngress?
  }

  function StepInstances(c: Cluster, call: Call, rest: Code): Stepped
    requires InstanceCall(call)
  {
    match call
    case CheckExists(lrp) =>
      if Selects(c.statefulSets, lrp.name) then Go(c, Halt(Ok)) else Go(c, Create(lrp, rest))
    case CreateInstance(lrp) =>
      if lrp.name in c.statefulSets then Fail(c)
      else Go(c.(statefulSets := c.statefulSets[lrp.name := ToStatefulSet(lrp)]), rest)
    case FetchInstance(lrp) =>
      if lrp.name !in c.statefulSets then Fail(c)
      else if c.statefulSets[lrp.name].annotations == map[] then Go(c, Halt(Panic)) // assignment to a nil map
      else Go(c, Do(StoreInstance(Scaled(c.statefulSets[lrp.name], lrp)), rest))
    case StoreInstance(instance) =>
      if instance.name !in c.statefulSets then Fail(c)
      else Go(c.(statefulSets := c.statefulSets[instance.name := instance]), rest)
    case DeleteInstance(app) =>
      if app !in c.statefulSets then Fail(c)
      else Go(c.(statefulSets := c.statefulSets - {app}), rest)
  }

  function StepServices(c: Cluster, call: Call, rest: Code): Stepped
    requires ServiceCall(call)
  {
    match call
    case CreateHeadless(lrp) =>
      if HeadlessName(lrp.name) in c.services then Fail(c)
      else Go(c.(services := c.services[HeadlessName(lrp.name) := ToHeadlessService(lrp)]), rest)
    case CreateService(lrp) =>
      var name := ServiceName(lrp.name);
      if name in c.services then Fail(c)
      else
        var created := c.(services := c.services[name := ToService(lrp)]);
        (match Uris(lrp)
         case Plain(_) => Fail(created)
         case UriList(uris) => Go(created, Do(Send([Routes(name, uris, [])]), rest)))
    case FetchService(lrp) =>
      var name := ServiceName(lrp.name);
      if name !in c.services then Fail(c)
      else
        (match (Registered(c.services[name]), Uris(lrp))
         case (UriList(registered), UriList(updated)) =>
           Go(c, Do(StoreService(Announcing(c.services[name], Uris(lrp))),
                    Do(Send([Routes(name, updated, Unregistered(registered, updated))]), rest)))
         case _ => Fail(c))
    case StoreService(service) =>
      if service.name !in c.services then Fail(c)
      else Go(c.(services := c.services[service.name := service]), rest)
    case DeleteHeadless(app) =>
      if HeadlessName(app) !in c.services then Fail(c)
      else Go(c.(services := c.services - {HeadlessName(app)}), rest)
    case FetchDoomed(app) =>
      var name := ServiceName(app);
      if name !in c.services then Fail(c)
      else
        (match Registered(c.services[name])
         case UriList(existing) => Go(c, Do(Send([Routes(name, [], existing)]), Do(DeleteService(app), rest)))
         case Plain(_) => Fail(c))
    case DeleteService(app) =>
      if ServiceName(app) !in c.services then Fail(c)
      else Go(c.(services := c.services - {ServiceName(app)}), rest)
  }

  function StepIngress(parse: Parser, c: Cluster, call: Call, rest: Code): Stepped
    requires IngressCall(call)
  {
    match call
    case ListIngresses(lrp) =>
      var uris := if Uris(lrp).UriList? then Uris(lrp).uris else [];
      var name := ServiceName(lrp.name);
      if uris == [] then Go(c, if c.ingress.Some? then Do(FetchIngress(lrp.name), rest) else rest)
      else if !AllParse(parse, uris) then Fail(c)
      else
        var rules := multiset(Rules(parse, lrp.name, uris));
        Go(c, if c.ingress.Some? then Do(PutIngress(c.ingress.value[name := rules]), rest)
              else Do(PostIngress(map[name := rules]), rest))
    case FetchIngress(app) =>
      if c.ingress.None? then Fail(c)
      else
        var left := c.ingress.value - {ServiceName(app)};
        Go(c, Do(if left == map[] then RemoveIngress else PutIngress(left), rest))
    case PutIngress(backends) =>
      if c.ingress.None? then Fail(c) else Go(c.(ingress := Some(backends)), rest)
    case PostIngress(backends) =>
      if c.ingress.Some? then Fail(c) else Go(c.(ingress := Some(backends)), rest)
    case RemoveIngress =>
      if c.ingress.None? then Fail(c) else Go(c.(ingress := None), rest)
  }

  /** One step. `ok` is the API server's answer to the request the call makes. */
  function Step(parse: Parser, c: Cluster, call: Call, rest: Code, ok: bool): Stepped {
    match call
    case Send(batch) => Stepped(c, rest, [batch], 0)
    case ListIngresses(lrp) =>
      if Uris(lrp).Plain? then Stepped(c, Halt(Panic), [], 0) // decoding comes before the request
      else if !ok then Fail(c) else StepIngress(parse, c, call, rest)
    case FetchIngress(_) => if !ok then Fail(c) else StepIngress(parse, c, call, rest)
    case PutIngress(_) => if !ok then Fail(c) else StepIngress(parse, c, call, rest)
    case PostIngress(_) => if !ok then Fail(c) else StepIngress(parse, c, call, rest)
    case RemoveIngress => if !ok then Fail(c) else StepIngress(parse, c, call, rest)
    case CheckExists(_) => if !ok then Fail(c) else StepInstances(c, call, rest)
    case CreateInstance(_) => if !ok then Fail(c) else StepInstances(c, call, rest)
    case FetchInstance(_) => if !ok then Fail(c) else StepInstances(c, call, rest)
    case StoreInstance(_) => if !ok then Fail(c) else StepInstances(c, call, rest)
    case DeleteInstance(_) => if !ok then Fail(c) else StepInstances(c, call, rest)
    case _ => if !ok then Fail(c) else StepServices(c, call, rest)
  }

  lemma OnlySendSends(parse: Parser, c: Cluster, call: Call, rest: Code, ok: bool)
    ensures Step(parse, c, call, rest, ok).sent == if call.Send? then [call.batch] else []
  {
  }

  /** The three calls that put a send into the code still to run. */
  predicate PreparesSend(call: Call) {
    call.CreateService? || call.FetchService? || call.FetchDoomed?
  }

  /** The sends that the code still to run can lead to. */
  function Sends(code: Code): nat {
    match code
    case Halt(_) => 0
    case Do(call, rest) => (if call.Send? || call.CheckExists? || PreparesSend(call) then 1 else 0) + Sends(rest)
  }

  /** A step leads to no send that the code did not already foresee, and only those three calls put one into it. */
  lemma StepForesees(parse: Parser, c: Cluster, call: Call, rest: Code, ok: bool)
    ensures var s := Step(parse, c, call, rest, ok);
      && |s.sent| + Sends(s.code) <= Sends(Do(call, rest))
      && (s.code.Do? && s.code.call.Send? && s.code != rest ==> PreparesSend(call))
  {
    hide Lookup, Selects, Rules, AllParse, Unregistered, Scaled, ToStatefulSet, ToService, ToHeadlessService;
    if call.CheckExists? {
      var tail := Do(CreateService(call.lrp), Do(ListIngresses(call.lrp), rest));
      assert Sends(tail) == 1 + Sends(rest);
      assert Sends(Do(CreateHeadless(call.lrp), tail)) == Sends(tail);
    }
  }

  function Weight(call: Call): nat {
    match call
    case CheckExists(_) => 12
    case CreateService(_) => 2
    case FetchInstance(_) => 2
    case FetchService(_) => 3
    case ListIngresses(_) => 3
    case FetchIngress(_) => 2
    case FetchDoomed(_) => 3
    case _ => 1
  }

  function Rank(code: Code): nat {
    match code
    case Halt(_) => 0
    case Do(call, rest) => Weight(call) + Rank(rest)
  }

  lemma InstanceStepsEnd(c: Cluster, call: Call, rest: Code)
    requires InstanceCall(call)
    ensures Rank(StepInstances(c, call, rest).code) < Weight(call) + Rank(rest)
  {
    hide Selects, ToStatefulSet, Scaled;
    if call.CheckExists? {
      var lrp := call.lrp;
      var tail := Do(CreateService(lrp), Do(ListIngresses(lrp), rest));
      assert Rank(tail) == 5 + Rank(rest);
      assert Rank(Do(CreateHeadless(lrp), tail)) == 1 + Rank(tail);
    }
  }

  lemma ServiceStepsEnd(c: Cluster, call: Call, rest: Code)
    requires ServiceCall(call)
    ensures Rank(StepServices(c, call, rest).code) < Weight(call) + Rank(rest)
  {
    hide Lookup, Unregistered;
  }

  lemma IngressStepsEnd(parse: Parser, c: Cluster, call: Call, rest: Code)
    requires IngressCall(call)
    ensures Rank(StepIngress(parse, c, call, rest).code) < Weight(call) + Rank(rest)
  {
    hide Lookup, Rules, AllParse;
  }

  lemma StepTerminates(parse: Parser, c: Cluster, call: Call, rest: Code, ok: bool)
    ensures Rank(Step(parse, c, call, rest, ok).code) < Rank(Do(call, rest))
  {
    hide StepInstances, StepServices, StepIngress;
    if InstanceCall(call) {
      InstanceStepsEnd(c, call, rest);
    } else if IngressCall(call) {
      IngressStepsEnd(parse, c, call, rest);
    } else if !call.Send? {
      ServiceStepsEnd(c, call, rest);
    }
  }

  /** What the environment decides: URL parsing and which API requests succeed. */
  datatype Env = Env(parse: Parser, healthy: nat -> bool)

  datatype Final = Final(cluster: Cluster, outcome: Outcome, requests: nat, sent: seq<Batch>)

  /** Run `code` from cluster `c` to its end, the next API request being number `n`. */
  function Finish(env: Env, c: Cluster, code: Code, n: nat): Final
    decreases Rank(code)
  {
    match code
    case Halt(outcome) => Final(c, outcome, n, [])
    case Do(call, rest) =>
      StepTerminates(env.parse, c, call, rest, env.healthy(n));
      var s := Step(env.parse, c, call, rest, env.healthy(n));
      Sent(s.sent, Finish(env, s.cluster, s.code, n + s.requests))
  }

  function Append(p: Code, q: Code): Code {
    match p
    case Halt(Ok) => q
    case Halt(_) => p
    case Do(call, rest) => Do(call, Append(rest, q))
  }

  /** No early successful return: only `Desire` starts with the one call that has it. */
  predicate Straight(code: Code) {
    code.Do? ==> !code.call.CheckExists? && Straight(code.rest)
  }

  lemma StepKeepsTail(parse: Parser, c: Cluster, call: Call, rest: Code, q: Code, ok: bool)
    requires Straight(Do(call, rest))
    ensures var s := Step(parse, c, call, rest, ok);
            Step(parse, c, call, Append(rest, q), ok) == s.(code := Append(s.code, q)) && Straight(s.code)
  {
    hide Lookup, Rules, AllParse, Unregistered, Scaled, ToStatefulSet, ToService, ToHeadlessService, Announcing;
  }

  /** One step of `call; rest` and of `call; rest; q`, seen from the end of the run. */
  lemma UnfoldBoth(env: Env, c: Cluster, call: Call, rest: Code, q: Code, n: nat) returns (s: Stepped)
    requires Straight(Do(call, rest))
    ensures Straight(s.code) && Rank(s.code) < Rank(Do(call, rest))
    ensures Finish(env, c, Do(call, rest), n) == Sent(s.sent, Finish(env, s.cluster, s.code, n + s.requests))
    ensures Finish(env, c, Do(call, Append(rest, q)), n)
         == Sent(s.sent, Finish(env, s.cluster, Append(s.code, q), n + s.requests))
  {
    hide Step;
    s := Step(env.parse, c, call, rest, env.healthy(n));
    StepTerminates(env.parse, c, call, rest, env.healthy(n));
    StepTerminates(env.parse, c, call, Append(rest, q), env.healthy(n));
    StepKeepsTail(env.parse, c, call, rest, q, env.healthy(n));
  }

  /** What runs first, then what runs after it unless the first failed. */
  function Then(f: Final, g: Final): Final {
    if f.outcome.Ok? then g.(sent := f.sent + g.sent) else f
  }

  function Sent(sent: seq<Batch>, f: Final): Final {
    f.(sent := sent + f.sent)
  }

  lemma ThenAssociates(sent: seq<Batch>, f: Final, g: Final)
    ensures Then(Sent(sent, f), g) == Sent(sent, Then(f, g))
  {
    assert sent + (f.sent + g.sent) == (sent + f.sent) + g.sent;
  }

  /** Running `p; q` is running `p` and then, if it returned nil, running `q` in the state it left. */
  lemma {:induction false} FinishInSequence(env: Env, c: Cluster, p: Code, q: Code, n: nat)
    requires Straight(p)
    ensures var f := Finish(env, c, p, n);
            Finish(env, c, Append(p, q), n) == Then(f, Finish(env, f.cluster, q, f.requests))
    decreases Rank(p)
  {
    hide Step, Weight, Straight;
    match p
    case Halt(outcome) =>
      var g := Finish(env, c, q, n);
      assert [] + g.sent == g.sent;
    case Do(call, rest) =>
      var s := UnfoldBoth(env, c, call, rest, q, n);
      var f := Finish(env, s.cluster, s.code, n + s.requests);
      FinishInSequence(env, s.cluster, s.code, q, n + s.requests);
      ThenAssociates(s.sent, f, Finish(env, f.cluster, q, f.requests));
      assert Append(p, q) == Do(call, Append(rest, q));
  }

  lemma {:induction false} SendsForeseen(env: Env, c: Cluster, code: Code, n: nat)
    ensures |Finish(env, c, code, n).sent| <= Sends(code)
    decreases Rank(code)
  {
    hide Step, Sends, Rank;
    if code.Do? {
      var s := Step(env.parse, c, code.call, code.rest, env.healthy(n));
      StepTerminates(env.parse, c, code.call, code.rest, env.healthy(n));
      StepForesees(env.parse, c, code.call, code.rest, env.healthy(n));
      SendsForeseen(env, s.cluster, s.code, n + s.requests);
    }
  }

  /** However it ends, an operation sends at most one batch. */
  lemma AtMostOneBatch(env: Env, c: Cluster, op: Op, n: nat)
    ensures |Finish(env, c, CodeOf(op), n).sent| <= 1
  {
    hide Finish;
    match op {
      case Desire(lrp) =>
      case Update(lrp) => assert Sends(Do(ListIngresses(lrp), Halt(Ok))) == 0;
      case Stop(app) =>
        assert Sends(Do(FetchDoomed(app), Halt(Ok))) == 1;
        assert Sends(Do(FetchIngress(app), Do(FetchDoomed(app), Halt(Ok)))) == 1;
    }
    SendsForeseen(env, c, CodeOf(op), n);
  }
}
