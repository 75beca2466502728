/**
 The whole system over time: one operation at a time on the cluster, interleaved call by call with
 the route collector's ticks and the emitter's publishing. A run is any sequence of actions; an
 action that is not enabled leaves the world as it is.
 */
module Runs {
  import opened Names
  import opened Wrappers
  import opened Model
  import opened Protocol
  import opened Router

  datatype World = World(
    cluster: Cluster,
    code: Code,                // what is left of the operation in progress
    queue: seq<Batch>,         // the route channel
    tick: Option<Batch>,       // listed by the collector, not yet sent
    outbox: seq<Message>,      // received by the emitter, not yet published
    router: Table,
    log: seq<Message>)         // every publish attempt

  datatype Action =
    | Begin(op: Op)
    | Advance(ok: bool)
    | ListTick(ok: bool, order: seq<string>)
    | SendTick
    | Receive
    | Publish(ok: bool)

  ghost function Next(parse: Parser, w: World, a: Action): World {
    match a
    case Begin(op) =>
      if w.code.Halt? && ValidApp(Name(op)) then w.(code := CodeOf(op)) else w
    case Advance(ok) =>
      if w.code.Halt? then w
      else
        var s := Step(parse, w.cluster, w.code.call, w.code.rest, ok);
        w.(cluster := s.cluster, code := s.code, queue := w.queue + s.sent)
    case ListTick(ok, order) =>
      if ok && w.tick.None? && Enumerates(order, w.cluster.services.Keys)
      then w.(tick := ListRoutes(w.cluster.services, order)) else w
    case SendTick =>
      if w.tick.Some? then w.(tick := None, queue := w.queue + [w.tick.value]) else w
    case Receive =>
      if w.outbox == [] && w.queue != [] then w.(outbox := Messages(w.queue[0]), queue := w.queue[1..]) else w
    case Publish(ok) =>
      if w.outbox == [] then w
      else w.(outbox := w.outbox[1..], log := w.log + [w.outbox[0]],
              router := if ok then Apply(w.router, w.outbox[0]) else w.router)
  }

  /** The start: nothing of this system's in the cluster, only services it does not name. */
  function Start(foreign: map<string, Service>): World {
    World(Cluster(map[], foreign, None), Halt(Ok), [], None, [], {}, [])
  }

  ghost predicate Foreign(foreign: map<string, Service>) {
    forall s | s in foreign :: !IsCFService(s) && foreign[s].name == s
  }

  ghost function After(parse: Parser, foreign: map<string, Service>, run: seq<Action>): World {
    if run == [] then Start(foreign)
    else Next(parse, After(parse, foreign, run[..|run| - 1]), run[|run| - 1])
  }

  lemma AfterLast(parse: Parser, foreign: map<string, Service>, run: seq<Action>, n: nat)
    requires n < |run|
    ensures After(parse, foreign, run[..n + 1]) == Next(parse, After(parse, foreign, run[..n]), run[n])
    ensures run[..|run|] == run
  {
    hide Next;
    assert run[..n + 1][..n] == run[..n];
  }

  ghost function RunFrom(parse: Parser, w: World, run: seq<Action>): World
    decreases |run|
  {
    if run == [] then w else RunFrom(parse, Next(parse, w, run[0]), run[1..])
  }

  lemma {:induction false} RunInTwo(parse: Parser, w: World, p: seq<Action>, q: seq<Action>)
    ensures RunFrom(parse, w, p + q) == RunFrom(parse, RunFrom(parse, w, p), q)
    decreases |p|
  {
    if p == [] {
      assert p + q == q;
    } else {
      assert (p + q)[1..] == p[1..] + q;
      RunInTwo(parse, Next(parse, w, p[0]), p[1..], q);
    }
  }

  /** The answers that the API server gives to an operation's steps, as actions. */
  function Answers(env: Env, c: Cluster, code: Code, n: nat): seq<Action>
    decreases Rank(code)
  {
    match code
    case Halt(_) => []
    case Do(call, rest) =>
      StepTerminates(env.parse, c, call, rest, env.healthy(n));
      var s := Step(env.parse, c, call, rest, env.healthy(n));
      [Advance(env.healthy(n))] + Answers(env, s.cluster, s.code, n + s.requests)
  }

  /**
   A finished operation is a run of the machine: taking its steps with the API server's answers, and
   nothing in between, leaves exactly the cluster, the outcome and the batches of `Finish`.
   */
  lemma {:induction false} FinishIsARun(env: Env, w: World, n: nat)
    ensures var f := Finish(env, w.cluster, w.code, n);
      RunFrom(env.parse, w, Answers(env, w.cluster, w.code, n)) ==
        w.(cluster := f.cluster, code := Halt(f.outcome), queue := w.queue + f.sent)
    decreases Rank(w.code)
  {
    hide Step, Rank;
    if w.code.Halt? {
      assert w.queue + [] == w.queue;
    } else {
      var ok := env.healthy(n);
      var s := Step(env.parse, w.cluster, w.code.call, w.code.rest, ok);
      StepTerminates(env.parse, w.cluster, w.code.call, w.code.rest, ok);
      var w1 := w.(cluster := s.cluster, code := s.code, queue := w.queue + s.sent);
      assert Next(env.parse, w, Advance(ok)) == w1;
      var answers := Answers(env, s.cluster, s.code, n + s.requests);
      assert ([Advance(ok)] + answers)[1..] == answers;
      FinishIsARun(env, w1, n + s.requests);
      var f := Finish(env, s.cluster, s.code, n + s.requests);
      assert w.queue + (s.sent + f.sent) == (w.queue + s.sent) + f.sent;
    }
  }

  lemma {:induction false} AfterIsRunFrom(parse: Parser, foreign: map<string, Service>, run: seq<Action>)
    ensures After(parse, foreign, run) == RunFrom(parse, Start(foreign), run)
  {
    hide Next;
    if run != [] {
      var n := |run| - 1;
      AfterIsRunFrom(parse, foreign, run[..n]);
      assert run == run[..n] + [run[n]];
      RunInTwo(parse, Start(foreign), run[..n], [run[n]]);
      var w := After(parse, foreign, run[..n]);
      assert [run[n]][1..] == [];
      assert RunFrom(parse, w, [run[n]]) == Next(parse, w, run[n]);
    }
  }

  /** Operations one after the other, whatever each of them returned; the outcome is that of the last. */
  function RunAll(env: Env, c: Cluster, ops: seq<Op>, n: nat): Final
    decreases |ops|
  {
    if ops == [] then Final(c, Ok, n, [])
    else
      var f := RunAll(env, c, ops[..|ops| - 1], n);
      Sent(f.sent, Finish(env, f.cluster, CodeOf(ops[|ops| - 1]), f.requests))
  }

  /** One operation, and two in turn. */
  lemma InTurn(env: Env, c: Cluster, first: Op, second: Op)
    ensures var f := Finish(env, c, CodeOf(first), 0);
      RunAll(env, c, [first], 0) == f
      && RunAll(env, c, [first, second], 0) == Sent(f.sent, Finish(env, f.cluster, CodeOf(second), f.requests))
  {
    hide Finish, CodeOf;
    assert [first][..0] == [] && [first, second][..1] == [first];
    var f := Finish(env, c, CodeOf(first), 0);
    assert [] + f.sent == f.sent;
  }

  /** One more finished operation extends a run. */
  lemma OneMoreOperation(env: Env, foreign: map<string, Service>, before: seq<Action>, op: Op, n: nat)
    requires After(env.parse, foreign, before).code.Halt? && ValidApp(Name(op))
    ensures var w := After(env.parse, foreign, before);
      var f := Finish(env, w.cluster, CodeOf(op), n);
      After(env.parse, foreign, before + ([Begin(op)] + Answers(env, w.cluster, CodeOf(op), n))) ==
        w.(cluster := f.cluster, code := Halt(f.outcome), queue := w.queue + f.sent)
  {
    hide After, Finish, Answers, ValidApp, CodeOf;
    var w := After(env.parse, foreign, before);
    var answers := Answers(env, w.cluster, CodeOf(op), n);
    AfterIsRunFrom(env.parse, foreign, before);
    AfterIsRunFrom(env.parse, foreign, before + ([Begin(op)] + answers));
    RunInTwo(env.parse, Start(foreign), before, [Begin(op)] + answers);
    assert ([Begin(op)] + answers)[1..] == answers;
    FinishIsARun(env, w.(code := CodeOf(op)), n);
  }

  /**
   So is any sequence of operations, under any answers of the API server: what holds after every run
   holds after all that the manager classes do.
   */
  lemma {:induction false} OperationsAreARun(env: Env, foreign: map<string, Service>, ops: seq<Op>)
    requires forall op | op in ops :: ValidApp(Name(op))
    ensures var f := RunAll(env, Start(foreign).cluster, ops, 0);
      exists run :: After(env.parse, foreign, run) ==
        Start(foreign).(cluster := f.cluster, code := Halt(f.outcome), queue := f.sent)
    decreases |ops|
  {
    hide Finish, Answers, ValidApp;
    if ops == [] {
      assert After(env.parse, foreign, []) == Start(foreign);
    } else {
      var n := |ops| - 1;
      OperationsAreARun(env, foreign, ops[..n]);
      var f := RunAll(env, Start(foreign).cluster, ops[..n], 0);
      var before :| After(env.parse, foreign, before) ==
        Start(foreign).(cluster := f.cluster, code := Halt(f.outcome), queue := f.sent);
      assert ops[n] in ops;
      OneMoreOperation(env, foreign, before, ops[n], f.requests);
    }
  }
}
