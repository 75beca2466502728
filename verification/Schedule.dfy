/** The router against the annotations in terms of the schedule alone: when exactly `Stop` orphans a route. */
module Schedule {
  import opened Names
  import opened Wrappers
  import opened Model
  import opened Protocol
  import opened Router
  import opened Runs
  import opened Safety
  import opened Reachable
  import opened Sync

  /** Everything ever handed to the emitter, in order: published or not, received, and queued. */
  function Stream(w: World): seq<Message> {
    w.log + w.outbox + Flatten(w.queue)
  }

  function Waiting(w: World): seq<Message> {
    w.outbox + Flatten(w.queue)
  }

  predicate Registers(m: Message, s: string) {
    m.Register? && m.app == s && m.uris != []
  }

  ghost predicate Known(table: Table, s: string) {
    exists u :: (s, u) in table
  }

  // ----- one step in the gap of a `Stop`: unregistered, not yet deleted -----

  predicate InGap(w: World, app: string) {
    w.code.Do? && w.code.call == DeleteService(app)
  }

  /** How many of the waiting messages were there before position `base` of the stream. */
  function EarlyCount(w: World, base: nat): (n: nat)
    ensures base <= |Stream(w)| ==> n <= |Waiting(w)|
  {
    if |w.log| < base then base - |w.log| else 0
  }

  /** The router once those are published. */
  function Kept(w: World, base: nat): Table
    requires base <= |Stream(w)|
  {
    ApplyAll(w.router, Waiting(w)[..EarlyCount(w, base)])
  }

  /** What came later only registers; what is kept of service `s` is in the router already, and will stay there. */
  ghost predicate Steady(w: World, base: nat, s: string) {
    && base <= |Stream(w)|
    && OnlyRegisters(Waiting(w)[EarlyCount(w, base)..])
    && forall p | p in Kept(w, base) && p.0 == s :: p in Surviving(w.router, Waiting(w)[..EarlyCount(w, base)])
  }

  lemma SurvivorsApplied(table: Table, ms: seq<Message>)
    ensures Surviving(table, ms) <= ApplyAll(table, ms)
  {
    ApplyUnion({}, table, ms);
    assert {} + table == table;
  }

  lemma {:induction false} SurvivingUnion(a: Table, b: Table, ms: seq<Message>)
    ensures Surviving(a + b, ms) == Surviving(a, ms) + Surviving(b, ms)
    decreases |ms|
  {
    if ms != [] && ms[0].Unregister? {
      var pairs := Pairs(ms[0].app, ms[0].uris);
      assert (a + b) - pairs == (a - pairs) + (b - pairs);
      SurvivingUnion(a - pairs, b - pairs, ms[1..]);
    } else if ms != [] {
      SurvivingUnion(a, b, ms[1..]);
    }
  }

  lemma {:induction false} RegistersSurvived(table: Table, ms: seq<Message>)
    requires OnlyRegisters(ms)
    ensures Surviving(table, ms) == table
    decreases |ms|
  {
    if ms != [] {
      assert ms[0] in ms && forall m | m in ms[1..] :: m in ms;
      RegistersSurvived(table, ms[1..]);
    }
  }

  /** Publishing the first of the early messages keeps what is kept. */
  lemma EarlyPublished(table: Table, m: Message, early: seq<Message>, s: string)
    requires forall p | p in ApplyAll(table, [m] + early) && p.0 == s :: p in Surviving(table, [m] + early)
    ensures ApplyAll(Apply(table, m), early) == ApplyAll(table, [m] + early)
    ensures forall p | p in ApplyAll(table, [m] + early) && p.0 == s :: p in Surviving(Apply(table, m), early)
  {
    assert ([m] + early)[1..] == early;
    if m.Register? {
      SurvivingUnion(table, Pairs(m.app, m.uris), early);
    }
  }

  /** Losing it keeps that too, and leaves behind what it alone would have withdrawn. */
  lemma EarlyLost(table: Table, m: Message, early: seq<Message>, s: string)
    requires forall p | p in ApplyAll(table, [m] + early) && p.0 == s :: p in Surviving(table, [m] + early)
    ensures forall p | p in ApplyAll(table, early) && p.0 == s :: p in Surviving(table, early)
    ensures var left := if m.Unregister? then Surviving(table * Pairs(m.app, m.uris), early) else {};
      forall u :: (s, u) in ApplyAll(table, early) <==> (s, u) in ApplyAll(table, [m] + early) || (s, u) in left
  {
    assert ([m] + early)[1..] == early;
    SurvivorsApplied(table, early);
    var pairs := Pairs(m.app, m.uris);
    if m.Register? {
      ApplyMonotone(table, Apply(table, m), early);
    } else {
      assert table == (table - pairs) + (table * pairs);
      ApplyUnion(table - pairs, table * pairs, early);
      SurvivingUnion(table - pairs, table * pairs, early);
    }
  }

  /** The action publishes a registration of `s` that entered the stream at or after `base`. */
  predicate Publishes(w: World, a: Action, base: nat, s: string) {
    a == Publish(true) && w.outbox != [] && |w.log| >= base && Registers(w.outbox[0], s)
  }

  /** The action loses an unregister message and leaves an endpoint of `s` behind. */
  ghost predicate LeavesKnown(w: World, a: Action, s: string) {
    LosesUnregister(w, a) && Known(LeftBehind(w), s)
  }

  /** What the action adds to the stream. */
  function Added(w: World, a: Action): seq<Message> {
    if a.SendTick? && w.tick.Some? then Messages(w.tick.value) else []
  }

  predicate Streams(w: World, a: Action, w': World) {
    && Stream(w') == Stream(w) + Added(w, a)
    && (if a.Publish? && w.outbox != [] then w'.log == w.log + [w.outbox[0]] && Waiting(w') == Waiting(w)[1..]
        else w'.log == w.log && w'.router == w.router && Waiting(w') == Waiting(w) + Added(w, a))
  }

  lemma SendTickStreams(parse: Parser, w: World)
    ensures Streams(w, SendTick, Next(parse, w, SendTick))
  {
    hide Messages;
    if w.tick.Some? {
      var ms := Messages(w.tick.value);
      FlattenAppend(w.queue, [w.tick.value]);
      assert Flatten([w.tick.value]) == ms + Flatten([]);
      assert w.outbox + (Flatten(w.queue) + ms) == Waiting(w) + ms;
      assert w.log + w.outbox + (Flatten(w.queue) + ms) == Stream(w) + ms;
    } else {
      assert Waiting(w) + [] == Waiting(w) && Stream(w) + [] == Stream(w);
    }
  }

  lemma ReceiveStreams(parse: Parser, w: World)
    ensures Streams(w, Receive, Next(parse, w, Receive))
  {
    hide Messages;
    var w' := Next(parse, w, Receive);
    assert Waiting(w) + [] == Waiting(w) && Stream(w) + [] == Stream(w);
    if w' != w {
      assert Flatten(w.queue) == Messages(w.queue[0]) + Flatten(w.queue[1..]);
      assert [] + Flatten(w.queue) == Flatten(w.queue);
      assert w.log + [] + Flatten(w.queue) == w.log + Messages(w.queue[0]) + Flatten(w.queue[1..]);
    }
  }

  lemma PublishStreams(parse: Parser, w: World, ok: bool)
    ensures Streams(w, Publish(ok), Next(parse, w, Publish(ok)))
  {
    hide Flatten, Apply;
    assert Waiting(w) + [] == Waiting(w) && Stream(w) + [] == Stream(w);
    if w.outbox != [] {
      assert (w.outbox + Flatten(w.queue))[1..] == w.outbox[1..] + Flatten(w.queue);
      assert w.log + [w.outbox[0]] + w.outbox[1..] == w.log + w.outbox;
    }
  }

  lemma GapStreams(parse: Parser, h: History, w: World, a: Action, app: string)
    requires GoodWorld(parse, h, w) && InGap(w, app) && Next(parse, w, a).code == w.code
    ensures Streams(w, a, Next(parse, w, a)) && OnlyRegisters(Added(w, a)) && !a.Advance?
  {
    hide GoodCluster, Ready, AllJustified, Stream, Waiting, Flatten, StepInstances, StepServices, StepIngress, Messages,
         Enumerates, ListRoutes;
    match a
    case Advance(ok) => StepTerminates(parse, w.cluster, w.code.call, w.code.rest, ok);
    case SendTick => SendTickStreams(parse, w);
    case Receive => ReceiveStreams(parse, w);
    case Publish(ok) => PublishStreams(parse, w, ok);
    case _ => SameStreams(w, a, Next(parse, w, a));
  }

  lemma SameStreams(w: World, a: Action, w': World)
    requires w'.log == w.log && w'.outbox == w.outbox && w'.queue == w.queue && w'.router == w.router
    requires !a.SendTick? && !a.Publish?
    ensures Streams(w, a, w')
  {
    assert Waiting(w) + [] == Waiting(w) && Stream(w) + [] == Stream(w);
  }

  /** A step in the gap: what is kept of the service grows by published late registrations and by lost messages only. */
  lemma GapStep(parse: Parser, h: History, w: World, a: Action, app: string, base: nat)
    requires GoodWorld(parse, h, w) && InGap(w, app) && Next(parse, w, a).code == w.code
    requires Steady(w, base, ServiceName(app))
    ensures var w', s := Next(parse, w, a), ServiceName(app);
      && Steady(w', base, s)
      && (Known(Kept(w', base), s) <==> Known(Kept(w, base), s) || LeavesKnown(w, a, s) || Publishes(w, a, base, s))
  {
    hide GoodWorld, ApplyAll, Surviving, Flatten, Messages, Added;
    GapStreams(parse, h, w, a, app);
    var w', n := Next(parse, w, a), EarlyCount(w, base);
    if a.Publish? && w.outbox != [] {
      if n > 0 {
        EarlyStep(parse, w, a, base, ServiceName(app));
      } else {
        LateStep(parse, w, a, base, ServiceName(app));
      }
    } else {
      assert Waiting(w')[..n] == Waiting(w)[..n];
      assert Waiting(w')[n..] == Waiting(w)[n..] + Added(w, a);
    }
  }

  lemma FirstOf(ms: seq<Message>, n: nat)
    requires 0 < n <= |ms|
    ensures ms[..n] == [ms[0]] + ms[1..n] && ms[1..][..n - 1] == ms[1..n] && ms[1..][n - 1..] == ms[n..]
  {
  }

  lemma EarlyStep(parse: Parser, w: World, a: Action, base: nat, s: string)
    requires a.Publish? && w.outbox != [] && Steady(w, base, s) && EarlyCount(w, base) > 0 && Unsent(w.code) == []
    requires var w' := Next(parse, w, a); w'.log == w.log + [w.outbox[0]] && Waiting(w') == Waiting(w)[1..]
    ensures var w' := Next(parse, w, a);
      && Steady(w', base, s)
      && (Known(Kept(w', base), s) <==> Known(Kept(w, base), s) || LeavesKnown(w, a, s) || Publishes(w, a, base, s))
  {
    hide ApplyAll, Surviving, Flatten, Apply;
    var w', n, m := Next(parse, w, a), EarlyCount(w, base), w.outbox[0];
    var early, late := Waiting(w)[1..n], Waiting(w)[n..];
    FirstOf(Waiting(w), n);
    assert Waiting(w)[0] == m;
    if a.ok {
      EarlyPublished(w.router, m, early, s);
    } else {
      EarlyLost(w.router, m, early, s);
      if m.Unregister? {
        var pairs := w.router * Pairs(m.app, m.uris);
        assert w.outbox[1..] + Flatten(w.queue) + [] == early + late;
        SurvivingAppend(pairs, early, late);
        RegistersSurvived(Surviving(pairs, early), late);
      }
      assert forall u :: (s, u) in Kept(w', base) <==>
        (s, u) in Kept(w, base) || (m.Unregister? && (s, u) in LeftBehind(w));
    }
  }

  lemma LateStep(parse: Parser, w: World, a: Action, base: nat, s: string)
    requires a.Publish? && w.outbox != [] && Steady(w, base, s) && EarlyCount(w, base) == 0
    requires var w' := Next(parse, w, a); w'.log == w.log + [w.outbox[0]] && Waiting(w') == Waiting(w)[1..]
    ensures var w' := Next(parse, w, a);
      && Steady(w', base, s)
      && (Known(Kept(w', base), s) <==> Known(Kept(w, base), s) || LeavesKnown(w, a, s) || Publishes(w, a, base, s))
  {
    hide Flatten;
    var w', m := Next(parse, w, a), w.outbox[0];
    assert m in Waiting(w)[0..] && Waiting(w)[..0] == [] && Waiting(w')[..0] == [];
    assert Waiting(w')[0..] == Waiting(w)[1..];
    assert forall u :: (s, u) in w'.router <==> (s, u) in w.router || (a.ok && m.app == s && u in m.uris);
    if Registers(m, s) { assert (s, m.uris[0]) in Pairs(m.app, m.uris); }
  }

  /** All in all the service will be known exactly by what is kept and by the later registrations still waiting. */
  lemma GapSettles(w: World, app: string, base: nat)
    requires InGap(w, app) && Steady(w, base, ServiceName(app))
    ensures var s := ServiceName(app);
      Known(Settled(w), s) <==>
        || Known(Kept(w, base), s)
        || exists q | base <= q < |Stream(w)| :: |w.log| <= q && Registers(Stream(w)[q], s)
  {
    hide ApplyAll, Flatten;
    var s, n := ServiceName(app), EarlyCount(w, base);
    var early, late := Waiting(w)[..n], Waiting(w)[n..];
    assert w.outbox + Flatten(w.queue) + Unsent(w.code) == early + late;
    ApplyAppend(w.router, early, late);
    ApplyRegisters(Kept(w, base), late);
    RegistrationsKnown(late, s);
    assert forall i | 0 <= i < |late| :: late[i] == Stream(w)[|w.log| + n + i];
    if i :| 0 <= i < |late| && Registers(late[i], s) {
      assert Registers(Stream(w)[|w.log| + n + i], s);
    }
    if q :| base <= q < |Stream(w)| && |w.log| <= q && Registers(Stream(w)[q], s) {
      assert Registers(late[q - |w.log| - n], s);
    }
  }

  lemma {:induction false} RegistrationsKnown(ms: seq<Message>, s: string)
    requires OnlyRegisters(ms)
    ensures Known(Registrations(ms), s) <==> exists i :: 0 <= i < |ms| && Registers(ms[i], s)
    decreases |ms|
  {
    if ms != [] {
      RegistrationsKnown(ms[1..], s);
      assert ms == [ms[0]] + ms[1..];
      if Registers(ms[0], s) { assert (s, ms[0].uris[0]) in Registrations(ms); }
      if u :| (s, u) in Registrations(ms[1..]) { assert (s, u) in Registrations(ms); }
      if i :| 0 <= i < |ms[1..]| && Registers(ms[1..][i], s) { assert Registers(ms[i + 1], s); }
    }
  }

  // ----- over a run -----

  ghost function At(parse: Parser, foreign: Services, run: seq<Action>, k: nat): World
    requires k <= |run|
  {
    After(parse, foreign, run[..k])
  }

  lemma AtNext(parse: Parser, foreign: Services, run: seq<Action>, n: nat) returns (h: History)
    requires Foreign(foreign) && n < |run|
    ensures At(parse, foreign, run, n + 1) == Next(parse, At(parse, foreign, run, n), run[n])
    ensures GoodWorld(parse, h, At(parse, foreign, run, n))
  {
    hide Next, After, GoodWorld;
    AfterLast(parse, foreign, run, n);
    RunIsGood(parse, foreign, run[..n]);
    h := Past(parse, foreign, run[..n]);
  }

  /** From the `k`-th to the `j`-th state one and the same `Stop` waits to delete the service of `app`. */
  ghost predicate Waits(parse: Parser, foreign: Services, run: seq<Action>, k: nat, j: nat, app: string) {
    && k <= j <= |run|
    && forall i | k <= i <= j ::
         InGap(At(parse, foreign, run, i), app) && At(parse, foreign, run, i).code == At(parse, foreign, run, k).code
  }

  /** Once the unregister batch is prepared, in sync means that no endpoint of the service will be left. */
  lemma UnregisteringLacks(parse: Parser, h: History, w: World)
    requires GoodWorld(parse, h, w) && InSync(w)
    requires w.code.Do? && w.code.call.Send? && w.code.rest.Do? && w.code.rest.call.DeleteService?
    ensures Lacks(Settled(w), ServiceName(w.code.rest.call.app))
  {
    hide GoodCluster, AllJustified, IsAppService, Messages, ApplyAll, ValidApp;
    var s, r := ServiceName(w.code.rest.call.app), w.code.call.batch[0];
    var sent := w.outbox + Flatten(w.queue);
    ApplyAppend(w.router, sent, Messages([r]));
    EntryApplies(ApplyAll(w.router, sent), r);
    forall p | p in Settled(w) ensures p.0 != s {
      assert p == (p.0, p.1) && Announces(w.cluster.services, p);
    }
  }

  /** The call before the deletion is the send of its unregister batch. */
  lemma BeforeDeletion(parse: Parser, h: History, w: World, a: Action)
    requires GoodWorld(parse, h, w)
    requires var code := Next(parse, w, a).code; code.Do? && code.call.DeleteService? && code != w.code
    ensures a.Advance? && w.code.Do? && w.code.call.Send? && w.code.rest == Next(parse, w, a).code
  {
    hide GoodCluster, AllJustified, StepInstances, StepServices, StepIngress, ValidApp, IsAppService, Selects;
    if a.Advance? && w.code.Do? {
      CallKeepsListing(parse, h, w.cluster, w.code.call, w.code.rest, a.ok);
      if w.code.call.FetchDoomed? { FetchDoomedGoes(w.cluster, w.code.call.app, w.code.rest); }
    }
  }

  /** A gap begins with the send of the unregister batch; in sync, nothing is known of the service then. */
  lemma {:induction false} GapBegins(parse: Parser, foreign: Services, run: seq<Action>, j: nat, app: string)
    returns (g: nat)
    requires Foreign(foreign) && j <= |run| && InGap(At(parse, foreign, run, j), app)
    requires forall i | 0 <= i <= j :: SyncAt(parse, foreign, run, i)
    ensures 0 < g <= j && Waits(parse, foreign, run, g, j, app)
    ensures !Known(Settled(At(parse, foreign, run, g)), ServiceName(app))
    ensures At(parse, foreign, run, g - 1).code != At(parse, foreign, run, j).code
  {
    hide Next, At, GoodWorld, InSync, Settled, Known;
    assert j > 0 by { StartIsIdle(parse, foreign, run); }
    var n := j - 1;
    var h := AtNext(parse, foreign, run, n);
    var w, w' := At(parse, foreign, run, n), At(parse, foreign, run, j);
    assert InSync(w) by { assert SyncAt(parse, foreign, run, n); AtIsAfter(parse, foreign, run, n); }
    if w.code == w'.code {
      g := GapBegins(parse, foreign, run, n, app);
    } else {
      BeforeDeletion(parse, h, w, run[n]);
      UnregisteringLacks(parse, h, w);
      AdvanceSettles(parse, h, w, run[n].ok);
      LacksMeansUnknown(Settled(w), ServiceName(app));
      g := j;
    }
  }

  lemma StartIsIdle(parse: Parser, foreign: Services, run: seq<Action>)
    ensures At(parse, foreign, run, 0).code == Halt(Ok)
  {
  }

  lemma AtIsAfter(parse: Parser, foreign: Services, run: seq<Action>, n: nat)
    requires n <= |run|
    ensures At(parse, foreign, run, n) == After(parse, foreign, run[..n])
  {
  }

  lemma LacksMeansUnknown(table: Table, s: string)
    ensures Lacks(table, s) ==> !Known(table, s)
  {
  }

  lemma GapOpens(w: World, app: string)
    requires InGap(w, app) && !Known(Settled(w), ServiceName(app))
    ensures var base, s := |Stream(w)|, ServiceName(app); Steady(w, base, s) && !Known(Kept(w, base), s)
  {
    hide ApplyAll, Flatten, Surviving;
    var base := |Stream(w)|;
    assert Waiting(w)[..EarlyCount(w, base)] == Waiting(w) == w.outbox + Flatten(w.queue) + Unsent(w.code);
    assert forall p | p in Kept(w, base) :: p == (p.0, p.1);
  }

  ghost predicate PublishesAt(parse: Parser, foreign: Services, run: seq<Action>, i: nat, base: nat, app: string) {
    i < |run| && Publishes(At(parse, foreign, run, i), run[i], base, ServiceName(app))
  }

  /** Action `i` loses an unregister message, and with it leaves an endpoint of the app's service behind. */
  ghost predicate LeavesAt(parse: Parser, foreign: Services, run: seq<Action>, i: nat, app: string) {
    i < |run| && LeavesKnown(At(parse, foreign, run, i), run[i], ServiceName(app))
  }

  /** What is kept of the service at the end of the gap: late registrations published, and what losses left behind. */
  lemma {:induction false} KeptExactly(parse: Parser, foreign: Services, run: seq<Action>, g: nat, j: nat, app: string)
    requires Foreign(foreign) && Waits(parse, foreign, run, g, j, app)
    requires !Known(Settled(At(parse, foreign, run, g)), ServiceName(app))
    ensures var w, base, s := At(parse, foreign, run, j), |Stream(At(parse, foreign, run, g))|, ServiceName(app);
      && Steady(w, base, s)
      && (Known(Kept(w, base), s) <==>
            || (exists i | g <= i < j :: PublishesAt(parse, foreign, run, i, base, app))
            || (exists i | g <= i < j :: LeavesAt(parse, foreign, run, i, app)))
    decreases j
  {
    hide Next, At, GoodWorld, Stream, Settled, Known, Steady, Kept, Publishes, LeavesKnown;
    var base := |Stream(At(parse, foreign, run, g))|;
    if g == j {
      GapOpens(At(parse, foreign, run, g), app);
    } else {
      var n := j - 1;
      KeptExactly(parse, foreign, run, g, n, app);
      var h := AtNext(parse, foreign, run, n);
      GapStep(parse, h, At(parse, foreign, run, n), run[n], app, base);
      assert PublishesAt(parse, foreign, run, n, base, app) <==>
        Publishes(At(parse, foreign, run, n), run[n], base, ServiceName(app));
      assert LeavesAt(parse, foreign, run, n, app) <==>
        LeavesKnown(At(parse, foreign, run, n), run[n], ServiceName(app));
    }
  }

  lemma {:induction false} StreamGrows(parse: Parser, foreign: Services, run: seq<Action>, i: nat, j: nat, app: string)
    requires Foreign(foreign) && Waits(parse, foreign, run, i, j, app)
    ensures Stream(At(parse, foreign, run, i)) <= Stream(At(parse, foreign, run, j))
    decreases j
  {
    hide Next, At, GoodWorld, Stream, Added, Waiting;
    if i < j {
      var n := j - 1;
      StreamGrows(parse, foreign, run, i, n, app);
      var h := AtNext(parse, foreign, run, n);
      GapStreams(parse, h, At(parse, foreign, run, n), run[n], app);
    }
  }

  /** Action `k` delivers, in the gap, a listing with a registration of the service, at position `p` of the stream. */
  ghost predicate BringsAt(parse: Parser, foreign: Services, run: seq<Action>, k: nat, p: nat, app: string) {
    && k < |run| && run[k] == SendTick && InGap(At(parse, foreign, run, k), app)
    && |Stream(At(parse, foreign, run, k))| <= p < |Stream(At(parse, foreign, run, k + 1))|
    && Registers(Stream(At(parse, foreign, run, k + 1))[p], ServiceName(app))
  }

  /** By the `j`-th state that message has been published after action `k`, or is still waiting. */
  ghost predicate ArrivesBy(parse: Parser, foreign: Services, run: seq<Action>, k: nat, p: nat, j: nat) {
    && j <= |run|
    && (|| |At(parse, foreign, run, j).log| <= p
        || exists i | k < i < j :: PublishesPosition(parse, foreign, run, i, p))
  }

  ghost predicate PublishesPosition(parse: Parser, foreign: Services, run: seq<Action>, i: nat, p: nat) {
    && i < |run| && run[i] == Publish(true)
    && At(parse, foreign, run, i).outbox != [] && |At(parse, foreign, run, i).log| == p
  }

  lemma {:induction false} BringerOf(parse: Parser, foreign: Services, run: seq<Action>, g: nat, j: nat,
                                     p: nat, app: string)
    returns (k: nat)
    requires Foreign(foreign) && Waits(parse, foreign, run, g, j, app)
    requires |Stream(At(parse, foreign, run, g))| <= p < |Stream(At(parse, foreign, run, j))|
    requires Registers(Stream(At(parse, foreign, run, j))[p], ServiceName(app))
    ensures g <= k < j && BringsAt(parse, foreign, run, k, p, app)
    decreases j
  {
    hide Next, At, GoodWorld, Stream, Waiting, Messages;
    var n := j - 1;
    var h := AtNext(parse, foreign, run, n);
    GapStreams(parse, h, At(parse, foreign, run, n), run[n], app);
    if p < |Stream(At(parse, foreign, run, n))| {
      k := BringerOf(parse, foreign, run, g, n, p, app);
    } else {
      k := n;
    }
  }

  /** The listing delivered by action `k` has brought the service back by the `j`-th state, still in the same gap. */
  ghost predicate RevivedAt(parse: Parser, foreign: Services, run: seq<Action>, k: nat, j: nat, app: string) {
    && k < j && Waits(parse, foreign, run, k, j, app)
    && exists p :: BringsAt(parse, foreign, run, k, p, app) && ArrivesBy(parse, foreign, run, k, p, j)
  }

  /** Action `i` lost an unregister message of the service, and by the `j`-th state the same `Stop` has not gone on. */
  ghost predicate UnwithdrawnAt(parse: Parser, foreign: Services, run: seq<Action>, i: nat, j: nat, app: string) {
    i < j && Waits(parse, foreign, run, i, j, app) && LeavesAt(parse, foreign, run, i, app)
  }

  /** A published late registration was brought by a delivery in the gap. */
  lemma PublishedWasBrought(parse: Parser, foreign: Services, run: seq<Action>, g: nat, i: nat, j: nat, app: string)
    requires Foreign(foreign) && Waits(parse, foreign, run, g, j, app) && g <= i < j
    requires PublishesAt(parse, foreign, run, i, |Stream(At(parse, foreign, run, g))|, app)
    ensures exists k :: RevivedAt(parse, foreign, run, k, j, app)
  {
    hide At, Flatten;
    var w := At(parse, foreign, run, i);
    var p := |w.log|;
    assert Stream(w)[p] == w.outbox[0];
    hide Stream;
    var k := BringerOf(parse, foreign, run, g, i, p, app);
    assert PublishesPosition(parse, foreign, run, i, p);
    assert ArrivesBy(parse, foreign, run, k, p, j);
    assert RevivedAt(parse, foreign, run, k, j, app);
  }

  /** And what a delivery brought is either waiting or was published, as a late registration, in the gap. */
  lemma BroughtArrives(parse: Parser, foreign: Services, run: seq<Action>, g: nat, k: nat, p: nat, j: nat, app: string)
    requires Foreign(foreign) && Waits(parse, foreign, run, g, j, app) && g <= k < j
    requires BringsAt(parse, foreign, run, k, p, app) && ArrivesBy(parse, foreign, run, k, p, j)
    ensures var w, base := At(parse, foreign, run, j), |Stream(At(parse, foreign, run, g))|;
      || (base <= p < |Stream(w)| && |w.log| <= p && Registers(Stream(w)[p], ServiceName(app)))
      || exists i | g <= i < j :: PublishesAt(parse, foreign, run, i, base, app)
  {
    hide At, Stream, Registers;
    StreamGrows(parse, foreign, run, g, k, app);
    StreamGrows(parse, foreign, run, k + 1, j, app);
    if |At(parse, foreign, run, j).log| > p {
      var i :| k < i < j && PublishesPosition(parse, foreign, run, i, p);
      StreamGrows(parse, foreign, run, k + 1, i, app);
      NextPublished(At(parse, foreign, run, i));
      assert PublishesAt(parse, foreign, run, i, |Stream(At(parse, foreign, run, g))|, app);
    }
  }

  lemma NextPublished(w: World)
    requires w.outbox != []
    ensures |w.log| < |Stream(w)| && Stream(w)[|w.log|] == w.outbox[0]
  {
  }

  /**
   While `Stop` waits to delete, in sync so far: the router will know the service exactly when a listing
   delivered meanwhile brought it back and that message was not lost, or a lost message left it behind.
   */
  lemma KnownExactly(parse: Parser, foreign: Services, run: seq<Action>, j: nat, app: string)
    requires Foreign(foreign) && j <= |run| && InGap(At(parse, foreign, run, j), app)
    requires forall i | 0 <= i <= j :: SyncAt(parse, foreign, run, i)
    ensures Known(Settled(At(parse, foreign, run, j)), ServiceName(app)) <==>
      || (exists k :: RevivedAt(parse, foreign, run, k, j, app))
      || (exists i :: UnwithdrawnAt(parse, foreign, run, i, j, app))
  {
    hide At, SyncAt, InGap, Stream, Settled, Known, Steady, Kept, Registers, BringsAt, ArrivesBy, PublishesAt, LeavesAt;
    var g := GapBegins(parse, foreign, run, j, app);
    var w, base, s := At(parse, foreign, run, j), |Stream(At(parse, foreign, run, g))|, ServiceName(app);
    KeptExactly(parse, foreign, run, g, j, app);
    GapSettles(w, app, base);
    if i :| g <= i < j && PublishesAt(parse, foreign, run, i, base, app) {
      PublishedWasBrought(parse, foreign, run, g, i, j, app);
    }
    if i :| g <= i < j && LeavesAt(parse, foreign, run, i, app) {
      assert UnwithdrawnAt(parse, foreign, run, i, j, app);
    }
    if q :| base <= q < |Stream(w)| && |w.log| <= q && Registers(Stream(w)[q], s) {
      var k := BringerOf(parse, foreign, run, g, j, q, app);
      assert ArrivesBy(parse, foreign, run, k, q, j) by { StillWaits(parse, foreign, run, k, q, j); }
      assert RevivedAt(parse, foreign, run, k, j, app);
    }
    if k: nat :| RevivedAt(parse, foreign, run, k, j, app) {
      assert k >= g;
      var p: nat :| BringsAt(parse, foreign, run, k, p, app) && ArrivesBy(parse, foreign, run, k, p, j);
      BroughtArrives(parse, foreign, run, g, k, p, j, app);
    }
    if i: nat :| UnwithdrawnAt(parse, foreign, run, i, j, app) {
      assert i >= g;
    }
  }

  lemma StillWaits(parse: Parser, foreign: Services, run: seq<Action>, k: nat, p: nat, j: nat)
    requires j <= |run| && |At(parse, foreign, run, j).log| <= p
    ensures ArrivesBy(parse, foreign, run, k, p, j)
  {
  }

  // ----- the theorems -----

  ghost predicate OrphansAt(parse: Parser, foreign: Services, run: seq<Action>, j: nat) {
    j < |run| && Orphans(At(parse, foreign, run, j), run[j])
  }

  ghost predicate StaleAt(parse: Parser, foreign: Services, run: seq<Action>, k: nat) {
    k < |run| && Stale(At(parse, foreign, run, k), run[k])
  }

  ghost predicate LostAt(parse: Parser, foreign: Services, run: seq<Action>, k: nat) {
    k < |run| && Leaves(At(parse, foreign, run, k), run[k])
  }

  /** The last request of a `Stop` succeeds. */
  predicate Deletes(w: World, a: Action, app: string) {
    a == Advance(true) && InGap(w, app) && ServiceName(app) in w.cluster.services
  }

  /**
   Action `j` deletes a service of which a listing, delivered by action `k` after its unregister batch went
   out, has registered a route, or is about to: the message was published or is still waiting.
   */
  ghost predicate TickInGap(parse: Parser, foreign: Services, run: seq<Action>, k: nat, j: nat) {
    && j < |run|
    && exists app :: Deletes(At(parse, foreign, run, j), run[j], app) && RevivedAt(parse, foreign, run, k, j, app)
  }

  /** Action `j` deletes a service of which action `i`, in the same gap, lost an unregister message. */
  ghost predicate LossInGap(parse: Parser, foreign: Services, run: seq<Action>, i: nat, j: nat) {
    && j < |run|
    && exists app :: Deletes(At(parse, foreign, run, j), run[j], app) && UnwithdrawnAt(parse, foreign, run, i, j, app)
  }

  /** In sync so far: the next action orphans a route exactly when it is such a deletion. */
  lemma OrphansExactly(parse: Parser, foreign: Services, run: seq<Action>, j: nat)
    requires Foreign(foreign) && j <= |run| && forall i | 0 <= i <= j :: SyncAt(parse, foreign, run, i)
    ensures OrphansAt(parse, foreign, run, j) <==>
      || (exists k :: TickInGap(parse, foreign, run, k, j))
      || (exists i :: LossInGap(parse, foreign, run, i, j))
  {
    hide At, SyncAt, Settled, RevivedAt, UnwithdrawnAt;
    if j < |run| && At(parse, foreign, run, j).code.Do? && At(parse, foreign, run, j).code.call.DeleteService? {
      var app := At(parse, foreign, run, j).code.call.app;
      KnownExactly(parse, foreign, run, j, app);
      if Deletes(At(parse, foreign, run, j), run[j], app) {
        if k: nat :| RevivedAt(parse, foreign, run, k, j, app) { assert TickInGap(parse, foreign, run, k, j); }
        if i: nat :| UnwithdrawnAt(parse, foreign, run, i, j, app) { assert LossInGap(parse, foreign, run, i, j); }
      }
    }
  }

  /** What a sound action is, on the schedule. */
  lemma SoundParts(parse: Parser, foreign: Services, run: seq<Action>, k: nat)
    requires k < |run|
    ensures SoundAt(parse, foreign, run, k) <==>
      !StaleAt(parse, foreign, run, k) && !LostAt(parse, foreign, run, k) && !OrphansAt(parse, foreign, run, k)
    ensures forall i: nat | TickInGap(parse, foreign, run, i, k) || LossInGap(parse, foreign, run, i, k) :: i < k
  {
    hide After, Stale, Orphans, Leaves;
  }

  lemma {:induction false} ScheduleUpTo(parse: Parser, foreign: Services, run: seq<Action>, n: nat)
    requires Foreign(foreign) && n <= |run|
    ensures (forall k | 0 <= k <= n :: SyncAt(parse, foreign, run, k)) <==>
      && (forall k | 0 <= k < n :: !StaleAt(parse, foreign, run, k) && !LostAt(parse, foreign, run, k))
      && (forall k, j | 0 <= k < j < n ::
            !TickInGap(parse, foreign, run, k, j) && !LossInGap(parse, foreign, run, k, j))
  {
    hide SyncAt, TickInGap, LossInGap, StaleAt, LostAt, SoundAt, OrphansAt;
    if n == 0 {
      SyncAtStart(parse, foreign, run);
    } else {
      ScheduleUpTo(parse, foreign, run, n - 1);
      if forall k | 0 <= k <= n - 1 :: SyncAt(parse, foreign, run, k) {
        SyncStep(parse, foreign, run, n - 1);
        OrphansExactly(parse, foreign, run, n - 1);
        SoundParts(parse, foreign, run, n - 1);
      }
    }
  }

  /**
   The exact schedule, for every run: in sync throughout exactly when no stale listing is delivered, no lost
   message leaves an unannounced route behind, and no deletion follows a delivery, or a loss, in its own gap.
   */
  lemma ScheduleExactly(parse: Parser, foreign: Services, run: seq<Action>)
    requires Foreign(foreign)
    ensures (forall k | 0 <= k <= |run| :: SyncAt(parse, foreign, run, k)) <==>
      && (forall k | 0 <= k < |run| :: !StaleAt(parse, foreign, run, k) && !LostAt(parse, foreign, run, k))
      && (forall k, j | 0 <= k < j < |run| ::
            !TickInGap(parse, foreign, run, k, j) && !LossInGap(parse, foreign, run, k, j))
  {
    hide SyncAt, TickInGap, LossInGap, StaleAt, LostAt;
    ScheduleUpTo(parse, foreign, run, |run|);
  }
}
