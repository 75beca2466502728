/** What every run does to the StatefulSets, and which panics a run can reach. */
module Instances {
  import opened Names
  import opened Wrappers
  import opened Model
  import opened Protocol
  import opened Router
  import opened Runs
  import opened Safety
  import opened Reachable
  import Results

  // ----- panics -----

  /** The decoding panic of the ingress manager is out of reach: its caller's service step decoded the same text. */
  lemma IngressUpdateDecodes(parse: Parser, foreign: Services, run: seq<Action>)
    requires Foreign(foreign)
    ensures var code := After(parse, foreign, run).code;
      code.Do? && code.call.ListIngresses? ==> Uris(code.call.lrp).UriList?
  {
    hide After, GoodCluster, AllJustified, Past;
    RunIsGood(parse, foreign, run);
  }

  predicate HasMetadata(a: Action) {
    a.Begin? && a.op.Desire? ==> a.op.lrp.metadata != map[]
  }

  predicate Annotated(instances: map<string, StatefulSet>, code: Code) {
    && (forall k | k in instances :: instances[k].annotations != map[])
    && code != Halt(Panic)
    && (code.Do? && (code.call.CheckExists? || code.call.CreateInstance?) ==> code.call.lrp.metadata != map[])
  }

  /** Only `CheckExists` leads to a creation, and only `FetchInstance` and an undecodable ingress update can panic. */
  lemma OtherCallsAreSafe(parse: Parser, h: History, c: Cluster, call: Call, rest: Code, ok: bool)
    requires GoodCluster(parse, h, c) && Ready(parse, h, c, Do(call, rest))
    requires !call.CheckExists? && !call.FetchInstance?
    ensures var code := Step(parse, c, call, rest, ok).code;
      code != Halt(Panic) && (code.Do? ==> !code.call.CheckExists? && !code.call.CreateInstance?)
  {
    hide GoodCluster, AllJustified, GoodBackends, ValidApp, Selects, Rules, Unregistered, NoRules;
  }

  lemma StepKeepsAnnotated(parse: Parser, h: History, c: Cluster, call: Call, rest: Code, ok: bool)
    requires GoodCluster(parse, h, c) && Ready(parse, h, c, Do(call, rest)) && Annotated(c.statefulSets, Do(call, rest))
    ensures var s := Step(parse, c, call, rest, ok); Annotated(s.cluster.statefulSets, s.code)
  {
    hide GoodCluster, AllJustified, GoodBackends, ValidApp, Selects, ToInt32, NoRules, StepServices, StepIngress;
    if !ok || !(call.CreateInstance? || call.StoreInstance? || call.DeleteInstance?) {
      OnlyInstanceCallsWrite(parse, c, call, rest, ok);
    }
    if !call.CheckExists? && !call.FetchInstance? {
      OtherCallsAreSafe(parse, h, c, call, rest, ok);
    }
    if call.StoreInstance? {
      assert LAST_UPDATED in call.instance.annotations;
    }
  }

  lemma NextKeepsAnnotated(parse: Parser, h: History, w: World, a: Action)
    requires GoodCluster(parse, h, w.cluster) && Ready(parse, h, w.cluster, w.code)
    requires Annotated(w.cluster.statefulSets, w.code) && HasMetadata(a)
    ensures var w' := Next(parse, w, a); Annotated(w'.cluster.statefulSets, w'.code)
  {
    hide Step, GoodCluster, Ready, ValidApp, AllJustified, Enumerates, ListRoutes, Messages, Apply;
    if a.Advance? && w.code.Do? {
      StepKeepsAnnotated(parse, h, w.cluster, w.code.call, w.code.rest, a.ok);
    }
  }

  /** No operation panics, as long as every LRP handed to `Desire` carries some metadata. */
  lemma {:induction false} NeverPanics(parse: Parser, foreign: Services, run: seq<Action>)
    requires Foreign(foreign) && forall a | a in run :: HasMetadata(a)
    ensures var w := After(parse, foreign, run); w.code != Halt(Panic) && Annotated(w.cluster.statefulSets, w.code)
  {
    hide Next, GoodCluster, Ready, AllJustified;
    if run != [] {
      var before := run[..|run| - 1];
      assert run[|run| - 1] in run;
      NeverPanics(parse, foreign, before);
      RunIsGood(parse, foreign, before);
      NextKeepsAnnotated(parse, Past(parse, foreign, before), After(parse, foreign, before), run[|run| - 1]);
    }
  }

  /** The next action makes `Update` write to the nil annotation map of a stored instance. */
  predicate WritesNilMap(w: World, a: Action) {
    && a == Advance(true) && w.code.Do? && w.code.call.FetchInstance?
    && var name := w.code.call.lrp.name;
       name in w.cluster.statefulSets && w.cluster.statefulSets[name].annotations == map[]
  }

  lemma StepPanicsExactly(parse: Parser, h: History, c: Cluster, call: Call, rest: Code, ok: bool)
    requires GoodCluster(parse, h, c) && Ready(parse, h, c, Do(call, rest))
    ensures Step(parse, c, call, rest, ok).code == Halt(Panic) <==>
      && ok && call.FetchInstance? && call.lrp.name in c.statefulSets
      && c.statefulSets[call.lrp.name].annotations == map[]
  {
    hide GoodCluster, AllJustified, Selects, StepServices, StepIngress;
    if !call.CheckExists? && !call.FetchInstance? {
      OtherCallsAreSafe(parse, h, c, call, rest, ok);
    }
  }

  /**
   The one panic: an operation of any run panics exactly when `Update` reaches an instance without
   annotations, which is how the API server stores an LRP that had no metadata.
   */
  lemma PanicsExactly(parse: Parser, foreign: Services, run: seq<Action>, a: Action)
    requires Foreign(foreign) && After(parse, foreign, run).code != Halt(Panic)
    ensures After(parse, foreign, run + [a]).code == Halt(Panic) <==> WritesNilMap(After(parse, foreign, run), a)
  {
    hide Step, GoodCluster, Ready, ValidApp, AllJustified, Enumerates, ListRoutes, Messages, Apply;
    var w := After(parse, foreign, run);
    assert (run + [a])[..|run|] == run;
    assert After(parse, foreign, run + [a]) == Next(parse, w, a);
    RunIsGood(parse, foreign, run);
    if a.Advance? && w.code.Do? {
      StepPanicsExactly(parse, Past(parse, foreign, run), w.cluster, w.code.call, w.code.rest, a.ok);
    }
  }

  // ----- the instance ledger -----

  /** The LRP that created an instance, and the LRP of its latest accepted update. */
  datatype Entry = Entry(created: LRP, latest: Option<LRP>)
  type Ledger = map<string, Entry>

  function Expected(e: Entry): StatefulSet {
    match e.latest
    case None => ToStatefulSet(e.created)
    case Some(lrp) => Scaled(ToStatefulSet(e.created), lrp)
  }

  /** The ledger after an accepted request to the StatefulSet API. */
  function Record(l: Ledger, code: Code): Ledger {
    if code.Halt? then l
    else
      match code.call
      case CreateInstance(lrp) => if lrp.name in l then l else l[lrp.name := Entry(lrp, None)]
      case StoreInstance(_) =>
        if code.rest.Do? && code.rest.call.FetchService? && code.rest.call.lrp.name in l
        then l[code.rest.call.lrp.name := l[code.rest.call.lrp.name].(latest := Some(code.rest.call.lrp))] else l
      case DeleteInstance(app) => l - {app}
      case _ => l
  }

  ghost function LedgerAfter(parse: Parser, foreign: Services, run: seq<Action>): Ledger {
    if run == [] then map[]
    else
      var l := LedgerAfter(parse, foreign, run[..|run| - 1]);
      if run[|run| - 1] == Advance(true) then Record(l, After(parse, foreign, run[..|run| - 1]).code) else l
  }

  /** What an entry asks for: the creating LRP's fields, with count and last-updated value of the latest update. */
  predicate RunsAsAsked(e: Entry, instance: StatefulSet) {
    var latest := if e.latest.Some? then e.latest.value else e.created;
    && instance.name == e.created.name && instance.image == e.created.image && instance.command == e.created.command
    && instance.env == e.created.env && instance.labels == map["eirini" := "eirini", "name" := e.created.name]
    && Results.Stored32(instance.replicas, latest.targetInstances)
    && instance.annotations ==
         if e.latest.None? then e.created.metadata
         else e.created.metadata
                ["last_updated" :=
                   if "last_updated" in latest.metadata then latest.metadata["last_updated"] else Plain("")]
  }

  lemma LedgerRunsAsAsked(l: Ledger)
    ensures forall k | k in l :: RunsAsAsked(l[k], Expected(l[k]))
  {
    hide ToInt32;
    forall k | k in l ensures RunsAsAsked(l[k], Expected(l[k])) {
      Int32Exactly(l[k].created.targetInstances);
      if l[k].latest.Some? { Int32Exactly(l[k].latest.value.targetInstances); }
    }
  }

  predicate Matches(l: Ledger, instances: map<string, StatefulSet>) {
    l.Keys == instances.Keys && forall k | k in l :: instances[k] == Expected(l[k])
  }

  lemma ScaledTwice(instance: StatefulSet, first: LRP, second: LRP)
    ensures Scaled(Scaled(instance, first), second) == Scaled(instance, second)
  {
  }

  lemma OnlyInstanceCallsWrite(parse: Parser, c: Cluster, call: Call, rest: Code, ok: bool)
    requires !(call.CreateInstance? || call.StoreInstance? || call.DeleteInstance?) || !ok
    ensures Step(parse, c, call, rest, ok).cluster.statefulSets == c.statefulSets
  {
  }

  /** Creation and deletion are booked as they happen. */
  lemma CreationMatches(c: Cluster, call: Call, rest: Code, l: Ledger)
    requires (call.CreateInstance? || call.DeleteInstance?) && Matches(l, c.statefulSets)
    ensures Matches(Record(l, Do(call, rest)), StepInstances(c, call, rest).cluster.statefulSets)
  {
    hide Scaled, ToStatefulSet, Selects;
  }

  /** An accepted update is booked as the latest. */
  lemma StoreMatches(c: Cluster, instance: StatefulSet, lrp: LRP, rest: Code, l: Ledger)
    requires Matches(l, c.statefulSets) && AllLabelled(c.statefulSets) && lrp.name in c.statefulSets
    requires instance == Scaled(c.statefulSets[lrp.name], lrp) && rest.Do? && rest.call == FetchService(lrp)
    ensures Matches(Record(l, Do(StoreInstance(instance), rest)),
                    StepInstances(c, StoreInstance(instance), rest).cluster.statefulSets)
  {
    hide Scaled, Expected, Selects;
    assert Labelled(lrp.name, c.statefulSets[lrp.name]);
    ScaleMatches(c, lrp, l);
  }

  lemma StepMatches(parse: Parser, h: History, c: Cluster, call: Call, rest: Code, ok: bool, l: Ledger)
    requires GoodCluster(parse, h, c) && Ready(parse, h, c, Do(call, rest)) && Matches(l, c.statefulSets)
    ensures var s := Step(parse, c, call, rest, ok);
      Matches(if ok then Record(l, Do(call, rest)) else l, s.cluster.statefulSets)
  {
    hide Matches, Ready, GoodServices, GoodIngress, Held, ValidApp, AllLabelled,
         StepInstances, StepServices, StepIngress;
    if !ok || !(call.CreateInstance? || call.StoreInstance? || call.DeleteInstance?) {
      OnlyInstanceCallsWrite(parse, c, call, rest, ok);
    } else if call.StoreInstance? {
      ReadyToStore(parse, h, c, call.instance, rest);
      StoreMatches(c, call.instance, rest.call.lrp, rest, l);
    } else {
      CreationMatches(c, call, rest, l);
    }
  }

  lemma ReadyToStore(parse: Parser, h: History, c: Cluster, instance: StatefulSet, rest: Code)
    requires Ready(parse, h, c, Do(StoreInstance(instance), rest))
    ensures rest.Do? && rest.call.FetchService? && rest.call.lrp.name in c.statefulSets
    ensures instance == Scaled(c.statefulSets[rest.call.lrp.name], rest.call.lrp)
  {
    hide Scaled;
  }

  lemma ScaleMatches(c: Cluster, lrp: LRP, l: Ledger)
    requires Matches(l, c.statefulSets) && lrp.name in l
    ensures Scaled(c.statefulSets[lrp.name], lrp) == Expected(l[lrp.name].(latest := Some(lrp)))
    ensures Scaled(c.statefulSets[lrp.name], lrp).name == c.statefulSets[lrp.name].name
  {
    hide Lookup;
    var e := l[lrp.name];
    if e.latest.Some? { ScaledTwice(ToStatefulSet(e.created), e.latest.value, lrp); }
  }

  /**
   In every reachable state each StatefulSet is the one its creating `Desire` asked for, with only the
   replicas and the last-updated annotation of the latest accepted update changed.
   */
  lemma {:induction false} InstancesMatchLedger(parse: Parser, foreign: Services, run: seq<Action>)
    requires Foreign(foreign)
    ensures Matches(LedgerAfter(parse, foreign, run), After(parse, foreign, run).cluster.statefulSets)
    ensures forall k | k in LedgerAfter(parse, foreign, run) ::
      RunsAsAsked(LedgerAfter(parse, foreign, run)[k], After(parse, foreign, run).cluster.statefulSets[k])
    decreases |run|
  {
    LedgerRunsAsAsked(LedgerAfter(parse, foreign, run));
    hide Step, GoodCluster, Ready, AllJustified, Expected, Enumerates, ListRoutes, Messages, Apply, RunsAsAsked;
    if run != [] {
      var before := run[..|run| - 1];
      InstancesMatchLedger(parse, foreign, before);
      RunIsGood(parse, foreign, before);
      var w, a := After(parse, foreign, before), run[|run| - 1];
      if a.Advance? && w.code.Do? {
        StepMatches(parse, Past(parse, foreign, before), w.cluster, w.code.call, w.code.rest, a.ok,
                    LedgerAfter(parse, foreign, before));
      }
    }
  }

  /** Where entries and pending creations come from: a `Desire` of the run with this very LRP. */
  ghost predicate Originates(run: seq<Action>, l: Ledger, code: Code) {
    && (forall app | app in l :: l[app].created.name == app && Begin(Op.Desire(l[app].created)) in run)
    && (code.Do? && (code.call.CheckExists? || code.call.CreateInstance?) ==> Begin(Op.Desire(code.call.lrp)) in run)
  }

  lemma StepOriginates(parse: Parser, h: History, c: Cluster, call: Call, rest: Code, ok: bool,
                         run: seq<Action>, l: Ledger)
    requires GoodCluster(parse, h, c) && Ready(parse, h, c, Do(call, rest)) && Originates(run, l, Do(call, rest))
    ensures Originates(run, if ok then Record(l, Do(call, rest)) else l, Step(parse, c, call, rest, ok).code)
  {
    hide GoodCluster, AllJustified, GoodBackends, ValidApp, Selects, NoRules, ToStatefulSet, Scaled,
         StepServices, StepIngress;
    if !call.CheckExists? && !call.FetchInstance? {
      OtherCallsAreSafe(parse, h, c, call, rest, ok);
    }
  }

  /** Every instance was created by a `Desire` of the run that named it. */
  lemma {:induction false} InstancesOriginate(parse: Parser, foreign: Services, run: seq<Action>)
    requires Foreign(foreign)
    ensures Originates(run, LedgerAfter(parse, foreign, run), After(parse, foreign, run).code)
  {
    hide Step, GoodCluster, Ready, AllJustified, Enumerates, ListRoutes, Messages, Apply, Record, ValidApp;
    if run != [] {
      var before, a := run[..|run| - 1], run[|run| - 1];
      assert run == before + [a] && a in run;
      InstancesOriginate(parse, foreign, before);
      RunIsGood(parse, foreign, before);
      var w, l := After(parse, foreign, before), LedgerAfter(parse, foreign, before);
      assert Originates(run, l, w.code);
      if a.Advance? && w.code.Do? {
        StepOriginates(parse, Past(parse, foreign, before), w.cluster, w.code.call, w.code.rest, a.ok, run, l);
      } else {
        IdleRecordsNothing(l, w.code);
      }
    }
  }

  lemma IdleRecordsNothing(l: Ledger, code: Code)
    ensures code.Halt? ==> Record(l, code) == l
  {
  }

  /** What `Bifrost.List` reports for one instance. */
  datatype SchedulingInfo = SchedulingInfo(processGuid: Text, annotation: Text)

  function Info(lrp: LRP): SchedulingInfo {
    SchedulingInfo(Lookup(lrp.metadata, PROCESS_GUID), Lookup(lrp.metadata, LAST_UPDATED))
  }

  /** A listing reports the process GUID of the creating `Desire` and the latest accepted last-updated value. */
  lemma ListReportsLedger(parse: Parser, foreign: Services, run: seq<Action>, app: string)
    requires Foreign(foreign) && app in After(parse, foreign, run).cluster.statefulSets
    ensures var l, instance := LedgerAfter(parse, foreign, run), After(parse, foreign, run).cluster.statefulSets[app];
      && app in l
      && Info(ToLRP(instance)).processGuid == Lookup(l[app].created.metadata, PROCESS_GUID)
      && Info(ToLRP(instance)).annotation ==
           Lookup((if l[app].latest.Some? then l[app].latest.value else l[app].created).metadata, LAST_UPDATED)
  {
    hide After, LedgerAfter;
    InstancesMatchLedger(parse, foreign, run);
  }
}
