/** route/emitter.go and route/collector.go: batches out to NATS, listings into the channel. */
module Emitter {
  import opened Wrappers
  import opened Model
  import opened Router
  import opened ServiceManager
  import M = Runs
  import Ticks

  const REGISTER_SUBJECT := "router.register"
  const UNREGISTER_SUBJECT := "router.unregister"

  datatype RegistryMessage = RegistryMessage(host: string, port: int, tlsPort: int, uris: seq<string>, app: string)

  /** What goes over the wire for a message. */
  function Wire(kubeEndpoint: string, m: Message): (string, RegistryMessage) {
    (if m.Register? then REGISTER_SUBJECT else UNREGISTER_SUBJECT,
     RegistryMessage(kubeEndpoint, 80, 443, m.uris, m.app))
  }

  function WireAll(kubeEndpoint: string, ms: seq<Message>): (ws: seq<(string, RegistryMessage)>)
    ensures |ws| == |ms|
  {
    seq(|ms|, i requires 0 <= i < |ms| => Wire(kubeEndpoint, ms[i]))
  }

  /** NATS: any publish may fail; those that do not reach the router. */
  class Publisher {
    var attempts: seq<(string, RegistryMessage)>
    var table: Table
    const healthy: nat -> bool

    constructor (healthy: nat -> bool)
      ensures this.healthy == healthy && attempts == [] && table == {}
    {
      this.healthy, attempts, table := healthy, [], {};
    }

    /** The router listens to these two subjects only, and is told nothing by a publish that fails. */
    method Publish(subject: string, message: RegistryMessage) returns (ok: bool)
      modifies this
      ensures ok == healthy(|old(attempts)|) && attempts == old(attempts) + [(subject, message)]
      ensures forall p :: p in table <==>
        if ok && subject == "router.register" then p in old(table) || (p.0 == message.app && p.1 in message.uris)
        else if ok && subject == "router.unregister" then
          p in old(table) && !(p.0 == message.app && p.1 in message.uris)
        else p in old(table)
    {
      ok := healthy(|attempts|);
      attempts := attempts + [(subject, message)];
      if ok && subject == "router.register" {
        table := table + Pairs(message.app, message.uris);
      } else if ok && subject == "router.unregister" {
        table := table - Pairs(message.app, message.uris);
      }
    }
  }

  /** The messages whose publish, counting from number `n`, succeeds. */
  function Delivered(ms: seq<Message>, healthy: nat -> bool, n: nat): seq<Message> {
    if ms == [] then [] else (if healthy(n) then [ms[0]] else []) + Delivered(ms[1..], healthy, n + 1)
  }

  lemma {:induction false} DeliveredAppend(p: seq<Message>, q: seq<Message>, healthy: nat -> bool, n: nat)
    ensures Delivered(p + q, healthy, n) == Delivered(p, healthy, n) + Delivered(q, healthy, n + |p|)
  {
    if p == [] {
      assert p + q == q;
    } else {
      var now := if healthy(n) then [p[0]] else [];
      assert (p + q)[1..] == p[1..] + q;
      DeliveredAppend(p[1..], q, healthy, n + 1);
      assert now + (Delivered(p[1..], healthy, n + 1) + Delivered(q, healthy, n + |p|))
        == (now + Delivered(p[1..], healthy, n + 1)) + Delivered(q, healthy, n + |p|);
    }
  }

  lemma {:induction false} MessagesAppend(a: Batch, b: Batch)
    ensures Messages(a + b) == Messages(a) + Messages(b)
  {
    if a == [] {
      assert a + b == b;
    } else {
      assert (a + b)[1..] == a[1..] + b;
      MessagesAppend(a[1..], b);
    }
  }

  /** A registration if there are routes, then an unregistration if some are withdrawn, on the router's subjects. */
  predicate PublishedEntry(endpoint: string, r: Routes, sent: seq<(string, RegistryMessage)>) {
    sent ==
      (if r.routes == [] then [] else [("router.register", RegistryMessage(endpoint, 80, 443, r.routes, r.name))])
      + (if r.unregistered == [] then []
         else [("router.unregister", RegistryMessage(endpoint, 80, 443, r.unregistered, r.name))])
  }

  /** `sent` is what the entries of a batch ask for, entry by entry, from position `at[i]` on. */
  predicate Published(endpoint: string, batch: Batch, sent: seq<(string, RegistryMessage)>, at: seq<nat>) {
    && |at| == |batch| + 1 && at[0] == 0 && at[|batch|] == |sent|
    && forall i | 0 <= i < |batch| :: EntryAt(endpoint, batch[i], sent, at, i)
  }

  predicate EntryAt(endpoint: string, r: Routes, sent: seq<(string, RegistryMessage)>, at: seq<nat>, i: nat)
    requires i + 1 < |at|
  {
    at[i] <= at[i + 1] <= |sent| && PublishedEntry(endpoint, r, sent[at[i]..at[i + 1]])
  }

  lemma WireOfEntry(endpoint: string, r: Routes)
    ensures PublishedEntry(endpoint, r, WireAll(endpoint, MessagesOf(r)))
  {
  }

  lemma WireAppend(endpoint: string, p: seq<Message>, q: seq<Message>)
    ensures WireAll(endpoint, p + q) == WireAll(endpoint, p) + WireAll(endpoint, q)
  {
  }

  lemma WireOfLast(endpoint: string, batch: Batch)
    requires batch != []
    ensures var n := |batch| - 1;
      WireAll(endpoint, Messages(batch)) ==
        WireAll(endpoint, Messages(batch[..n])) + WireAll(endpoint, MessagesOf(batch[n]))
  {
    hide WireAll, MessagesOf;
    var n := |batch| - 1;
    assert batch == batch[..n] + [batch[n]];
    MessagesAppend(batch[..n], [batch[n]]);
    assert Messages([]) == [] && Messages([batch[n]]) == MessagesOf(batch[n]) + Messages([]);
    assert MessagesOf(batch[n]) + [] == MessagesOf(batch[n]);
    WireAppend(endpoint, Messages(batch[..n]), MessagesOf(batch[n]));
  }

  lemma PublishedMore(endpoint: string, batch: Batch, sent: seq<(string, RegistryMessage)>, at: seq<nat>,
                      r: Routes, more: seq<(string, RegistryMessage)>)
    requires Published(endpoint, batch, sent, at) && PublishedEntry(endpoint, r, more)
    ensures Published(endpoint, batch + [r], sent + more, at + [|sent| + |more|])
  {
    hide PublishedEntry;
    var all, ends := sent + more, at + [|sent| + |more|];
    assert all[|sent|..|all|] == more;
    forall i | 0 <= i < |batch + [r]| ensures EntryAt(endpoint, (batch + [r])[i], all, ends, i) {
      if i < |batch| {
        assert EntryAt(endpoint, batch[i], sent, at, i);
        assert all[at[i]..at[i + 1]] == sent[at[i]..at[i + 1]];
      }
    }
  }

  /** What goes over the wire for a batch. */
  lemma {:induction false} WireExactly(endpoint: string, batch: Batch)
    ensures exists at :: Published(endpoint, batch, WireAll(endpoint, Messages(batch)), at)
    decreases |batch|
  {
    if batch == [] {
      assert Published(endpoint, batch, WireAll(endpoint, Messages(batch)), [0]);
    } else {
      hide Published, PublishedEntry, WireAll, Messages, MessagesOf;
      var n := |batch| - 1;
      WireExactly(endpoint, batch[..n]);
      var at :| Published(endpoint, batch[..n], WireAll(endpoint, Messages(batch[..n])), at);
      WireOfLast(endpoint, batch);
      assert batch == batch[..n] + [batch[n]];
      WireOfEntry(endpoint, batch[n]);
      PublishedMore(endpoint, batch[..n], WireAll(endpoint, Messages(batch[..n])), at, batch[n],
                    WireAll(endpoint, MessagesOf(batch[n])));
    }
  }

  class Emitter {
    const publisher: Publisher
    const kubeEndpoint: string

    constructor (publisher: Publisher, kubeEndpoint: string)
      ensures this.publisher == publisher && this.kubeEndpoint == kubeEndpoint
    {
      this.publisher, this.kubeEndpoint := publisher, kubeEndpoint;
    }

    method PublishRoutes(subject: string, routes: seq<string>, name: string, ghost m: Message)
      requires m == (if subject == REGISTER_SUBJECT then Register(name, routes) else Unregister(name, routes))
      requires subject == REGISTER_SUBJECT || subject == UNREGISTER_SUBJECT
      modifies publisher
      ensures publisher.attempts == old(publisher.attempts) + WireAll(kubeEndpoint, [m])
      ensures publisher.table == ApplyAll(old(publisher.table),
        Delivered([m], publisher.healthy, |old(publisher.attempts)|))
    {
      ghost var before := publisher.table;
      var _ := publisher.Publish(subject, RegistryMessage(kubeEndpoint, 80, 443, routes, name));
      assert [m][1..] == [] && WireAll(kubeEndpoint, [m]) == [Wire(kubeEndpoint, m)];
      assert Delivered([m], publisher.healthy, |old(publisher.attempts)|)
        == if publisher.healthy(|old(publisher.attempts)|) then [m] else [];
      if publisher.healthy(|old(publisher.attempts)|) { assert publisher.table == Apply(before, m); }
    }

    /** Errors are only logged: whatever fails, the attempts are all messages of the batch in order. */
    method Emit(batch: Batch)
      modifies publisher
      ensures publisher.attempts == old(publisher.attempts) + WireAll(kubeEndpoint, Messages(batch))
      ensures old(publisher.attempts) <= publisher.attempts
        && exists at :: Published(kubeEndpoint, batch, publisher.attempts[|old(publisher.attempts)|..], at)
      ensures publisher.table ==
        ApplyAll(old(publisher.table), Delivered(Messages(batch), publisher.healthy, |old(publisher.attempts)|))
    {
      hide Apply, ApplyAll, Delivered, Messages, WireAll, Published;
      WireExactly(kubeEndpoint, batch);
      ghost var t0, n := publisher.table, |publisher.attempts|;
      ghost var healthy := publisher.healthy;
      Nothing(t0, healthy, n);
      assert batch[..0] == [] && publisher.attempts + [] == publisher.attempts;
      for i := 0 to |batch|
        invariant publisher.attempts == old(publisher.attempts) + WireAll(kubeEndpoint, Messages(batch[..i]))
        invariant publisher.table == ApplyAll(t0, Delivered(Messages(batch[..i]), healthy, n))
      {
        var route := batch[i];
        ghost var done := Messages(batch[..i]);
        if |route.routes| != 0 {
          ghost var m := Register(route.name, route.routes);
          PublishRoutes(REGISTER_SUBJECT, route.routes, route.name, m);
          OneMore(t0, done, m, healthy, n);
          done := done + [m];
        }
        if |route.unregistered| != 0 {
          ghost var m := Unregister(route.name, route.unregistered);
          PublishRoutes(UNREGISTER_SUBJECT, route.unregistered, route.name, m);
          OneMore(t0, done, m, healthy, n);
          done := done + [m];
        }
        NextEntry(batch, i);
        assert done == Messages(batch[..i]) + MessagesOf(route);
      }
      assert batch[..|batch|] == batch;
      assert publisher.attempts[|old(publisher.attempts)|..] == WireAll(kubeEndpoint, Messages(batch));
    }

    lemma Nothing(t0: Table, healthy: nat -> bool, n: nat)
      ensures Messages([]) == [] && WireAll(kubeEndpoint, []) == [] && ApplyAll(t0, Delivered([], healthy, n)) == t0
    {
    }

    lemma OneMore(t0: Table, done: seq<Message>, m: Message, healthy: nat -> bool, n: nat)
      ensures WireAll(kubeEndpoint, done + [m]) == WireAll(kubeEndpoint, done) + WireAll(kubeEndpoint, [m])
      ensures ApplyAll(t0, Delivered(done + [m], healthy, n)) ==
        ApplyAll(ApplyAll(t0, Delivered(done, healthy, n)), Delivered([m], healthy, n + |done|))
    {
      DeliveredAppend(done, [m], healthy, n);
      ApplyAppend(t0, Delivered(done, healthy, n), Delivered([m], healthy, n + |done|));
    }

    lemma NextEntry(batch: Batch, i: nat)
      requires i < |batch|
      ensures Messages(batch[..i + 1]) == Messages(batch[..i]) + MessagesOf(batch[i])
    {
      assert batch[..i + 1] == batch[..i] + [batch[i]];
      MessagesAppend(batch[..i], [batch[i]]);
      assert Messages([batch[i]]) == MessagesOf(batch[i]) + Messages([]);
    }

    /** One turn of the emitter's loop; receiving blocks until there is a batch. */
    method ReceiveAndEmit(work: Channel)
      requires work.queue != []
      modifies publisher, work
      ensures work.queue == old(work.queue)[1..]
      ensures publisher.attempts == old(publisher.attempts) + WireAll(kubeEndpoint, Messages(old(work.queue)[0]))
      ensures old(publisher.attempts) <= publisher.attempts && exists at ::
        Published(kubeEndpoint, old(work.queue)[0], publisher.attempts[|old(publisher.attempts)|..], at)
      ensures publisher.table == ApplyAll(old(publisher.table),
        Delivered(Messages(old(work.queue)[0]), publisher.healthy, |old(publisher.attempts)|))
    {
      var batch := work.queue[0];
      work.queue := work.queue[1..];
      Emit(batch);
    }
  }

  class Collector {
    const routeLister: ServiceRouteLister
    const work: Channel

    constructor (routeLister: ServiceRouteLister, work: Channel)
      ensures this.routeLister == routeLister && this.work == work
    {
      this.routeLister, this.work := routeLister, work;
    }

    /** One tick: a failed listing sends nothing. */
    method CollectRoutes() returns (ok: bool)
      modifies routeLister.client`requests, work
      ensures !ok ==> work.queue == old(work.queue)
      ensures ok ==>
        && routeLister.client.healthy(old(routeLister.client.requests))
        && exists order: seq<string> ::
             && Enumerates(order, routeLister.client.services.Keys)
             && ListRoutes(routeLister.client.services, order).Some?
             && work.queue == old(work.queue) + [ListRoutes(routeLister.client.services, order).value]
             && Ticks.ListsApps(routeLister.client.services, ListRoutes(routeLister.client.services, order).value)
    {
      var routes := routeLister.ListRoutes();
      ok := routes.Some?;
      if ok {
        work.Send(routes.value);
      }
    }
  }

  // ----- the two classes as actions of the interleaved machine -----

  /** `k` publishes in a row, the first being attempt number `n`, answered as NATS answers. */
  function Publishes(healthy: nat -> bool, n: nat, k: nat): seq<M.Action> {
    seq(k, i requires 0 <= i < k => M.Publish(healthy(n + i)))
  }

  lemma {:induction false} PublishesAreARun(parse: Parser, w: M.World, healthy: nat -> bool, n: nat)
    ensures M.RunFrom(parse, w, Publishes(healthy, n, |w.outbox|)) ==
      w.(outbox := [], log := w.log + w.outbox, router := ApplyAll(w.router, Delivered(w.outbox, healthy, n)))
    decreases |w.outbox|
  {
    hide M.Next, Apply, ApplyAll, Delivered;
    if w.outbox == [] {
      assert w.log + w.outbox == w.log;
      NoneDelivered(w.router, healthy, n);
    } else {
      var rest := w.outbox[1..];
      var w1 := M.Next(parse, w, M.Publish(healthy(n)));
      OnePublish(parse, w, healthy(n));
      assert Publishes(healthy, n, |w.outbox|)[1..] == Publishes(healthy, n + 1, |rest|);
      PublishesAreARun(parse, w1, healthy, n + 1);
      assert w1.log + rest == w.log + w.outbox;
      FirstDelivered(w.router, w.outbox, healthy, n);
    }
  }

  lemma OnePublish(parse: Parser, w: M.World, ok: bool)
    requires w.outbox != []
    ensures M.Next(parse, w, M.Publish(ok)) ==
      w.(outbox := w.outbox[1..], log := w.log + [w.outbox[0]],
         router := if ok then Apply(w.router, w.outbox[0]) else w.router)
  {
    hide Apply;
  }

  lemma NoneDelivered(table: Table, healthy: nat -> bool, n: nat)
    ensures ApplyAll(table, Delivered([], healthy, n)) == table
  {
  }

  lemma FirstDelivered(table: Table, ms: seq<Message>, healthy: nat -> bool, n: nat)
    requires ms != []
    ensures ApplyAll(table, Delivered(ms, healthy, n)) ==
      ApplyAll(if healthy(n) then Apply(table, ms[0]) else table, Delivered(ms[1..], healthy, n + 1))
  {
    hide Apply;
    var later := Delivered(ms[1..], healthy, n + 1);
    if healthy(n) { assert ([ms[0]] + later)[1..] == later; } else { assert [] + later == later; }
  }

  /**
   The emitter's loop is a run of the machine: one receive and a publish per message, with the answers of
   NATS, change queue, attempts and router as `ReceiveAndEmit` changes channel, attempts and table.
   */
  lemma EmittingIsARun(parse: Parser, w: M.World, healthy: nat -> bool, n: nat)
    requires w.outbox == [] && w.queue != []
    ensures var ms := Messages(w.queue[0]);
      M.RunFrom(parse, w, [M.Receive] + Publishes(healthy, n, |ms|)) ==
        w.(queue := w.queue[1..], log := w.log + ms, router := ApplyAll(w.router, Delivered(ms, healthy, n)))
  {
    hide Messages, Delivered, ApplyAll;
    var ms := Messages(w.queue[0]);
    var w1 := w.(queue := w.queue[1..], outbox := ms);
    assert M.Next(parse, w, M.Receive) == w1;
    assert ([M.Receive] + Publishes(healthy, n, |ms|))[1..] == Publishes(healthy, n, |ms|);
    PublishesAreARun(parse, w1, healthy, n);
  }

  /** So is the collector's tick: a listing and its delivery change the queue as `CollectRoutes` changes the channel. */
  lemma CollectingIsARun(parse: Parser, w: M.World, order: seq<string>)
    requires w.tick.None? && Enumerates(order, w.cluster.services.Keys)
    ensures var listed := ListRoutes(w.cluster.services, order);
      M.RunFrom(parse, w, [M.ListTick(true, order), M.SendTick]) ==
        if listed.Some? then w.(queue := w.queue + [listed.value]) else w
  {
    hide ListRoutes;
    var listed := ListRoutes(w.cluster.services, order);
    var w1 := w.(tick := listed);
    assert M.Next(parse, w, M.ListTick(true, order)) == w1;
    assert [M.ListTick(true, order), M.SendTick][1..] == [M.SendTick] && [M.SendTick][1..] == [];
    assert M.RunFrom(parse, w1, [M.SendTick]) == M.Next(parse, w1, M.SendTick);
  }
}
