/**
 Route propagation: what the emitter publishes for a batch, how the router table changes, and the
 service lister behind the collector's tick.
 */
module Router {
  import opened Names
  import opened Wrappers
  import opened Model

  datatype Message = Register(app: string, uris: seq<string>) | Unregister(app: string, uris: seq<string>)

  /** The router's endpoints, keyed by the (App, URI) pair of the message that set them. */
  type Table = set<(string, string)>

  function Pairs(app: string, uris: seq<string>): (t: Table)
    ensures forall p :: p in t <==> p.0 == app && p.1 in uris
  {
    set u | u in uris :: (app, u)
  }

  function Apply(table: Table, m: Message): Table {
    match m
    case Register(app, uris) => table + Pairs(app, uris)
    case Unregister(app, uris) => table - Pairs(app, uris)
  }

  function ApplyAll(table: Table, ms: seq<Message>): Table
    decreases |ms|
  {
    if ms == [] then table else ApplyAll(Apply(table, ms[0]), ms[1..])
  }

  lemma {:induction false} ApplyAppend(table: Table, p: seq<Message>, q: seq<Message>)
    ensures ApplyAll(table, p + q) == ApplyAll(ApplyAll(table, p), q)
    decreases |p|
  {
    if p == [] {
      assert p + q == q;
    } else {
      assert (p + q)[1..] == p[1..] + q;
      ApplyAppend(Apply(table, p[0]), p[1..], q);
    }
  }

  function MessagesOf(r: Routes): seq<Message> {
    (if r.routes != [] then [Register(r.name, r.routes)] else [])
    + (if r.unregistered != [] then [Unregister(r.name, r.unregistered)] else [])
  }

  /** The publishes one batch asks for, in order. */
  function Messages(batch: Batch): seq<Message> {
    if batch == [] then [] else MessagesOf(batch[0]) + Messages(batch[1..])
  }

  function Flatten(queue: seq<Batch>): seq<Message> {
    if queue == [] then [] else Messages(queue[0]) + Flatten(queue[1..])
  }

  /** `order` lists every key once: a listing by the API server, in whatever order. */
  ghost predicate Enumerates(order: seq<string>, keys: set<string>) {
    && (forall i, j | 0 <= i < j < |order| :: order[i] != order[j])
    && (forall k :: k in order <==> k in keys)
  }

  /** The lister's filter: undecodable annotations of app services fail the whole listing. */
  function ListRoutes(services: map<string, Service>, order: seq<string>): Option<Batch>
    requires forall k | k in order :: k in services
  {
    if order == [] then Some([])
    else if !IsAppService(order[0]) then ListRoutes(services, order[1..])
    else
      match Registered(services[order[0]])
      case Plain(_) => None
      case UriList(uris) =>
        match ListRoutes(services, order[1..])
        case None => None
        case Some(rest) => Some([Routes(order[0], uris, [])] + rest)
  }
}
