/**
 The values the components exchange: LRPs, StatefulSets, services, ingress rules, route batches,
 and the value of the whole cluster.
 */
module Model {
  import opened Names
  import opened Wrappers

  /** A metadata or annotation string: the JSON text of a string list, or any text that is not one. */
  datatype Text = Plain(text: string) | UriList(uris: seq<string>)

  const VCAP_APP_URIS := "application_uris"
  const LAST_UPDATED := "last_updated"
  const PROCESS_GUID := "process_guid"
  const REGISTERED_ROUTES := "routes"

  /** Indexing a Go map: a missing key reads as the empty string. */
  function Lookup(m: map<string, Text>, key: string): Text {
    if key in m then m[key] else Plain("")
  }

  /** Go's conversion from a 64-bit int to int32 keeps the low 32 bits. */
  function ToInt32(n: int): int {
    (n + 0x8000_0000) % 0x1_0000_0000 - 0x8000_0000
  }

  datatype LRP = LRP(
    name: string, image: string, command: seq<string>, env: map<string, string>,
    targetInstances: int, runningInstances: int, metadata: map<string, Text>)

  function Uris(lrp: LRP): Text {
    Lookup(lrp.metadata, VCAP_APP_URIS)
  }

  datatype StatefulSet = StatefulSet(
    name: string, labels: map<string, string>, annotations: map<string, Text>,
    replicas: int, image: string, command: seq<string>, env: map<string, string>, readyReplicas: int)

  function ToStatefulSet(lrp: LRP): StatefulSet {
    StatefulSet(lrp.name, map["eirini" := "eirini", "name" := lrp.name], lrp.metadata,
                ToInt32(lrp.targetInstances), lrp.image, lrp.command, lrp.env, 0)
  }

  function ToLRP(s: StatefulSet): LRP {
    LRP(s.name, s.image, s.command, map[], 0, s.readyReplicas,
        map[PROCESS_GUID := Lookup(s.annotations, PROCESS_GUID),
            LAST_UPDATED := Lookup(s.annotations, LAST_UPDATED),
            VCAP_APP_URIS := Lookup(s.annotations, VCAP_APP_URIS)])
  }

  datatype Service = Service(name: string, app: string, clusterIP: string, annotations: map<string, Text>)

  function ToService(lrp: LRP): Service {
    Service(ServiceName(lrp.name), lrp.name, "", map[REGISTERED_ROUTES := Uris(lrp)])
  }

  function ToHeadlessService(lrp: LRP): Service {
    Service(HeadlessName(lrp.name), lrp.name, "None", map[])
  }

  function Registered(service: Service): Text {
    Lookup(service.annotations, REGISTERED_ROUTES)
  }

  function Announcing(service: Service, uris: Text): Service {
    service.(annotations := service.annotations[REGISTERED_ROUTES := uris])
  }

  datatype Url = Url(host: string, path: string)

  /** `url.Parse` and `govalidator.IsURL` together: the parsed URL, or None when either rejects it. */
  type Parser = string -> Option<Url>

  datatype Rule = Rule(host: string, path: string, service: string, port: int)

  function ToLower(s: string): string {
    seq(|s|, i requires 0 <= i < |s| => if 'A' <= s[i] <= 'Z' then (s[i] as int + 32) as char else s[i])
  }

  function PathOf(path: string): string {
    if path == "" then "/" else path
  }

  predicate AllParse(parse: Parser, uris: seq<string>) {
    forall i | 0 <= i < |uris| :: parse(uris[i]).Some?
  }

  function RuleFor(parse: Parser, app: string, uri: string): Rule
    requires parse(uri).Some?
  {
    var url := parse(uri).value;
    Rule(ToLower(url.host), PathOf(url.path), ServiceName(app), 8080)
  }

  function Rules(parse: Parser, app: string, uris: seq<string>): seq<Rule>
    requires AllParse(parse, uris)
  {
    seq(|uris|, i requires 0 <= i < |uris| => RuleFor(parse, app, uris[i]))
  }

  /** One entry of a batch sent to the route emitter. */
  datatype Routes = Routes(name: string, routes: seq<string>, unregistered: seq<string>)
  type Batch = seq<Routes>

  /** The routes of `existing` that `updated` no longer lists, in their order. */
  function Unregistered(existing: seq<string>, updated: seq<string>): (gone: seq<string>)
    ensures forall u :: u in gone <==> u in existing && u !in updated
  {
    if existing == [] then []
    else (if existing[0] in updated then [] else [existing[0]]) + Unregistered(existing[1..], updated)
  }

  /** The rules of the `eirini` Ingress, grouped by the backend service they name. */
  type Backends = map<string, multiset<Rule>>

  datatype Cluster = Cluster(
    statefulSets: map<string, StatefulSet>, services: map<string, Service>, ingress: Option<Backends>)

  function RulesOf(ingress: Option<Backends>, name: string): multiset<Rule> {
    if ingress.Some? && name in ingress.value then ingress.value[name] else multiset{}
  }

  /** The decoded route annotation of a service, if the service exists and the annotation decodes. */
  function Announced(services: map<string, Service>, name: string): Option<seq<string>> {
    if name in services && Registered(services[name]).UriList?
    then Some(Registered(services[name]).uris) else None
  }

  /** `items` lists every StatefulSet once, in some order. */
  ghost predicate Listing(instances: map<string, StatefulSet>, items: seq<StatefulSet>) {
    exists order: seq<string> ::
      && |order| == |items| && (forall i, j | 0 <= i < j < |order| :: order[i] != order[j])
      && (forall k :: k in order <==> k in instances)
      && (forall i | 0 <= i < |order| :: items[i] == instances[order[i]])
  }

  predicate Labelled(name: string, instance: StatefulSet) {
    instance.name == name && "name" in instance.labels && instance.labels["name"] == name
  }

  predicate AllLabelled(instances: map<string, StatefulSet>) {
    forall k | k in instances :: Labelled(k, instances[k])
  }

  /** The label selector `name=app` that `Exists` lists with. */
  predicate Selects(instances: map<string, StatefulSet>, app: string) {
    exists k | k in instances :: Selected(instances[k], app)
  }

  predicate Selected(instance: StatefulSet, app: string) {
    "name" in instance.labels && instance.labels["name"] == app
  }

  // ----- what the translations mean, in the constants of the source -----

  /** The conversion keeps 32-bit counts and takes any other to the one congruent to it. */
  lemma Int32Exactly(n: int)
    ensures var r := ToInt32(n);
      && -0x8000_0000 <= r < 0x8000_0000 && (r - n) % 0x1_0000_0000 == 0
      && (-0x8000_0000 <= n < 0x8000_0000 ==> r == n)
  {
  }

  /** Letter by letter: each capital to the small letter at its place in the alphabet, and nothing else changes. */
  lemma LowersCapitalsExactly(s: string)
    ensures |ToLower(s)| == |s|
    ensures forall i | 0 <= i < |s| ::
      if 'A' <= s[i] <= 'Z' then ToLower(s)[i] as int - 'a' as int == s[i] as int - 'A' as int
      else ToLower(s)[i] == s[i]
  {
  }

  /** One rule per URI, in order: lowered host, the path or a slash, the app's service, port 8080. */
  lemma RulesExactly(parse: Parser, app: string, uris: seq<string>)
    ensures AllParse(parse, uris) <==> forall i | 0 <= i < |uris| :: parse(uris[i]).Some?
    ensures AllParse(parse, uris) ==>
      var rules := Rules(parse, app, uris);
      && |rules| == |uris|
      && forall i | 0 <= i < |uris| ::
           var url := parse(uris[i]).value;
           rules[i] == Rule(ToLower(url.host), if url.path == "" then "/" else url.path, "cf-" + app, 8080)
  {
  }

  /** What an instance looks like to its readers. */
  lemma LRPExactly(s: StatefulSet)
    ensures var lrp := ToLRP(s);
      && lrp.name == s.name && lrp.image == s.image && lrp.command == s.command
      && lrp.runningInstances == s.readyReplicas
      && lrp.metadata.Keys == {"process_guid", "last_updated", "application_uris"}
      && forall key | key in lrp.metadata ::
           lrp.metadata[key] == if key in s.annotations then s.annotations[key] else Plain("")
  {
  }

  /** What a service announces is the URI list in its annotation `routes`. */
  lemma AnnouncedExactly(services: map<string, Service>, s: string, uris: seq<string>)
    ensures Announced(services, s) == Some(uris) <==>
      s in services && "routes" in services[s].annotations && services[s].annotations["routes"] == UriList(uris)
  {
  }

  /** The metadata's URI list. */
  lemma UrisExactly(lrp: LRP, uris: seq<string>)
    ensures Uris(lrp) == UriList(uris) <==>
      "application_uris" in lrp.metadata && lrp.metadata["application_uris"] == UriList(uris)
  {
  }

  /** `gone` takes from `existing`, at the positions `at` and in order, exactly the routes that `updated` lacks. */
  predicate TakesMissing(existing: seq<string>, updated: seq<string>, gone: seq<string>, at: seq<nat>) {
    && |at| == |gone| && (forall j, k | 0 <= j < k < |at| :: at[j] < at[k])
    && (forall k | 0 <= k < |at| :: at[k] < |existing| && gone[k] == existing[at[k]])
    && (forall i: nat | i < |existing| :: existing[i] !in updated <==> i in at)
  }

  function Shifted(at: seq<nat>): (moved: seq<nat>)
    ensures |moved| == |at| && forall k | 0 <= k < |at| :: moved[k] == at[k] + 1
    ensures forall i: nat :: i in moved <==> i > 0 && i - 1 in at
  {
    var moved: seq<nat> := seq(|at|, k requires 0 <= k < |at| => at[k] + 1);
    assert forall i: nat | i > 0 && i - 1 in at :: i in moved by {
      forall i: nat | i > 0 && i - 1 in at ensures i in moved {
        var k :| 0 <= k < |at| && at[k] == i - 1;
        assert moved[k] == i;
      }
    }
    moved
  }

  /** A route that the new list has is passed over. */
  lemma PassesOver(x: string, existing: seq<string>, updated: seq<string>, gone: seq<string>, at: seq<nat>)
    requires TakesMissing(existing, updated, gone, at) && x in updated
    ensures TakesMissing([x] + existing, updated, gone, Shifted(at))
  {
    hide Shifted;
    var all, moved := [x] + existing, Shifted(at);
    forall k | 0 <= k < |moved| ensures moved[k] < |all| && gone[k] == all[moved[k]] {
      assert all[moved[k]] == existing[at[k]];
    }
    forall i: nat | i < |all| ensures all[i] !in updated <==> i in moved {
      if i > 0 { assert all[i] == existing[i - 1]; }
    }
  }

  /** One that it lacks is taken. */
  lemma Takes(x: string, existing: seq<string>, updated: seq<string>, gone: seq<string>, at: seq<nat>)
    requires TakesMissing(existing, updated, gone, at) && x !in updated
    ensures TakesMissing([x] + existing, updated, [x] + gone, [0] + Shifted(at))
  {
    hide Shifted;
    var all, more, moved := [x] + existing, [x] + gone, [0] + Shifted(at);
    forall k | 0 <= k < |moved| ensures moved[k] < |all| && more[k] == all[moved[k]] {
      if k > 0 {
        assert moved[k] == at[k - 1] + 1 && more[k] == gone[k - 1] && all[moved[k]] == existing[at[k - 1]];
      }
    }
    forall j, k | 0 <= j < k < |moved| ensures moved[j] < moved[k] {
      assert moved[k] == at[k - 1] + 1;
      if j > 0 { assert moved[j] == at[j - 1] + 1; }
    }
    forall i: nat | i < |all| ensures all[i] !in updated <==> i in moved {
      assert i in moved <==> i == 0 || i in Shifted(at);
      if i > 0 { assert all[i] == existing[i - 1]; }
    }
  }

  lemma UnregisteredCons(existing: seq<string>, updated: seq<string>)
    requires existing != []
    ensures existing == [existing[0]] + existing[1..]
    ensures var gone := Unregistered(existing[1..], updated);
      Unregistered(existing, updated) == if existing[0] in updated then gone else [existing[0]] + gone
  {
    assert existing == [existing[0]] + existing[1..];
    assert [] + Unregistered(existing[1..], updated) == Unregistered(existing[1..], updated);
  }

  /** The unregister list is the order-preserving difference, as often as a route was listed. */
  lemma {:induction false} UnregisteredExactly(existing: seq<string>, updated: seq<string>)
    ensures exists at :: TakesMissing(existing, updated, Unregistered(existing, updated), at)
    decreases |existing|
  {
    if existing == [] {
      assert Unregistered(existing, updated) == [];
      assert TakesMissing(existing, updated, [], []);
    } else {
      hide TakesMissing, Unregistered;
      var x, rest := existing[0], existing[1..];
      UnregisteredExactly(rest, updated);
      var at :| TakesMissing(rest, updated, Unregistered(rest, updated), at);
      UnregisteredCons(existing, updated);
      if x in updated {
        PassesOver(x, rest, updated, Unregistered(rest, updated), at);
      } else {
        Takes(x, rest, updated, Unregistered(rest, updated), at);
      }
    }
  }
}
