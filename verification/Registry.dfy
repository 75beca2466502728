/** registry/registry.go: staged droplets and the image manifests served for them. */
module Registry {
  import opened Wrappers
  import opened Blobs

  /**
   What a droplet's body becomes: the conversion fails, or it makes a layer file whose first and second
   read succeed or not.
   */
  datatype Upload = Failed | Converted(layer: Bytes, readable: bool, rereadable: bool)

  datatype BlobRef = BlobRef(digest: string, size: nat)

  const MANIFEST_TYPE := "application/vnd.docker.distribution.manifest.v2+json"
  const CONFIG_TYPE := "application/vnd.docker.container.image.v1+json"
  const ROOTFS_TYPE := "application/vnd.docker.image.rootfs.diff.tar"
  const DROPLET_TYPE := "application/vnd.docker.image.rootfs.diff.tar.gzip"

  datatype Descriptor = Descriptor(mediaType: string, digest: string, size: nat)

  /** Docker Image Manifest Version 2, Schema 2, section "Image Manifest Field Descriptions". */
  datatype Manifest = Manifest(schemaVersion: int, mediaType: string, config: Descriptor, layers: seq<Descriptor>)

  /** The hash, and the JSON text of an image config with the given user and `diff_ids`. */
  datatype Setting = Setting(hash: Hash, encode: (string, seq<string>) -> Bytes)

  function Config(setting: Setting, rootfs: BlobRef, droplet: BlobRef): Bytes {
    setting.encode("vcap", [rootfs.digest, droplet.digest])
  }

  function ManifestFor(setting: Setting, rootfs: BlobRef, droplet: BlobRef): Manifest {
    var config := Config(setting, rootfs, droplet);
    Manifest(2, MANIFEST_TYPE, Descriptor(CONFIG_TYPE, Digest(setting.hash, config), |config|),
             [Descriptor(ROOTFS_TYPE, rootfs.digest, rootfs.size),
              Descriptor(DROPLET_TYPE, droplet.digest, droplet.size)])
  }

  /** The lookup table from droplet GUIDs to content-addressed layers. */
  class InMemoryDropletStore {
    var refs: map<string, BlobRef>

    constructor ()
      ensures refs == map[]
    {
      refs := map[];
    }

    method Get(guid: string) returns (r: Option<BlobRef>)
      ensures r == if guid in refs then Some(refs[guid]) else None
    {
      r := if guid in refs then Some(refs[guid]) else None;
    }

    method Set(guid: string, blob: BlobRef)
      modifies this
      ensures refs == old(refs)[guid := blob]
    {
      refs := refs[guid := blob];
    }
  }

  class Handlers {
    const setting: Setting
    const rootfs: BlobRef
    const blobs: InMemoryStore
    const droplets: InMemoryDropletStore

    constructor (setting: Setting, rootfs: BlobRef, blobs: InMemoryStore, droplets: InMemoryDropletStore)
      ensures this.setting == setting && this.rootfs == rootfs && this.blobs == blobs && this.droplets == droplets
    {
      this.setting, this.rootfs, this.blobs, this.droplets := setting, rootfs, blobs, droplets;
    }

    /** The content of both stores. */
    function Stores(): State
      reads blobs, droplets, set k | k in blobs.data :: blobs.data[k]
    {
      State(blobs.Unread(), droplets.refs)
    }

    /**
     Staging a droplet. The layer file is read to its end by the first put; the second one finds it empty.
     Either may fail, the second one with the layer stored but no droplet pointing to it.
     */
    method StageDroplet(guid: string, upload: Upload) returns (status: int)
      requires blobs.Valid() && blobs.hash == setting.hash
      modifies blobs, droplets
      ensures blobs.Valid()
      ensures status == if guid != "" && upload.Converted? && upload.readable && upload.rereadable then 201 else 500
      ensures Stores() == Next(setting, rootfs, old(Stores()), Stage(guid, upload))
      ensures status == 201 ==>
        var digest := "sha256:" + setting.hash(upload.layer);
        && blobs.Unread() == old(blobs.Unread())[digest := upload.layer][guid := []]
        && droplets.refs == old(droplets.refs)[guid := BlobRef(digest, |upload.layer|)]
      ensures status != 201 ==> droplets.refs == old(droplets.refs)
    {
      if guid == "" || upload.Failed? {
        return 500;
      }
      var layerTar := new Reader(upload.layer, n => if n == 0 then !upload.readable else !upload.rereadable);
      var put := blobs.Put(layerTar);
      if put.None? {
        return 500;
      }
      var again := blobs.PutWithID(guid, layerTar);
      if again.None? {
        return 500;
      }
      droplets.Set(guid, BlobRef(put.value.0, put.value.1));
      status := 201;
    }

    /** Serving a manifest stores the image config it names; for an unknown GUID the handler panics, with no effect. */
    method ServeManifest(guid: string) returns (m: Option<Manifest>)
      requires blobs.Valid() && blobs.hash == setting.hash
      modifies blobs
      ensures blobs.Valid() && droplets.refs == old(droplets.refs)
      ensures m == if guid in droplets.refs then Some(ManifestFor(setting, rootfs, droplets.refs[guid])) else None
      ensures m.Some? ==>
        var droplet := droplets.refs[guid];
        var config := setting.encode("vcap", [rootfs.digest, droplet.digest]);
        && m.value == Manifest(2, "application/vnd.docker.distribution.manifest.v2+json",
             Descriptor("application/vnd.docker.container.image.v1+json", "sha256:" + setting.hash(config), |config|),
             [Descriptor("application/vnd.docker.image.rootfs.diff.tar", rootfs.digest, rootfs.size),
              Descriptor("application/vnd.docker.image.rootfs.diff.tar.gzip", droplet.digest, droplet.size)])
        && blobs.Unread() == old(blobs.Unread())["sha256:" + setting.hash(config) := config]
      ensures Stores() == Next(setting, rootfs, old(Stores()), Serve(guid))
    {
      var droplet := droplets.Get(guid);
      if droplet.None? {
        return None; // nil pointer
      }
      var reader := new Reader(Config(setting, rootfs, droplet.value), _ => false);
      var put := blobs.Put(reader);
      m := Some(Manifest(2, MANIFEST_TYPE, Descriptor(CONFIG_TYPE, put.value.0, put.value.1),
        [Descriptor(ROOTFS_TYPE, rootfs.digest, rootfs.size),
         Descriptor(DROPLET_TYPE, droplet.value.digest, droplet.value.size)]));
    }

    /**
     Serving a blob sends what is left of it, as far as the client reads. After the answer to an unknown
     digest the handler goes on to the nil buffer and panics, with no effect.
     */
    method ServeBlob(digest: string, w: Writer) returns (o: Outcome)
      requires blobs.Valid()
      modifies w
      modifies if digest in blobs.data then {blobs.data[digest]} else {}
      ensures blobs.Valid()
      ensures o.Panic? <==> digest !in old(blobs.Unread())
      ensures o.Ok? <==> digest in old(blobs.Unread()) && |old(blobs.Unread())[digest]| <= old(w.room)
      ensures w.written == old(w.written) + Sendable(old(Stores()), digest, old(w.room))
      ensures Stores() == Next(setting, rootfs, old(Stores()), Fetch(digest, old(w.room)))
      ensures digest in old(blobs.Unread()) ==>
        var content := old(blobs.Unread())[digest];
        w.written == old(w.written) + if |content| <= old(w.room) then content else content[..old(w.room)]
    {
      var known := blobs.Has(digest);
      if !known {
        return Panic; // nil pointer
      }
      var ok := blobs.Get(digest, w);
      o := if ok then Ok else Err;
    }
  }

  /** What a client with room for so many bytes gets of a blob. */
  function Sendable(s: State, digest: string, room: nat): Bytes {
    if digest in s.unread then s.unread[digest][..Min(room, |s.unread[digest]|)] else []
  }

  // ----- runs -----

  datatype State = State(unread: map<string, Bytes>, droplets: map<string, BlobRef>)

  datatype Action =
    | Stage(guid: string, upload: Upload)
    | Serve(guid: string)
    | Fetch(digest: string, room: nat)

  /** At startup the rootfs is put into the store. */
  function Start(setting: Setting, rootfs: Bytes): State {
    State(map[Digest(setting.hash, rootfs) := rootfs], map[])
  }

  function RefTo(setting: Setting, rootfs: Bytes): BlobRef {
    BlobRef(Digest(setting.hash, rootfs), |rootfs|)
  }

  /** The effect of one request on the store; a request for an unknown GUID or digest has none. */
  function Next(setting: Setting, rootfs: BlobRef, s: State, a: Action): State {
    match a
    case Stage(guid, upload) =>
      if guid == "" || upload.Failed? || !upload.readable then s
      else
        var layer := upload.layer;
        var stored := s.(unread := s.unread[Digest(setting.hash, layer) := layer]);
        if !upload.rereadable then stored
        else State(stored.unread[guid := []], s.droplets[guid := BlobRef(Digest(setting.hash, layer), |layer|)])
    case Serve(guid) =>
      if guid !in s.droplets then s
      else
        var config := Config(setting, rootfs, s.droplets[guid]);
        s.(unread := s.unread[Digest(setting.hash, config) := config])
    case Fetch(digest, room) =>
      if digest !in s.unread then s
      else s.(unread := s.unread[digest := s.unread[digest][Min(room, |s.unread[digest]|)..]])
  }

  function After(setting: Setting, rootfs: Bytes, run: seq<Action>): State {
    if run == [] then Start(setting, rootfs)
    else Next(setting, RefTo(setting, rootfs), After(setting, rootfs, run[..|run| - 1]), run[|run| - 1])
  }

  /** What was last put under a key, and what fetches have delivered from it since. */
  datatype Account = Account(put: Bytes, delivered: Bytes)

  function Accounts(setting: Setting, rootfs: Bytes, run: seq<Action>): map<string, Account> {
    if run == [] then map[Digest(setting.hash, rootfs) := Account(rootfs, [])]
    else
      var before := run[..|run| - 1];
      Book(setting, rootfs, Accounts(setting, rootfs, before), After(setting, rootfs, before), run[|run| - 1])
  }

  function Book(setting: Setting, rootfs: Bytes, m: map<string, Account>, s: State, a: Action): map<string, Account> {
    match a
    case Stage(guid, upload) =>
      if guid == "" || upload.Failed? || !upload.readable then m
      else
        var stored := m[Digest(setting.hash, upload.layer) := Account(upload.layer, [])];
        if !upload.rereadable then stored else stored[guid := Account([], [])]
    case Serve(guid) =>
      if guid !in s.droplets then m
      else
        var config := Config(setting, RefTo(setting, rootfs), s.droplets[guid]);
        m[Digest(setting.hash, config) := Account(config, [])]
    case Fetch(digest, room) =>
      if digest in m && digest in s.unread
      then m[digest := m[digest].(delivered := m[digest].delivered + s.unread[digest][..Min(room, |s.unread[digest]|)])]
      else m
  }

  predicate Conserved(m: map<string, Account>, unread: map<string, Bytes>) {
    m.Keys == unread.Keys && forall k | k in m :: m[k].delivered + unread[k] == m[k].put
  }

  /** Conservation: for every key, what was delivered since the last put, followed by what is left, is what was put. */
  lemma {:induction false} BlobsConserved(setting: Setting, rootfs: Bytes, run: seq<Action>)
    ensures Conserved(Accounts(setting, rootfs, run), After(setting, rootfs, run).unread)
  {
    if run != [] {
      var before, a := run[..|run| - 1], run[|run| - 1];
      BlobsConserved(setting, rootfs, before);
      var m, s := Accounts(setting, rootfs, before), After(setting, rootfs, before);
      if a.Fetch? && a.digest in m {
        var n := Min(a.room, |s.unread[a.digest]|);
        assert s.unread[a.digest] == s.unread[a.digest][..n] + s.unread[a.digest][n..];
        assert (m[a.digest].delivered + s.unread[a.digest][..n]) + s.unread[a.digest][n..]
          == m[a.digest].delivered + s.unread[a.digest];
      }
    }
  }

  /**
   A fetch by a reader with room for everything delivers the bytes that were put exactly when no byte was
   delivered since; after it, a further fetch delivers nothing.
   */
  lemma FetchIsWholeExactly(setting: Setting, rootfs: Bytes, run: seq<Action>, digest: string, room: nat)
    requires digest in After(setting, rootfs, run).unread && room >= |After(setting, rootfs, run).unread[digest]|
    ensures var s, account := After(setting, rootfs, run), Accounts(setting, rootfs, run);
      && digest in account
      && (s.unread[digest][..Min(room, |s.unread[digest]|)] == account[digest].put <==> account[digest].delivered == [])
      && Next(setting, RefTo(setting, rootfs), s, Fetch(digest, room)).unread[digest] == []
  {
    hide After, Accounts;
    BlobsConserved(setting, rootfs, run);
    var s, account := After(setting, rootfs, run), Accounts(setting, rootfs, run);
    assert s.unread[digest][..|s.unread[digest]|] == s.unread[digest];
    assert |account[digest].put| == |account[digest].delivered| + |s.unread[digest]|;
    if account[digest].delivered == [] { assert [] + s.unread[digest] == s.unread[digest]; }
  }

  /** The rootfs can be fetched once. */
  lemma SecondFetchGetsNothing(setting: Setting, rootfs: Bytes)
    requires rootfs != []
    ensures var digest := Digest(setting.hash, rootfs);
      var s := After(setting, rootfs, [Fetch(digest, |rootfs|)]);
      forall room :: Sendable(s, digest, room) == []
  {
    assert [Fetch(Digest(setting.hash, rootfs), |rootfs|)][..0] == [];
  }

  /** A droplet staged under a GUID that is the digest of some non-empty content. */
  predicate ClobbersDigest(setting: Setting, a: Action) {
    && a.Stage? && a.guid != "" && a.upload.Converted? && a.upload.readable && a.upload.rereadable
    && IsDigest(a.guid) && a.guid != Digest(setting.hash, [])
  }

  predicate ContentAddressed(setting: Setting, m: map<string, Account>) {
    && (forall k | k in m && IsDigest(k) :: k == Digest(setting.hash, m[k].put))
    && (forall k | k in m && !IsDigest(k) :: m[k].put == [])
  }

  lemma BookAddressesExactly(setting: Setting, rootfs: Bytes, m: map<string, Account>, s: State, a: Action)
    requires ContentAddressed(setting, m)
    ensures ContentAddressed(setting, Book(setting, rootfs, m, s, a)) <==> !ClobbersDigest(setting, a)
  {
    hide Config;
    if ClobbersDigest(setting, a) {
      assert Book(setting, rootfs, m, s, a)[a.guid].put == [];
    }
  }

  /** The store is content-addressed `k` requests into the run. */
  predicate AddressedAt(setting: Setting, rootfs: Bytes, run: seq<Action>, k: nat) {
    k <= |run| && ContentAddressed(setting, Accounts(setting, rootfs, run[..k]))
  }

  predicate KeepsDigests(setting: Setting, run: seq<Action>) {
    forall k | 0 <= k < |run| :: !ClobbersDigest(setting, run[k])
  }

  lemma {:induction false} AddressedUpTo(setting: Setting, rootfs: Bytes, run: seq<Action>, n: nat)
    requires n <= |run|
    ensures (forall k | 0 <= k <= n :: AddressedAt(setting, rootfs, run, k)) <==> KeepsDigests(setting, run[..n])
  {
    hide ContentAddressed, Book, ClobbersDigest;
    if n == 0 {
      StartIsAddressed(setting, rootfs);
      assert AddressedAt(setting, rootfs, run, 0);
    } else {
      AddressedUpTo(setting, rootfs, run, n - 1);
      assert run[..n][..n - 1] == run[..n - 1];
      var before := run[..n - 1];
      if AddressedAt(setting, rootfs, run, n - 1) {
        BookAddressesExactly(setting, rootfs, Accounts(setting, rootfs, before),
                             After(setting, rootfs, before), run[n - 1]);
        assert AddressedAt(setting, rootfs, run, n) <==> !ClobbersDigest(setting, run[n - 1]);
      }
    }
  }

  lemma StartIsAddressed(setting: Setting, rootfs: Bytes)
    ensures ContentAddressed(setting, Accounts(setting, rootfs, []))
  {
  }

  /**
   Throughout a run, every `sha256:` key is the digest of what was put there and what is stored under
   any other key is empty, exactly when no droplet is staged under another content's digest.
   */
  lemma StoreIsContentAddressed(setting: Setting, rootfs: Bytes, run: seq<Action>)
    ensures (forall k | 0 <= k <= |run| :: AddressedAt(setting, rootfs, run, k)) <==> KeepsDigests(setting, run)
    ensures KeepsDigests(setting, run) ==> ContentAddressed(setting, Accounts(setting, rootfs, run))
  {
    hide ContentAddressed, Accounts;
    assert run[..|run|] == run;
    AddressedUpTo(setting, rootfs, run, |run|);
    if KeepsDigests(setting, run) { assert AddressedAt(setting, rootfs, run, |run|); }
  }

  ghost predicate GoodRef(setting: Setting, m: map<string, Account>, r: BlobRef) {
    r.digest in m && IsDigest(r.digest) && exists layer :: r == RefTo(setting, layer)
  }

  ghost predicate GoodRefs(setting: Setting, m: map<string, Account>, rootfs: Bytes, droplets: map<string, BlobRef>) {
    GoodRef(setting, m, RefTo(setting, rootfs)) && forall g | g in droplets :: GoodRef(setting, m, droplets[g])
  }

  lemma NextKeepsRefs(setting: Setting, rootfs: Bytes, m: map<string, Account>, s: State, a: Action)
    requires GoodRefs(setting, m, rootfs, s.droplets)
    ensures GoodRefs(setting, Book(setting, rootfs, m, s, a), rootfs,
                     Next(setting, RefTo(setting, rootfs), s, a).droplets)
  {
    var m', droplets := Book(setting, rootfs, m, s, a), Next(setting, RefTo(setting, rootfs), s, a).droplets;
    assert forall k | k in m :: k in m';
    forall g | g in droplets ensures GoodRef(setting, m', droplets[g]) {
      if g in s.droplets && droplets[g] == s.droplets[g] {
        assert GoodRef(setting, m, s.droplets[g]);
      } else {
        assert droplets[g] == RefTo(setting, a.upload.layer);
      }
    }
  }

  lemma {:induction false} RefsAreStored(setting: Setting, rootfs: Bytes, run: seq<Action>)
    ensures GoodRefs(setting, Accounts(setting, rootfs, run), rootfs, After(setting, rootfs, run).droplets)
  {
    hide Next, Book;
    if run == [] {
      assert GoodRef(setting, Accounts(setting, rootfs, run), RefTo(setting, rootfs));
    } else {
      var before := run[..|run| - 1];
      RefsAreStored(setting, rootfs, before);
      NextKeepsRefs(setting, rootfs, Accounts(setting, rootfs, before), After(setting, rootfs, before), run[|run| - 1]);
    }
  }

  ghost predicate Injective(hash: Hash) {
    forall a, b :: hash(a) == hash(b) ==> a == b
  }

  /**
   Referential closure: once a manifest for a known GUID is served, every digest it names is in the store;
   its layers are the config's `diff_ids` in order; and, when no droplet clobbers a digest and the hash
   has no collisions, every size is the length of what was last put under that digest.
   */
  lemma ManifestIsClosed(setting: Setting, rootfs: Bytes, run: seq<Action>, guid: string)
    requires guid in After(setting, rootfs, run).droplets
    ensures var droplet := After(setting, rootfs, run).droplets[guid];
      var m := ManifestFor(setting, RefTo(setting, rootfs), droplet);
      var run' := run + [Serve(guid)];
      var s, account := After(setting, rootfs, run'), Accounts(setting, rootfs, run');
      && m.config.digest in s.unread && m.config.digest in account && (forall d | d in m.layers :: d.digest in s.unread)
      && account[m.config.digest].put == setting.encode("vcap", [m.layers[0].digest, m.layers[1].digest])
      && s.unread[m.config.digest] == account[m.config.digest].put && m.config.size == |account[m.config.digest].put|
      && (KeepsDigests(setting, run) && Injective(setting.hash) ==>
            forall d | d in m.layers :: d.digest in account && d.size == |account[d.digest].put|)
  {
    var run' := run + [Serve(guid)];
    assert run'[..|run'| - 1] == run;
    hide After, Accounts;
    ServeRuns(setting, rootfs, run, guid);
    BlobsConserved(setting, rootfs, run');
    RefsAreStored(setting, rootfs, run');
    var s, account := After(setting, rootfs, run'), Accounts(setting, rootfs, run');
    if KeepsDigests(setting, run) && Injective(setting.hash) {
      StoreIsContentAddressed(setting, rootfs, run');
      SizesMatch(setting, account, RefTo(setting, rootfs));
      SizesMatch(setting, account, s.droplets[guid]);
    }
  }

  lemma ServeRuns(setting: Setting, rootfs: Bytes, run: seq<Action>, guid: string)
    requires guid in After(setting, rootfs, run).droplets
    ensures var config := Config(setting, RefTo(setting, rootfs), After(setting, rootfs, run).droplets[guid]);
      var s := After(setting, rootfs, run + [Serve(guid)]);
      && s.droplets == After(setting, rootfs, run).droplets
      && Digest(setting.hash, config) in s.unread && s.unread[Digest(setting.hash, config)] == config
      && Accounts(setting, rootfs, run + [Serve(guid)]) ==
           Accounts(setting, rootfs, run)[Digest(setting.hash, config) := Account(config, [])]
  {
    var run' := run + [Serve(guid)];
    assert run'[..|run'| - 1] == run;
  }

  lemma SizesMatch(setting: Setting, m: map<string, Account>, r: BlobRef)
    requires ContentAddressed(setting, m) && GoodRef(setting, m, r) && Injective(setting.hash)
    ensures r.size == |m[r.digest].put|
  {
    var layer :| r == RefTo(setting, layer);
    DigestDetermines(setting.hash, layer, m[r.digest].put);
  }

  lemma DigestDetermines(hash: Hash, a: Bytes, b: Bytes)
    requires Injective(hash) && Digest(hash, a) == Digest(hash, b)
    ensures a == b
  {
    assert Digest(hash, a)[7..] == hash(a) && Digest(hash, b)[7..] == hash(b);
  }

  /** The naming hypothesis is needed: a GUID that is another droplet's digest replaces that layer by nothing. */
  lemma DigestGuidErasesLayer(setting: Setting, rootfs: Bytes, layer: Bytes, guid: string, other: Bytes)
    requires guid != "" && !IsDigest(guid) && layer != []
    requires Digest(setting.hash, other) != Digest(setting.hash, layer)
    ensures var digest := Digest(setting.hash, layer);
      var run := [Stage(guid, Converted(layer, true, true)), Stage(digest, Converted(other, true, true))];
      var s := After(setting, rootfs, run);
      guid in s.droplets && s.droplets[guid] == BlobRef(digest, |layer|) && digest in s.unread && s.unread[digest] == []
  {
    var digest := Digest(setting.hash, layer);
    var run := [Stage(guid, Converted(layer, true, true)), Stage(digest, Converted(other, true, true))];
    assert run[..1] == [Stage(guid, Converted(layer, true, true))] && run[..1][..0] == [];
    assert digest != "" && digest != guid;
  }
}
