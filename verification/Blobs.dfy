/** blobondemand/blonde.go: the in-memory blob store. Readers and stored buffers are used up by reading. */
module Blobs {
  import opened Wrappers

  newtype Byte = b: int | 0 <= b < 256
  type Bytes = seq<Byte>

  /** SHA-256 and its hexadecimal form, as some function of the content. */
  type Hash = Bytes -> string

  function Digest(hash: Hash, content: Bytes): string {
    "sha256:" + hash(content)
  }

  predicate IsDigest(key: string) {
    "sha256:" <= key
  }

  /** An `io.Reader` over finite content: each turn reads to the end and leaves nothing, or fails half-way. */
  class Reader {
    var rest: Bytes
    var turn: nat
    const fails: nat -> bool

    constructor (content: Bytes, fails: nat -> bool)
      ensures rest == content && turn == 0 && this.fails == fails
    {
      rest, turn, this.fails := content, 0, fails;
    }

    predicate Fails()
      reads this
    {
      fails(turn)
    }
  }

  /** A `bytes.Buffer`: the bytes not yet read. */
  class Buffer {
    var unread: Bytes

    constructor (content: Bytes)
      ensures unread == content
    {
      unread := content;
    }
  }

  /** An `io.Writer` that accepts at most `room` more bytes. */
  class Writer {
    var written: Bytes
    var room: nat

    constructor (room: nat)
      ensures written == [] && this.room == room
    {
      written, this.room := [], room;
    }
  }

  function Min(a: nat, b: nat): (m: nat)
    ensures m <= a && m <= b && (m == a || m == b)
  {
    if a <= b then a else b
  }

  class InMemoryStore {
    var data: map<string, Buffer>
    const hash: Hash

    constructor (hash: Hash)
      ensures data == map[] && this.hash == hash && Valid()
    {
      data, this.hash := map[], hash;
    }

    /** No two keys share a buffer. */
    ghost predicate Valid()
      reads this
    {
      forall k, l | k in data && l in data && k != l :: data[k] != data[l]
    }

    /** What is left to read, per key. */
    function Unread(): map<string, Bytes>
      reads this, set k | k in data :: data[k]
    {
      map k | k in data :: data[k].unread
    }

    method CopyIn(buf: Reader) returns (content: Option<Bytes>)
      modifies buf
      ensures buf.turn == old(buf.turn) + 1 && (content.Some? ==> buf.rest == [])
      ensures content == if old(buf.Fails()) then None else Some(old(buf.rest))
    {
      content := if buf.Fails() then None else Some(buf.rest);
      if content.Some? { buf.rest := []; }
      buf.turn := buf.turn + 1;
    }

    method Put(buf: Reader) returns (r: Option<(string, nat)>)
      requires Valid()
      modifies this, buf
      ensures Valid() && buf.turn == old(buf.turn) + 1 && (r.Some? ==> buf.rest == [])
      ensures r == if old(buf.Fails()) then None else Some(("sha256:" + hash(old(buf.rest)), |old(buf.rest)|))
      ensures Unread() ==
        if old(buf.Fails()) then old(Unread()) else old(Unread())[Digest(hash, old(buf.rest)) := old(buf.rest)]
    {
      var content := CopyIn(buf);
      if content.None? {
        return None;
      }
      var id := Digest(hash, content.value);
      var stored := new Buffer(content.value);
      data := data[id := stored];
      r := Some((id, |content.value|));
    }

    /** Stored under the given key; the digest of the content is still what it returns. */
    method PutWithID(guid: string, buf: Reader) returns (r: Option<(string, nat)>)
      requires Valid()
      modifies this, buf
      ensures Valid() && buf.turn == old(buf.turn) + 1 && (r.Some? ==> buf.rest == [])
      ensures r == if old(buf.Fails()) then None else Some(("sha256:" + hash(old(buf.rest)), |old(buf.rest)|))
      ensures Unread() == if old(buf.Fails()) then old(Unread()) else old(Unread())[guid := old(buf.rest)]
    {
      var content := CopyIn(buf);
      if content.None? {
        return None;
      }
      var stored := new Buffer(content.value);
      data := data[guid := stored];
      r := Some((Digest(hash, content.value), |content.value|));
    }

    method Has(digest: string) returns (ok: bool)
      ensures ok <==> digest in Unread()
    {
      ok := digest in data;
    }

    /** What the writer accepts is gone from the buffer; a short write is an error. */
    method Get(digest: string, w: Writer) returns (ok: bool)
      requires Valid() && digest in data
      modifies w, data[digest]
      ensures Valid() && data == old(data)
      ensures var n := Min(old(w.room), |old(Unread())[digest]|);
        && w.written == old(w.written) + old(Unread())[digest][..n]
        && Unread() == old(Unread())[digest := old(Unread())[digest][n..]]
        && (ok <==> n == |old(Unread())[digest]|)
    {
      var buffer := data[digest];
      var n := Min(w.room, |buffer.unread|);
      w.written := w.written + buffer.unread[..n];
      w.room := w.room - n;
      ok := n == |buffer.unread|;
      buffer.unread := buffer.unread[n..];
    }
  }
}
