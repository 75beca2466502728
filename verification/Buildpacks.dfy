/** recipe/staging_result_modifier.go: buildpack names in a staging result replaced by CC's keys, in a shared slice. */
module Buildpacks {
  import opened Wrappers

  datatype Buildpack = Buildpack(name: string, key: string, url: string, skipDetect: bool)

  datatype BuildpackMetadata = BuildpackMetadata(key: string, name: string)

  /** A staging result: a struct copied by value whose slice is shared by all copies. */
  datatype StagingResult = StagingResult(buildpackKey: string, buildpacks: array<BuildpackMetadata>, rest: string)

  /** The key of the first provided buildpack with this name. */
  function KeyFor(name: string, provided: seq<Buildpack>): Option<string> {
    if provided == [] then None
    else if provided[0].name == name then Some(provided[0].key)
    else KeyFor(name, provided[1..])
  }

  predicate FirstMatch(name: string, provided: seq<Buildpack>, i: nat, key: string) {
    && i < |provided| && provided[i].name == name && provided[i].key == key
    && forall j | 0 <= j < i :: provided[j].name != name
  }

  /** It is indeed the first match, and there is one exactly when some provided buildpack has the name. */
  lemma {:induction false} KeyForIsFirstMatch(name: string, provided: seq<Buildpack>)
    ensures KeyFor(name, provided).Some? <==> exists b :: b in provided && b.name == name
    ensures KeyFor(name, provided).Some? ==>
      exists i: nat :: FirstMatch(name, provided, i, KeyFor(name, provided).value)
  {
    if provided != [] {
      assert provided == [provided[0]] + provided[1..];
      if provided[0].name == name {
        assert FirstMatch(name, provided, 0, provided[0].key);
      } else {
        KeyForIsFirstMatch(name, provided[1..]);
        if KeyFor(name, provided).Some? {
          var i: nat :| FirstMatch(name, provided[1..], i, KeyFor(name, provided).value);
          assert FirstMatch(name, provided, i + 1, KeyFor(name, provided).value);
        }
      }
    }
  }

  predicate Known(name: string, provided: seq<Buildpack>) {
    KeyFor(name, provided).Some?
  }

  /** The name stays, and the key becomes that of the first provided buildpack with the old key as its name. */
  function Rewritten(b: BuildpackMetadata, provided: seq<Buildpack>): (r: BuildpackMetadata)
    requires Known(b.key, provided)
    ensures r.name == b.name && exists k :: FirstMatch(b.key, provided, k, r.key)
  {
    KeyForIsFirstMatch(b.key, provided);
    b.(key := KeyFor(b.key, provided).value)
  }

  /** The number of leading entries whose names are all known. */
  function KnownPrefix(bs: seq<BuildpackMetadata>, provided: seq<Buildpack>): (n: nat)
    ensures n <= |bs| && (forall i | 0 <= i < n :: Known(bs[i].key, provided))
    ensures n < |bs| ==> !Known(bs[n].key, provided)
  {
    if bs == [] || !Known(bs[0].key, provided) then 0 else 1 + KnownPrefix(bs[1..], provided)
  }

  lemma KnownExactly(bs: seq<BuildpackMetadata>, provided: seq<Buildpack>)
    ensures KnownPrefix(bs, provided) == |bs| ||
      exists i :: 0 <= i < |bs| && forall b | b in provided :: b.name != bs[i].key
  {
    var n := KnownPrefix(bs, provided);
    if n < |bs| {
      KeyForIsFirstMatch(bs[n].key, provided);
      assert forall b | b in provided :: b.name != bs[n].key;
    }
  }

  datatype Result = Result(buildpackKey: string, buildpacks: seq<BuildpackMetadata>, rest: string)

  function Contents(r: StagingResult): Result
    reads r.buildpacks
  {
    Result(r.buildpackKey, r.buildpacks[..], r.rest)
  }

  /** The staging result with CC's keys, if every name is known. */
  function WithKeys(r: Result, provided: seq<Buildpack>): (keyed: Option<Result>)
    ensures keyed.Some? ==>
      && keyed.value.rest == r.rest && |keyed.value.buildpacks| == |r.buildpacks|
      && (exists k :: FirstMatch(r.buildpackKey, provided, k, keyed.value.buildpackKey))
      && forall i | 0 <= i < |r.buildpacks| ::
           && keyed.value.buildpacks[i].name == r.buildpacks[i].name
           && exists k :: FirstMatch(r.buildpacks[i].key, provided, k, keyed.value.buildpacks[i].key)
    ensures keyed.None? ==>
      || (forall b | b in provided :: b.name != r.buildpackKey)
      || exists i :: 0 <= i < |r.buildpacks| && forall b | b in provided :: b.name != r.buildpacks[i].key
  {
    KeyForIsFirstMatch(r.buildpackKey, provided);
    KnownExactly(r.buildpacks, provided);
    if Known(r.buildpackKey, provided) && KnownPrefix(r.buildpacks, provided) == |r.buildpacks| then
      Some(r.(buildpackKey := KeyFor(r.buildpackKey, provided).value,
              buildpacks := seq(|r.buildpacks|, i requires 0 <= i < |r.buildpacks| =>
                Rewritten(r.buildpacks[i], provided))))
    else None
  }

  class BuildpacksKeyModifier {
    /** `CCBuildpacksJSON`, decoded; None when it is not the JSON of a buildpack list. */
    const ccBuildpacks: Option<seq<Buildpack>>

    constructor (ccBuildpacks: Option<seq<Buildpack>>)
      ensures this.ccBuildpacks == ccBuildpacks
    {
      this.ccBuildpacks := ccBuildpacks;
    }

    method GetBuildpackKey(name: string, provided: seq<Buildpack>) returns (key: Option<string>)
      ensures key == KeyFor(name, provided)
    {
      for i := 0 to |provided|
        invariant KeyFor(name, provided) == KeyFor(name, provided[i..])
      {
        if provided[i].name == name {
          return Some(provided[i].key);
        }
        assert provided[i..][1..] == provided[i + 1..];
      }
      key := None;
    }

    /** Entries are rewritten in place up to the first unknown name, which stops with an error. */
    method ModifyBuildpacks(bs: array<BuildpackMetadata>, provided: seq<Buildpack>) returns (ok: bool)
      modifies bs
      ensures var n := KnownPrefix(old(bs[..]), provided);
        && ok == (n == bs.Length)
        && (forall i | 0 <= i < n :: bs[i] == Rewritten(old(bs[i]), provided))
        && (forall i | n <= i < bs.Length :: bs[i] == old(bs[i]))
    {
      ghost var before := bs[..];
      for i := 0 to bs.Length
        invariant i <= KnownPrefix(before, provided)
        invariant forall k | 0 <= k < i :: bs[k] == Rewritten(before[k], provided)
        invariant forall k | i <= k < bs.Length :: bs[k] == before[k]
      {
        var key := GetBuildpackKey(bs[i].key, provided);
        if key.None? {
          return false;
        }
        bs[i] := bs[i].(key := key.value);
      }
      ok := true;
    }

    /**
     Succeeds exactly when the detected key and every entry's key name a provided buildpack; the result
     is then the pointwise first match. On failure the caller's slice has its known prefix rewritten.
     */
    method Modify(result: StagingResult) returns (r: Option<StagingResult>)
      modifies result.buildpacks
      ensures r.Some? <==>
        && ccBuildpacks.Some? && Known(result.buildpackKey, ccBuildpacks.value)
        && forall i | 0 <= i < result.buildpacks.Length :: Known(old(result.buildpacks[i]).key, ccBuildpacks.value)
      ensures r.Some? ==>
        && r.value == result.(buildpackKey := KeyFor(result.buildpackKey, ccBuildpacks.value).value)
        && forall i | 0 <= i < result.buildpacks.Length ::
             result.buildpacks[i] == Rewritten(old(result.buildpacks[i]), ccBuildpacks.value)
      ensures r.Some? ==>
        && r.value.rest == result.rest && r.value.buildpacks == result.buildpacks
        && (exists k :: FirstMatch(result.buildpackKey, ccBuildpacks.value, k, r.value.buildpackKey))
        && forall i | 0 <= i < result.buildpacks.Length ::
             && result.buildpacks[i].name == old(result.buildpacks[i]).name
             && exists k :: FirstMatch(old(result.buildpacks[i]).key, ccBuildpacks.value, k, result.buildpacks[i].key)
      ensures ccBuildpacks.Some? ==>
        (if r.Some? then Some(Contents(r.value)) else None) == WithKeys(old(Contents(result)), ccBuildpacks.value)
      ensures ccBuildpacks.None? || !Known(result.buildpackKey, ccBuildpacks.value) ==>
        result.buildpacks[..] == old(result.buildpacks[..])
      ensures r.None? && ccBuildpacks.Some? && Known(result.buildpackKey, ccBuildpacks.value) ==>
        var n := KnownPrefix(old(result.buildpacks[..]), ccBuildpacks.value);
        && n < result.buildpacks.Length && !Known(old(result.buildpacks[n]).key, ccBuildpacks.value)
        && (forall i | 0 <= i < n :: result.buildpacks[i] == Rewritten(old(result.buildpacks[i]), ccBuildpacks.value))
        && (forall i | n <= i < result.buildpacks.Length :: result.buildpacks[i] == old(result.buildpacks[i]))
    {
      ghost var before := Contents(result);
      if ccBuildpacks.None? {
        return None;
      }
      var key := GetBuildpackKey(result.buildpackKey, ccBuildpacks.value);
      if key.None? {
        return None;
      }
      ghost var n := KnownPrefix(result.buildpacks[..], ccBuildpacks.value);
      assert n < result.buildpacks.Length ==> !Known(result.buildpacks[n].key, ccBuildpacks.value);
      var ok := ModifyBuildpacks(result.buildpacks, ccBuildpacks.value);
      if !ok {
        return None;
      }
      r := Some(result.(buildpackKey := key.value));
      KeyForIsFirstMatch(result.buildpackKey, ccBuildpacks.value);
      assert result.buildpacks[..] == WithKeys(before, ccBuildpacks.value).value.buildpacks;
    }
  }
}
