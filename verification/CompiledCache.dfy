// The compiled cache as the runtime uses it: lookup, publication, eviction, the cached branch of
// preparation and the readiness index, each changing or reading the store in place. Lines are those
// of crates/pit-runtime/src/lib.rs.
module CompiledCache {
  import opened Wrappers
  import opened Percent
  import opened Sorting
  import opened Sequences
  import opened QueryOrder
  import opened CacheStore
  import opened Toolchain

  datatype Source = WarmRestored | ColdCompiled

  // `PublishFailed` needs somebody else at work on the same directory: see `CacheProtocol`.
  datatype CacheError = CompileFailed | PublishFailed | ReadFailed | DeserializeFailed

  // What a preparation hands out, with the source its report names.
  datatype Prepared = Prepared(component: Component, source: Source)

  // A lookup that hits, and an artifact that then really loads.
  ghost predicate Usable(store: Store, host: Host, req: Request, t: Tools) {
    Warm(store, host, req) && t.load(store[KeyOf(req)].artifact.value.bytes).Some?
  }

  class Cache {
    var store: Store
    const maxBytes: nat
    const host: Host
    const tools: Tools

    constructor (maxBytes: nat, host: Host, tools: Tools)
      ensures store == map[] && this.maxBytes == maxBytes && this.host == host && this.tools == tools
    {
      store := map[];
      this.maxBytes, this.host, this.tools := maxBytes, host, tools;
    }

    method RemoveEntry(k: Key)
      modifies this
      ensures store == old(store) - {k}
    {
      store := store - {k};
    }

    // The listing of `evict_compiled_cache`: every directory with an artifact, in whatever order the
    // file system gives them, then sorted by modification time.
    method ListOldestFirst() returns (order: seq<Key>)
      ensures OldestFirst(store, order)
    {
      var entries: seq<Key> := [];
      var rest := store.Keys;
      while rest != {}
        invariant rest <= store.Keys
        invariant Distinct(entries)
        invariant forall k :: k in entries <==> k in store.Keys - rest && Artifact(store, k).Some?
        decreases rest
      {
        var k :| k in rest;
        assert k !in entries;
        if store[k].artifact.Some? {
          entries := entries + [k];
        }
        rest := rest - {k};
      }
      AgesAreOrdered(store);
      SortSorts(entries, ByAge(store));
      order := Sort(entries, ByAge(store));
      PermutedDistinct(entries, order);
    }

    // `evict_compiled_cache`. The running total is reduced by plain subtraction: it always covers
    // the entry at hand, so the saturation in the source never sets in.
    method Evict() returns (ghost order: seq<Key>, ghost cut: nat)
      modifies this
      ensures OldestFirst(old(store), order) && Cut(old(store), order, cut, maxBytes)
      ensures store == Kept(old(store), order, cut)
    {
      ghost var before := store;
      var entries := ListOldestFirst();
      var total := SumSizes(entries);
      order, cut := entries, 0;
      assert entries[0..] == entries && Kept(before, entries, 0) == before;
      hide OldestFirst, TotalSize, Kept;
      var i := 0;
      while i < |entries| && total > maxBytes
        invariant i <= |entries|
        invariant total == TotalSize(before, entries[i..])
        invariant i > 0 ==> TotalSize(before, entries[i - 1..]) > maxBytes
        invariant store == Kept(before, entries, i)
      {
        total := DropOldest(before, entries, i, total);
        i := i + 1;
      }
      cut := i;
    }

    // One victim, and what is left of the total.
    method DropOldest(ghost before: Store, entries: seq<Key>, i: nat, total: nat) returns (left: nat)
      requires OldestFirst(before, entries) && i < |entries| && store == Kept(before, entries, i)
      requires total == TotalSize(before, entries[i..])
      modifies this
      ensures store == Kept(before, entries, i + 1) && left == TotalSize(before, entries[i + 1..])
    {
      var size := SizeListed(before, entries, i);
      TotalFrom(before, entries, i);
      KeepOneLess(before, entries, i);
      hide OldestFirst, TotalSize, Kept;
      store := store - {entries[i]};
      left := total - size;
    }

    // The size the listing recorded for an entry not removed yet.
    method SizeListed(ghost before: Store, entries: seq<Key>, i: nat) returns (size: nat)
      requires OldestFirst(before, entries) && i < |entries| && store == Kept(before, entries, i)
      ensures size == SizeAt(before, entries[i])
    {
      assert entries[i] in entries && entries[i] in before;
      assert entries[i] !in entries[..i];
      size := SizeAt(store, entries[i]);
    }

    method SumSizes(entries: seq<Key>) returns (total: nat)
      ensures total == TotalSize(store, entries)
    {
      total := 0;
      var i := |entries|;
      while i > 0
        invariant 0 <= i <= |entries|
        invariant total == TotalSize(store, entries[i..])
      {
        i := i - 1;
        TotalFrom(store, entries, i);
        total := total + SizeAt(store, entries[i]);
      }
      assert entries[0..] == entries;
    }

    // `compiled_cache_entry`: answer from the cache, or compile, publish and trim. `modified` is the
    // time the file system gives the new artifact.
    method CompiledCacheEntry(req: Request, modified: int) returns (r: Result<Source, CacheError>)
      modifies this
      ensures Warm(old(store), host, req) ==> r == Ok(WarmRestored) && store == old(store)
      ensures !Warm(old(store), host, req) && tools.precompile(req.wasm).None? ==>
        r == Err(CompileFailed) && store == AfterLookup(old(store), host, req)
      ensures !Warm(old(store), host, req) && tools.precompile(req.wasm).Some? ==>
        r == Ok(ColdCompiled) &&
        Trimmed(Compiled(old(store), host, req, tools, modified), store, maxBytes)
    {
      var k := KeyOf(req);
      if MetadataAt(store, k).Some? {
        if Warm(store, host, req) {
          return Ok(WarmRestored);
        }
        RemoveEntry(k);
      }
      var compiled := tools.precompile(req.wasm);
      if compiled.None? {
        return Err(CompileFailed);
      }
      store := WithArtifact(store, k, compiled.value, modified);
      store := WithMetadata(store, k, MetadataFor(host, req, |compiled.value|));
      ghost var published := store;
      ghost var order, cut := Evict();
      assert OldestFirst(published, order) && Cut(published, order, cut, maxBytes);
      assert store == Kept(published, order, cut);
      return Ok(ColdCompiled);
    }

    // The cached branch of `prepare_with_world`, lines 962-1085. Both restore modes read the same
    // bytes; a warm artifact that does not load is removed and rebuilt once.
    method Prepare(req: Request, modified: int) returns (r: Result<Prepared, CacheError>)
      requires Lawful(tools) && Faithful(store, tools, req.fingerprint) && req.digest == tools.digest(req.wasm)
      modifies this
      ensures Faithful(store, tools, req.fingerprint)
      ensures AfterPrepare(old(store), store, host, req, tools, modified, maxBytes)
      ensures r.Ok? ==> tools.direct(req.wasm) == Some(r.value.component)
      ensures r.Ok? ==> (r.value.source.WarmRestored? <==> Usable(old(store), host, req, tools))
      ensures r.Ok? ==> (Usable(store, host, req, tools) <==>
                           Usable(old(store), host, req, tools) || tools.precompile(req.wasm) != Some([]))
      ensures r.Err? ==> r.error == if tools.direct(req.wasm).None? then CompileFailed else ReadFailed
      ensures Newest(old(store), KeyOf(req), modified) ==>
        (r.Ok? <==> Usable(old(store), host, req, tools) || Fits(tools, req.wasm, maxBytes))
    {
      ghost var before := store;
      var source :- CompiledCacheEntry(req, modified);
      var loaded := Load(req);
      if source.WarmRestored? && loaded.Err? && loaded.error.DeserializeFailed? {
        RemoveEntry(KeyOf(req));
        RebuildIsCold(before, host, req);
        source :- CompiledCacheEntry(req, modified);
        loaded := Load(req);
        ColdOutcome(before - {KeyOf(req)}, store, host, req, tools, modified, maxBytes);
        ColdIsUsable(before - {KeyOf(req)}, store, host, req, tools, modified, maxBytes);
      } else if source.ColdCompiled? {
        ColdOutcome(before, store, host, req, tools, modified, maxBytes);
        ColdIsUsable(before, store, host, req, tools, modified, maxBytes);
      }
      var component :- loaded;
      return Ok(Prepared(component, source));
    }

    // `warm_digests`: one visit per digest directory, then a sort. The final `dedup` finds nothing to
    // remove, because each directory adds its digest once.
    method WarmDigests() returns (values: seq<Bytes>)
      ensures forall d :: d in values <==> Listed(store, host, d)
      ensures Sorted(values, LexLe) && Distinct(values)
    {
      var found: seq<Bytes> := [];
      var directories := set k | k in store.Keys :: k.hex;
      var rest := directories;
      while rest != {}
        invariant rest <= directories
        invariant Distinct(found)
        invariant forall d :: d in found ==> Listed(store, host, d) && Hex(d) !in rest && HasPrefix(d)
        invariant forall k :: k in store && k.hex !in rest && Ready(store, host, k) ==> DIGEST_PREFIX + k.hex in found
        decreases rest
      {
        var hex :| hex in rest;
        assert Hex(DIGEST_PREFIX + hex) == hex;
        if exists k :: k in store.Keys && k.hex == hex && Ready(store, host, k) {
          assert DIGEST_PREFIX + hex !in found;
          found := found + [DIGEST_PREFIX + hex];
        }
        rest := rest - {hex};
      }
      BytesAreOrdered();
      SortSorts(found, LexLe);
      values := Sort(found, LexLe);
      PermutedDistinct(found, values);
    }

    method Load(req: Request) returns (r: Result<Component, CacheError>)
      ensures r == LoadAt(store, KeyOf(req), tools)
    {
      match Artifact(store, KeyOf(req))
      case None => return Err(ReadFailed);
      case Some(file) =>
        match tools.load(file.bytes) {
          case Some(component) => return Ok(component);
          case None => return Err(DeserializeFailed);
        }
    }
  }

  function LoadAt(store: Store, k: Key, tools: Tools): Result<Component, CacheError> {
    match Artifact(store, k)
    case None => Err(ReadFailed)
    case Some(file) =>
      match tools.load(file.bytes)
      case Some(component) => Ok(component)
      case None => Err(DeserializeFailed)
  }

  // ----- specifications -----

  // The store right after a cold lookup has published.
  function Compiled(store: Store, host: Host, req: Request, tools: Tools, modified: int): Store
    requires tools.precompile(req.wasm).Some?
  {
    Published(AfterLookup(store, host, req), host, req, tools.precompile(req.wasm).value, modified)
  }

  ghost predicate Trimmed(before: Store, after: Store, maxBytes: nat) {
    exists order, cut ::
      OldestFirst(before, order) && Cut(before, order, cut, maxBytes) && after == Kept(before, order, cut)
  }

  // What a lookup that misses leaves, when nobody else is at work.
  ghost predicate AfterMiss(
    before: Store, after: Store, host: Host, req: Request, tools: Tools, modified: int, maxBytes: nat)
  {
    if tools.precompile(req.wasm).None? then after == AfterLookup(before, host, req)
    else Trimmed(Compiled(before, host, req, tools, modified), after, maxBytes)
  }

  // What a preparation leaves: everything as it was after a hit, and otherwise what a miss leaves, once
  // an entry that does not load is gone.
  ghost predicate AfterPrepare(
    before: Store, after: Store, host: Host, req: Request, tools: Tools, modified: int, maxBytes: nat)
  {
    if Usable(before, host, req, tools) then after == before
    else if Warm(before, host, req) then
      AfterMiss(before - {KeyOf(req)}, after, host, req, tools, modified, maxBytes)
    else AfterMiss(before, after, host, req, tools, modified, maxBytes)
  }

  predicate Fits(tools: Tools, wasm: Bytes, maxBytes: nat) {
    tools.precompile(wasm).Some? && |tools.precompile(wasm).value| <= maxBytes
  }

  // No other artifact is as recent.
  ghost predicate Newest(store: Store, k: Key, modified: int) {
    forall j :: j in store && j != k && Artifact(store, j).Some? ==> ModifiedAt(store, j) < modified
  }

  // ----- what publication and trimming leave -----

  lemma RebuildIsCold(store: Store, host: Host, req: Request)
    ensures !Warm(store - {KeyOf(req)}, host, req)
    ensures AfterLookup(store - {KeyOf(req)}, host, req) == store - {KeyOf(req)}
  {}

  lemma PublishedEntry(store: Store, host: Host, req: Request, tools: Tools, modified: int)
    requires tools.precompile(req.wasm).Some?
    ensures var bytes := tools.precompile(req.wasm).value;
      && var published := Compiled(store, host, req, tools, modified);
      && KeyOf(req) in published
      && published[KeyOf(req)] ==
           Entry(Some(ArtifactFile(bytes, modified)), Some(Parsed(MetadataFor(host, req, |bytes|))))
      && (forall j :: j != KeyOf(req) ==> (j in published <==> j in store) && (j in store ==> published[j] == store[j]))
  {}

  lemma TrimmingKeeps(before: Store, after: Store, maxBytes: nat)
    requires Trimmed(before, after, maxBytes)
    ensures forall j :: j in after ==> j in before && after[j] == before[j]
  {}

  lemma FreshSurvives(
    before: Store, after: Store, host: Host, req: Request, tools: Tools, modified: int, maxBytes: nat)
    requires tools.precompile(req.wasm).Some?
    requires Trimmed(Compiled(before, host, req, tools, modified), after, maxBytes)
    ensures Newest(before, KeyOf(req), modified) ==>
      (KeyOf(req) in after <==> Fits(tools, req.wasm, maxBytes))
  {
    var published := Compiled(before, host, req, tools, modified);
    PublishedEntry(before, host, req, tools, modified);
    if Newest(before, KeyOf(req), modified) {
      var order, cut :|
        OldestFirst(published, order) && Cut(published, order, cut, maxBytes) && after == Kept(published, order, cut);
      NewestSurvivesIfItFits(published, order, cut, maxBytes, KeyOf(req));
    }
  }

  // After a cold lookup the store is still faithful; the fresh artifact is there exactly when it
  // fits, and then it loads to the component direct compilation gives.
  lemma ColdOutcome(
    before: Store, after: Store, host: Host, req: Request, tools: Tools, modified: int, maxBytes: nat)
    requires Lawful(tools) && Faithful(before, tools, req.fingerprint) && req.digest == tools.digest(req.wasm)
    requires tools.precompile(req.wasm).Some?
    requires Trimmed(Compiled(before, host, req, tools, modified), after, maxBytes)
    ensures Faithful(after, tools, req.fingerprint)
    ensures LoadAt(after, KeyOf(req), tools) ==
      if KeyOf(req) in after then Ok(tools.direct(req.wasm).value) else Err(ReadFailed)
    ensures Newest(before, KeyOf(req), modified) ==>
      (KeyOf(req) in after <==> Fits(tools, req.wasm, maxBytes))
  {
    var published := Compiled(before, host, req, tools, modified);
    PublishedEntry(before, host, req, tools, modified);
    TrimmingKeeps(published, after, maxBytes);
    CompiledBytesAreTrue(tools, KeyOf(req), req.wasm);
    FreshSurvives(before, after, host, req, tools, modified, maxBytes);
    hide Trimmed, Compiled, Newest, OldestFirst, Cut, Kept, TrueTo;
  }

  // A publication that survives trimming answers the next lookup of the same request, and shows up
  // in the readiness index, unless the compiled artifact is empty.
  lemma SurvivorIsWarm(
    before: Store, after: Store, host: Host, req: Request, tools: Tools, modified: int, maxBytes: nat)
    requires tools.precompile(req.wasm).Some? && HasPrefix(req.digest)
    requires Trimmed(Compiled(before, host, req, tools, modified), after, maxBytes)
    requires KeyOf(req) in after
    ensures Warm(after, host, req) <==> tools.precompile(req.wasm).value != []
    ensures Ready(after, host, KeyOf(req)) <==> tools.precompile(req.wasm).value != []
  {
    PublishedEntry(before, host, req, tools, modified);
    TrimmingKeeps(Compiled(before, host, req, tools, modified), after, maxBytes);
    LookupRefinesReadiness(after, host, req);
  }

  // So the next preparation of the request is a hit, and leaves the store alone.
  lemma ColdIsUsable(
    before: Store, after: Store, host: Host, req: Request, tools: Tools, modified: int, maxBytes: nat)
    requires Lawful(tools) && req.digest == tools.digest(req.wasm) && tools.precompile(req.wasm).Some?
    requires Trimmed(Compiled(before, host, req, tools, modified), after, maxBytes)
    ensures LoadAt(after, KeyOf(req), tools).Ok? ==>
      (Usable(after, host, req, tools) <==> tools.precompile(req.wasm).value != [])
  {
    if KeyOf(req) in after {
      SurvivorIsWarm(before, after, host, req, tools, modified, maxBytes);
    }
  }

  // Whatever the lookup would restore, the index lists, exactly when the digest has its prefix.
  lemma WarmIsListed(store: Store, host: Host, req: Request)
    requires Warm(store, host, req)
    ensures Listed(store, host, req.digest) <==> HasPrefix(req.digest)
  {
    if HasPrefix(req.digest) {
      LookupRefinesReadiness(store, host, req);
      assert req.digest == DIGEST_PREFIX + KeyOf(req).hex;
    }
  }

  // The exception is real: an entry published for a digest without its prefix is restored by the
  // next lookup, and not listed.
  lemma RestoredButNotListed(host: Host) returns (store: Store, req: Request)
    ensures Warm(store, host, req) && !HasPrefix(req.digest) && !Listed(store, host, req.digest)
  {
    req := Request([97], [1], "component", "wasi:http/proxy", [0]);
    store := Published(map[], host, req, [7], 0);
    WarmIsListed(store, host, req);
  }

  // A module that compiles and is still refused: its compiled form alone exceeds the cache, so it is
  // trimmed away before it can be read back.
  method OversizedModule(host: Host) returns (direct: Option<Component>, cached: Result<Prepared, CacheError>)
    ensures direct.Some? && cached == Err(ReadFailed)
  {
    var tools := Tools((w: Bytes) => Some(0), (w: Bytes) => Some([1]), (b: Bytes) => Some(0),
                       (w: Bytes) => DIGEST_PREFIX + w);
    DigestsDiffer(tools);
    var cache := new Cache(0, host, tools);
    var req := Request(tools.digest([0]), [1], "component", "wasi:http/proxy", [0]);
    direct := tools.direct(req.wasm);
    cached := cache.Prepare(req, 0);
    assert Newest(map[], KeyOf(req), 0);
  }

  lemma DigestsDiffer(tools: Tools)
    requires forall w :: tools.digest(w) == DIGEST_PREFIX + w
    requires forall w :: tools.direct(w) == Some(0) && tools.precompile(w) == Some([1]) && tools.load([1]) == Some(0)
    ensures Lawful(tools)
  {
    forall v, w | tools.digest(v) == tools.digest(w) ensures v == w {
      assert v == tools.digest(v)[|DIGEST_PREFIX|..];
      assert w == tools.digest(w)[|DIGEST_PREFIX|..];
    }
  }

  // ----- sorting the listing -----

  lemma AgesAreOrdered(store: Store)
    ensures Preorder(ByAge(store))
  {}
}
