// The compiled cache on disk: one directory per artifact digest and engine fingerprint, holding the
// compiled artifact and its metadata. Either file may be missing or damaged at any time. Lines are
// those of crates/pit-runtime/src/lib.rs.
module CacheStore {
  import opened Wrappers
  import opened Percent
  import opened Sorting
  import opened Sequences

  const SCHEMA := 2
  const WASMTIME_VERSION := "39.0.2"
  // "sha256:"
  const DIGEST_PREFIX: Bytes := [115, 104, 97, 50, 53, 54, 58]

  datatype Metadata = Metadata(
    schemaVersion: nat, artifactDigest: Bytes, fingerprint: Bytes, wasmtime: string, target: string,
    architecture: string, format: string, world: string, wasmSize: nat, compiledSize: nat)

  datatype MetadataFile = Unreadable | Parsed(metadata: Metadata)

  datatype ArtifactFile = ArtifactFile(bytes: Bytes, modified: int)

  datatype Entry = Entry(artifact: Option<ArtifactFile>, metadata: Option<MetadataFile>)

  // Directory of an entry: the digest without its prefix, and the fingerprint. The two-character
  // directory above it is determined by the digest.
  datatype Key = Key(hex: Bytes, fingerprint: Bytes)

  type Store = map<Key, Entry>

  datatype Host = Host(target: string, architecture: string)

  datatype Request = Request(digest: Bytes, fingerprint: Bytes, format: string, world: string, wasm: Bytes)

  predicate HasPrefix(digest: Bytes) { DIGEST_PREFIX <= digest }

  function Hex(digest: Bytes): Bytes {
    if HasPrefix(digest) then digest[|DIGEST_PREFIX|..] else digest
  }

  // `cache_entry_paths`.
  function KeyOf(req: Request): Key { Key(Hex(req.digest), req.fingerprint) }

  function Artifact(store: Store, k: Key): Option<ArtifactFile> {
    if k in store then store[k].artifact else None
  }

  function MetadataAt(store: Store, k: Key): Option<MetadataFile> {
    if k in store then store[k].metadata else None
  }

  function SizeAt(store: Store, k: Key): nat {
    match Artifact(store, k)
    case Some(f) => |f.bytes|
    case None => 0
  }

  // ----- lookup -----

  // The metadata check of `compiled_cache_entry`, lines 698-718.
  predicate Accepts(m: Metadata, host: Host, req: Request, size: Option<nat>) {
    && m.schemaVersion == SCHEMA
    && m.artifactDigest == req.digest
    && m.fingerprint == req.fingerprint
    && m.wasmtime == WASMTIME_VERSION
    && m.target == host.target
    && m.architecture == host.architecture
    && m.format == req.format
    && m.world == req.world
    && m.wasmSize == |req.wasm|
    && size == Some(m.compiledSize)
    && m.compiledSize != 0
  }

  function Size(store: Store, k: Key): Option<nat> {
    match Artifact(store, k)
    case Some(f) => Some(|f.bytes|)
    case None => None
  }

  // Whether a lookup answers from the cache.
  predicate Warm(store: Store, host: Host, req: Request) {
    match MetadataAt(store, KeyOf(req))
    case Some(Parsed(m)) => Accepts(m, host, req, Size(store, KeyOf(req)))
    case _ => false
  }

  // What a lookup leaves behind: a damaged or foreign entry is removed, files without readable
  // metadata file stay until they are overwritten.
  function AfterLookup(store: Store, host: Host, req: Request): Store {
    if MetadataAt(store, KeyOf(req)).Some? && !Warm(store, host, req) then store - {KeyOf(req)} else store
  }

  function MetadataFor(host: Host, req: Request, size: nat): Metadata {
    Metadata(SCHEMA, req.digest, req.fingerprint, WASMTIME_VERSION, host.target, host.architecture, req.format,
             req.world, |req.wasm|, size)
  }

  function WithArtifact(store: Store, k: Key, bytes: Bytes, modified: int): Store {
    store[k := Entry(Some(ArtifactFile(bytes, modified)), MetadataAt(store, k))]
  }

  function WithMetadata(store: Store, k: Key, m: Metadata): Store {
    store[k := Entry(Artifact(store, k), Some(Parsed(m)))]
  }

  // Both renames of a publication.
  function Published(store: Store, host: Host, req: Request, bytes: Bytes, modified: int): Store {
    WithMetadata(WithArtifact(store, KeyOf(req), bytes, modified), KeyOf(req), MetadataFor(host, req, |bytes|))
  }

  // ----- the readiness index -----

  // The check of `warm_digests`, lines 857-896, on one fingerprint directory.
  predicate Ready(store: Store, host: Host, k: Key) {
    match (MetadataAt(store, k), Artifact(store, k))
    case (Some(Parsed(m)), Some(f)) =>
      && m.schemaVersion == SCHEMA
      && m.artifactDigest == DIGEST_PREFIX + k.hex
      && m.fingerprint == k.fingerprint
      && m.wasmtime == WASMTIME_VERSION
      && m.target == host.target
      && m.architecture == host.architecture
      && m.compiledSize == |f.bytes|
      && |f.bytes| > 0
    case _ => false
  }

  // Digests the index lists.
  ghost predicate Listed(store: Store, host: Host, digest: Bytes) {
    exists k :: k in store && Ready(store, host, k) && digest == DIGEST_PREFIX + k.hex
  }

  // For a canonical digest, the index and the lookup differ by exactly what the index does not
  // know: the format, the world and the size of the requested module.
  lemma LookupRefinesReadiness(store: Store, host: Host, req: Request)
    requires HasPrefix(req.digest)
    ensures Warm(store, host, req) <==>
      && Ready(store, host, KeyOf(req))
      && store[KeyOf(req)].metadata.value.metadata.format == req.format
      && store[KeyOf(req)].metadata.value.metadata.world == req.world
      && store[KeyOf(req)].metadata.value.metadata.wasmSize == |req.wasm|
  {
    assert DIGEST_PREFIX + Hex(req.digest) == req.digest;
  }

  // Of no use to this host: damaged, incomplete, filed under another digest or engine, or made by
  // another release of the cache format or of Wasmtime, or on another kind of host.
  predicate Unfit(k: Key, e: Entry, host: Host) {
    match (e.metadata, e.artifact)
    case (Some(Parsed(m)), Some(f)) =>
      || |f.bytes| == 0 || |f.bytes| != m.compiledSize
      || Hex(m.artifactDigest) != k.hex || m.fingerprint != k.fingerprint
      || m.schemaVersion != 2 || m.wasmtime != "39.0.2"
      || m.target != host.target || m.architecture != host.architecture
    case _ => true
  }

  function Fit(store: Store, host: Host): Store {
    map k | k in store && !Unfit(k, store[k], host) :: store[k]
  }

  // Such entries are neither restored nor listed: lookups and the index answer as if they were not
  // there.
  lemma UnfitEntriesAreInvisible(store: Store, host: Host)
    ensures forall req :: Warm(store, host, req) <==> Warm(Fit(store, host), host, req)
    ensures forall digest :: Listed(store, host, digest) <==> Listed(Fit(store, host), host, digest)
  {
    forall digest ensures Listed(store, host, digest) <==> Listed(Fit(store, host), host, digest) {
      if Listed(store, host, digest) {
        var k :| k in store && Ready(store, host, k) && digest == DIGEST_PREFIX + k.hex;
        assert Ready(Fit(store, host), host, k);
      }
      if Listed(Fit(store, host), host, digest) {
        var k :| k in Fit(store, host) && Ready(Fit(store, host), host, k) && digest == DIGEST_PREFIX + k.hex;
        assert Ready(store, host, k);
      }
    }
  }

  // ----- eviction -----

  function TotalSize(store: Store, order: seq<Key>): nat {
    if order == [] then 0 else SizeAt(store, order[0]) + TotalSize(store, order[1..])
  }

  function ModifiedAt(store: Store, k: Key): int {
    match Artifact(store, k)
    case Some(f) => f.modified
    case None => 0
  }

  predicate Older(store: Store, j: Key, k: Key) { ModifiedAt(store, j) <= ModifiedAt(store, k) }

  function ByAge(store: Store): (Key, Key) -> bool { (j: Key, k: Key) => Older(store, j, k) }

  // A listing of every entry that has an artifact, oldest first.
  ghost predicate OldestFirst(store: Store, order: seq<Key>) {
    && Sorted(order, ByAge(store))
    && Distinct(order)
    && (forall k :: k in order <==> Artifact(store, k).Some?)
  }

  // The `cut` oldest entries go: as many as needed, and no more.
  ghost predicate Cut(store: Store, order: seq<Key>, cut: nat, maxBytes: nat) {
    && cut <= |order|
    && TotalSize(store, order[cut..]) <= maxBytes
    && (cut > 0 ==> TotalSize(store, order[cut - 1..]) > maxBytes)
  }

  function Kept(store: Store, order: seq<Key>, cut: nat): Store
    requires cut <= |order|
  {
    store - set k | k in order[..cut]
  }

  lemma KeepOneLess(store: Store, order: seq<Key>, cut: nat)
    requires cut < |order|
    ensures Kept(store, order, cut + 1) == Kept(store, order, cut) - {order[cut]}
  {
    assert order[..cut + 1] == order[..cut] + [order[cut]];
  }

  lemma {:induction false} TotalIncludes(store: Store, order: seq<Key>, i: nat)
    requires i < |order|
    ensures SizeAt(store, order[i]) <= TotalSize(store, order[i..]) <= TotalSize(store, order)
    decreases i
  {
    if i > 0 {
      TotalIncludes(store, order[1..], i - 1);
      assert order[1..][i - 1..] == order[i..];
    } else {
      assert order[0..] == order;
    }
  }

  lemma TotalFrom(store: Store, order: seq<Key>, i: nat)
    requires i < |order|
    ensures TotalSize(store, order[i..]) == SizeAt(store, order[i]) + TotalSize(store, order[i + 1..])
  {
    assert order[i..][1..] == order[i + 1..];
  }

  lemma LastIsNewest(store: Store, order: seq<Key>, i: nat)
    requires OldestFirst(store, order) && i < |order|
    ensures ModifiedAt(store, order[i]) <= ModifiedAt(store, order[|order| - 1])
  {
    if i < |order| - 1 {
      assert ByAge(store)(order[i], order[|order| - 1]);
    }
  }

  // A strictly newest entry survives exactly when it fits on its own.
  lemma NewestSurvivesIfItFits(store: Store, order: seq<Key>, cut: nat, maxBytes: nat, k: Key)
    requires OldestFirst(store, order) && Cut(store, order, cut, maxBytes)
    requires Artifact(store, k).Some?
    requires forall j :: j in store && j != k && Artifact(store, j).Some? ==>
      ModifiedAt(store, j) < ModifiedAt(store, k)
    ensures k in Kept(store, order, cut) <==> SizeAt(store, k) <= maxBytes
    ensures k in Kept(store, order, cut) ==> Kept(store, order, cut)[k] == store[k]
  {
    var i :| 0 <= i < |order| && order[i] == k;
    var n := |order| - 1;
    assert order[n] in order;
    LastIsNewest(store, order, i);
    assert i == n;
    TotalFrom(store, order, n);
    assert order[n + 1..] == [];
    if k !in order[..cut] {
      assert cut <= n;
      TotalIncludes(store, order[cut..], n - cut);
    } else {
      assert cut == |order|;
    }
  }
}
