// The compiler and the deserialiser, as far as the cache depends on them.
module Toolchain {
  import opened Wrappers
  import opened Percent
  import opened CacheStore

  type Component = int

  // `direct` is compilation without the cache, `precompile` what the cache stores, `load` the
  // deserialiser and `digest` the canonical artifact digest.
  datatype Tools = Tools(
    direct: Bytes -> Option<Component>,
    precompile: Bytes -> Option<Bytes>,
    load: Bytes -> Option<Component>,
    digest: Bytes -> Bytes)

  // Compilation is deterministic, deserialising what was precompiled gives what direct compilation
  // gives, and digests are canonical and free of collisions.
  ghost predicate Lawful(t: Tools) {
    && (forall w :: t.precompile(w).Some? <==> t.direct(w).Some?)
    && (forall w :: t.precompile(w).Some? ==> t.load(t.precompile(w).value) == t.direct(w))
    && (forall v, w :: t.digest(v) == t.digest(w) ==> v == w)
    && (forall w :: HasPrefix(t.digest(w)))
  }

  // The artifact bytes under a key are rejected by the deserialiser, or are the compiled form of
  // every module with that digest. Deletion, truncation and overwriting with bytes that do not
  // deserialise all keep this.
  ghost predicate TrueTo(t: Tools, k: Key, bytes: Bytes) {
    t.load(bytes).Some? ==> forall w :: Hex(t.digest(w)) == k.hex ==> t.load(bytes) == t.direct(w)
  }

  // ... for every entry made for this engine.
  ghost predicate Faithful(store: Store, t: Tools, fingerprint: Bytes) {
    forall k :: k in store && k.fingerprint == fingerprint && store[k].artifact.Some? ==>
      TrueTo(t, k, store[k].artifact.value.bytes)
  }

  lemma CanonicalHex(t: Tools, v: Bytes, w: Bytes)
    requires Lawful(t) && Hex(t.digest(v)) == Hex(t.digest(w))
    ensures v == w
  {
    assert t.digest(v) == DIGEST_PREFIX + Hex(t.digest(v));
    assert t.digest(w) == DIGEST_PREFIX + Hex(t.digest(w));
  }

  lemma CompiledBytesAreTrue(t: Tools, k: Key, w: Bytes)
    requires Lawful(t) && k.hex == Hex(t.digest(w)) && t.precompile(w).Some?
    ensures TrueTo(t, k, t.precompile(w).value)
  {
    forall v | Hex(t.digest(v)) == k.hex ensures t.load(t.precompile(w).value) == t.direct(v) {
      CanonicalHex(t, v, w);
    }
  }
}
