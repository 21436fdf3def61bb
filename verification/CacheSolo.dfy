// A preparation that has the compiled cache to itself: its file operations, one by one, come to what
// the cached branch of the runtime does in one go.
module CacheSolo {
  import opened Wrappers
  import opened CacheStore
  import opened Toolchain
  import opened CompiledCache
  import opened CacheProtocol

  // Only preparation `p` acts, and none of its operations fails.
  predicate Alone(acts: seq<Action>, p: nat) {
    forall i :: 0 <= i < |acts| ==> Works(acts[i], p)
  }

  // From `s` to `t` with preparation `p` alone at work.
  ghost predicate Leads(u: Setup, s: State, p: nat, acts: seq<Action>, t: State) {
    Run(u, s, acts, t) && Alone(acts, p)
  }

  lemma {:induction false} LeadsOn(u: Setup, s: State, p: nat, acts: seq<Action>, t: State, a: Action)
    requires Leads(u, s, p, acts, t) && Enabled(u, t, a) && Works(a, p)
    ensures Leads(u, s, p, acts + [a], Apply(u, t, a))
    decreases |acts|
  {
    hide Enabled, Apply, Works;
    if acts == [] {
      assert acts + [a] == [a] && [a][1..] == [];
      assert Run(u, Apply(u, t, a), [], Apply(u, t, a));
    } else {
      LeadsOn(u, Apply(u, s, acts[0]), p, acts[1..], t, a);
      assert (acts + [a])[0] == acts[0];
      assert (acts + [a])[1..] == acts[1..] + [a];
    }
  }

  predicate At(s: State, p: nat, req: Request, rebuilding: bool, pc: Pc) {
    p < |s.preparations| && s.preparations[p] == Preparation(req, rebuilding, pc)
  }

  // One step, with what it does spelt out.
  lemma Onward(u: Setup, s: State, p: nat, acts: seq<Action>, t: State, modified: int)
    returns (more: seq<Action>, v: State)
    requires Leads(u, s, p, acts, t) && Enabled(u, t, Advance(p, modified))
    ensures Leads(u, s, p, more, v) && v == Step(u, t, p, modified)
  {
    LeadsOn(u, s, p, acts, t, Advance(p, modified));
    more, v := acts + [Advance(p, modified)], Apply(u, t, Advance(p, modified));
  }

  // The lookup: a hit leaves the store alone, a miss removes an entry that has metadata.
  lemma LookupAlone(u: Setup, s: State, p: nat, acts: seq<Action>, t: State, req: Request, rebuilding: bool)
    returns (more: seq<Action>, v: State)
    requires Leads(u, s, p, acts, t) && At(t, p, req, rebuilding, Looking)
    ensures Leads(u, s, p, more, v) && v.store == AfterLookup(t.store, u.host, req)
    ensures v.preparations == t.preparations[
      p := Preparation(req, rebuilding, if Warm(t.store, u.host, req) then Loading(WarmRestored) else Compiling)]
  {
    hide Leads, Accepts;
    more, v := Onward(u, s, p, acts, t, 0);
    if v.preparations[p].pc.Described? {
      more, v := Onward(u, s, p, more, v, 0);
      if v.preparations[p].pc.Discarding? {
        more, v := Onward(u, s, p, more, v, 0);
      }
    }
  }

  // Compilation and the two renames.
  lemma PublishAlone(
    u: Setup, s: State, p: nat, acts: seq<Action>, t: State, req: Request, rebuilding: bool, modified: int)
    returns (more: seq<Action>, v: State)
    requires Leads(u, s, p, acts, t) && At(t, p, req, rebuilding, Compiling)
    requires u.tools.precompile(req.wasm).Some?
    ensures Leads(u, s, p, more, v)
    ensures v.store == Published(t.store, u.host, req, u.tools.precompile(req.wasm).value, modified)
    ensures v.preparations == t.preparations[p := Preparation(req, rebuilding, Trimming)]
  {
    hide Leads;
    more, v := Onward(u, s, p, acts, t, modified);
    more, v := Onward(u, s, p, more, v, modified);
    more, v := Onward(u, s, p, more, v, modified);
  }

  lemma TrimAlone(
    u: Setup, s: State, p: nat, acts: seq<Action>, t: State, req: Request, rebuilding: bool,
    maxBytes: nat, after: Store)
    returns (more: seq<Action>, v: State)
    requires Leads(u, s, p, acts, t) && At(t, p, req, rebuilding, Trimming)
    requires Trimmed(t.store, after, maxBytes)
    ensures Leads(u, s, p, more, v) && v.store == after
    ensures v.preparations == t.preparations[p := Preparation(req, rebuilding, Loading(ColdCompiled))]
  {
    var order, cut :|
      OldestFirst(t.store, order) && Cut(t.store, order, cut, maxBytes) && after == Kept(t.store, order, cut);
    var victims := set k | k in order[..cut];
    LeadsOn(u, s, p, acts, t, Trim(p, victims));
    more, v := acts + [Trim(p, victims)], Apply(u, t, Trim(p, victims));
  }

  // What the preparation ends with, given the store it leaves.
  function Outcome(u: Setup, req: Request, after: Store): Result<Component, CacheError> {
    if u.tools.precompile(req.wasm).None? then Err(CompileFailed) else LoadAt(after, KeyOf(req), u.tools)
  }

  // A round that misses, to its end.
  lemma ColdRoundAlone(
    u: Setup, s: State, p: nat, acts: seq<Action>, t: State, req: Request, rebuilding: bool,
    modified: int, maxBytes: nat, after: Store)
    returns (more: seq<Action>, v: State)
    requires Leads(u, s, p, acts, t) && At(t, p, req, rebuilding, Looking)
    requires !Warm(t.store, u.host, req)
    requires AfterMiss(t.store, after, u.host, req, u.tools, modified, maxBytes)
    ensures Leads(u, s, p, more, v) && v.store == after
    ensures v.preparations == t.preparations[p := Preparation(req, rebuilding, Finished(Outcome(u, req, after)))]
  {
    hide Leads, Warm, LoadAt, AfterLookup;
    more, v := LookupAlone(u, s, p, acts, t, req, rebuilding);
    if u.tools.precompile(req.wasm).Some? {
      more, v := PublishAlone(u, s, p, more, v, req, rebuilding, modified);
      more, v := TrimAlone(u, s, p, more, v, req, rebuilding, maxBytes, after);
    }
    more, v := Onward(u, s, p, more, v, modified);
  }

  // The first round of a preparation that hits, to the load.
  lemma WarmRoundAlone(u: Setup, s: State, p: nat, req: Request) returns (acts: seq<Action>, t: State)
    requires At(s, p, req, false, Looking) && Warm(s.store, u.host, req)
    ensures Leads(u, s, p, acts, t) && t.store == s.store
    ensures t.preparations == s.preparations[p := Preparation(req, false,
      if Usable(s.store, u.host, req, u.tools) then Finished(LoadAt(s.store, KeyOf(req), u.tools)) else Rejected)]
  {
    assert Leads(u, s, p, [], s);
    acts, t := LookupAlone(u, s, p, [], s, req, false);
    acts, t := Onward(u, s, p, acts, t, 0);
  }

  // Alone at work, a preparation ends with the store and the result of the cached branch, in either
  // restore mode and for every trimming the listing allows.
  lemma AloneIsPrepare(u: Setup, s: State, p: nat, req: Request, modified: int, maxBytes: nat, after: Store)
    returns (acts: seq<Action>, t: State)
    requires At(s, p, req, false, Looking)
    requires AfterPrepare(s.store, after, u.host, req, u.tools, modified, maxBytes)
    ensures Leads(u, s, p, acts, t) && t.store == after
    ensures p < |t.preparations| && t.preparations[p].pc.Finished?
    ensures t.preparations[p].pc.result ==
      if Usable(s.store, u.host, req, u.tools) then LoadAt(after, KeyOf(req), u.tools) else Outcome(u, req, after)
  {
    if Warm(s.store, u.host, req) {
      acts, t := WarmRoundAlone(u, s, p, req);
      if !Usable(s.store, u.host, req, u.tools) {
        acts, t := Onward(u, s, p, acts, t, 0);
        RebuildIsCold(s.store, u.host, req);
        acts, t := ColdRoundAlone(u, s, p, acts, t, req, true, modified, maxBytes, after);
      }
    } else {
      assert Leads(u, s, p, [], s);
      acts, t := ColdRoundAlone(u, s, p, [], s, req, false, modified, maxBytes, after);
    }
  }
}
