// Any number of preparations sharing one compiled cache, interleaved at every file operation, with
// preparations that die between two operations and files that get lost or damaged at any time. Lines
// are those of crates/pit-runtime/src/lib.rs.
module CacheProtocol {
  import opened Wrappers
  import opened Percent
  import opened CacheStore
  import opened Toolchain
  import opened CompiledCache

  // What all preparations of one runtime share. In the file-backed mode a missing artifact file is
  // one of the ways deserialisation fails; in the byte mode it is an error of its own.
  datatype Setup = Setup(host: Host, tools: Tools, fingerprint: Bytes, fileBacked: bool)

  datatype Pc =
    | Looking                                       // before the metadata is read
    | Described(found: MetadataFile)                // metadata read, artifact not yet examined
    | Discarding                                    // lookup failed, entry about to be removed
    | Compiling
    | Storing(bytes: Bytes)                         // before the artifact is renamed into place
    | Describing(bytes: Bytes)                      // between the two renames
    | Trimming
    | Loading(source: Source)
    | Rejected                                      // warm artifact did not load, before its removal
    | Finished(result: Result<Component, CacheError>)
    | Dead

  datatype Preparation = Preparation(req: Request, rebuilding: bool, pc: Pc)

  datatype State = State(store: Store, preparations: seq<Preparation>)

  datatype Action =
    | Begin(req: Request)
    | Advance(p: nat, modified: int)
    | Fail(p: nat)   // a file operation of the publication fails
    | Trim(p: nat, victims: set<Key>)
    | Die(p: nat)
    | Damage(k: Key, left: Option<Entry>)

  // Damage deletes, truncates or overwrites an artifact so that it no longer loads, or leaves it
  // alone; it may do anything to metadata, and anything at all to another engine's entries.
  predicate Harmless(u: Setup, store: Store, k: Key, left: Option<Entry>) {
    k.fingerprint == u.fingerprint && left.Some? && left.value.artifact.Some? ==>
      u.tools.load(left.value.artifact.value.bytes).None? ||
      (Artifact(store, k).Some? && Artifact(store, k).value.bytes == left.value.artifact.value.bytes)
  }

  // Before one of the two renames. Its directory may be removed under it by another preparation, by
  // trimming or by damage, and then the rename fails.
  predicate Publishing(pc: Pc) { pc.Storing? || pc.Describing? }

  predicate Over(p: Preparation) { p.pc.Finished? || p.pc.Dead? }

  predicate Enabled(u: Setup, s: State, a: Action) {
    match a
    case Begin(req) => req.fingerprint == u.fingerprint && req.digest == u.tools.digest(req.wasm)
    case Advance(p, _) =>
      p < |s.preparations| && !Over(s.preparations[p]) && !s.preparations[p].pc.Trimming?
    case Fail(p) => p < |s.preparations| && Publishing(s.preparations[p].pc)
    case Trim(p, _) => p < |s.preparations| && s.preparations[p].pc.Trimming?
    case Die(p) => p < |s.preparations| && !Over(s.preparations[p])
    case Damage(k, left) => Harmless(u, s.store, k, left)
  }

  function At(s: State, p: nat, pc: Pc): State
    requires p < |s.preparations|
  {
    s.(preparations := s.preparations[p := s.preparations[p].(pc := pc)])
  }

  // The next file operation of a preparation.
  function Step(u: Setup, s: State, p: nat, modified: int): State
    requires Enabled(u, s, Advance(p, modified))
  {
    var req := s.preparations[p].req;
    var k := KeyOf(req);
    match s.preparations[p].pc
    case Looking =>
      (match MetadataAt(s.store, k)
       case Some(found) => At(s, p, Described(found))
       case None => At(s, p, Compiling))
    case Described(found) =>
      if found.Parsed? && Accepts(found.metadata, u.host, req, Size(s.store, k)) then
        At(s, p, Loading(WarmRestored))
      else At(s, p, Discarding)
    case Discarding => At(s, p, Compiling).(store := s.store - {k})
    case Compiling =>
      (match u.tools.precompile(req.wasm)
       case Some(bytes) => At(s, p, Storing(bytes))
       case None => At(s, p, Finished(Err(CompileFailed))))
    case Storing(bytes) => At(s, p, Describing(bytes)).(store := WithArtifact(s.store, k, bytes, modified))
    case Describing(bytes) =>
      At(s, p, Trimming).(store := WithMetadata(s.store, k, MetadataFor(u.host, req, |bytes|)))
    case Loading(source) => Loaded(u, s, p, source, LoadAt(s.store, k, u.tools))
    case Rejected =>
      s.(store := s.store - {k}, preparations := s.preparations[p := Preparation(req, true, Looking)])
    case _ => s
  }

  // Reading the artifact back, lines 995-1085: a warm artifact that does not load is rebuilt once.
  function Loaded(u: Setup, s: State, p: nat, source: Source, result: Result<Component, CacheError>): State
    requires p < |s.preparations|
  {
    if result.Err? && source.WarmRestored? && !s.preparations[p].rebuilding
       && (u.fileBacked || result.error.DeserializeFailed?)
    then At(s, p, Rejected)
    else At(s, p, Finished(result))
  }

  function Apply(u: Setup, s: State, a: Action): State
    requires Enabled(u, s, a)
  {
    match a
    case Begin(req) => s.(preparations := s.preparations + [Preparation(req, false, Looking)])
    case Advance(p, modified) => Step(u, s, p, modified)
    case Fail(p) => At(s, p, Finished(Err(PublishFailed)))
    // Trimming another directory listing than the current one may remove any set of entries.
    case Trim(p, victims) => At(s, p, Loading(ColdCompiled)).(store := s.store - victims)
    case Die(p) => At(s, p, Dead)
    case Damage(k, left) =>
      s.(store := match left case Some(entry) => s.store[k := entry] case None => s.store - {k})
  }

  // ----- safety -----

  predicate Honest(u: Setup, p: Preparation) {
    && p.req.fingerprint == u.fingerprint && p.req.digest == u.tools.digest(p.req.wasm)
    && (p.pc.Storing? || p.pc.Describing? ==> u.tools.precompile(p.req.wasm) == Some(p.pc.bytes))
    && (p.pc.Finished? && p.pc.result.Ok? ==> u.tools.direct(p.req.wasm) == Some(p.pc.result.value))
  }

  ghost predicate Inv(u: Setup, s: State) {
    && Faithful(s.store, u.tools, u.fingerprint)
    && (forall p :: 0 <= p < |s.preparations| ==> Honest(u, s.preparations[p]))
  }

  lemma StepKeepsStoreFaithful(u: Setup, s: State, p: nat, modified: int)
    requires Lawful(u.tools) && Inv(u, s) && Enabled(u, s, Advance(p, modified))
    ensures Faithful(Step(u, s, p, modified).store, u.tools, u.fingerprint)
  {
    var prep := s.preparations[p];
    assert Honest(u, prep);
    if prep.pc.Storing? {
      CompiledBytesAreTrue(u.tools, KeyOf(prep.req), prep.req.wasm);
    }
  }

  lemma StepMovesOnePreparation(u: Setup, s: State, p: nat, modified: int)
    requires Enabled(u, s, Advance(p, modified))
    ensures var t := Step(u, s, p, modified);
      |t.preparations| == |s.preparations| && t.preparations == s.preparations[p := t.preparations[p]]
  {}

  // What is loaded under a key is what direct compilation gives.
  lemma LoadIsHonest(u: Setup, store: Store, req: Request)
    requires Faithful(store, u.tools, u.fingerprint)
    requires req.fingerprint == u.fingerprint && req.digest == u.tools.digest(req.wasm)
    ensures var r := LoadAt(store, KeyOf(req), u.tools); r.Ok? ==> u.tools.direct(req.wasm) == Some(r.value)
  {
    if Artifact(store, KeyOf(req)).Some? {
      assert TrueTo(u.tools, KeyOf(req), Artifact(store, KeyOf(req)).value.bytes);
      assert Hex(u.tools.digest(req.wasm)) == KeyOf(req).hex;
    }
  }

  lemma StepKeepsOwnHonest(u: Setup, s: State, p: nat, modified: int)
    requires Faithful(s.store, u.tools, u.fingerprint)
    requires Enabled(u, s, Advance(p, modified)) && Honest(u, s.preparations[p])
    ensures |Step(u, s, p, modified).preparations| == |s.preparations|
    ensures Honest(u, Step(u, s, p, modified).preparations[p])
  {
    LoadIsHonest(u, s.store, s.preparations[p].req);
    hide Faithful, LoadAt, Accepts;
  }

  lemma StepKeepsHonest(u: Setup, s: State, p: nat, modified: int)
    requires Inv(u, s) && Enabled(u, s, Advance(p, modified))
    ensures |Step(u, s, p, modified).preparations| == |s.preparations|
    ensures forall q :: 0 <= q < |s.preparations| ==> Honest(u, Step(u, s, p, modified).preparations[q])
  {
    StepMovesOnePreparation(u, s, p, modified);
    StepKeepsOwnHonest(u, s, p, modified);
    hide Step, Honest, Enabled;
  }

  lemma ApplyKeepsInv(u: Setup, s: State, a: Action)
    requires Lawful(u.tools) && Inv(u, s) && Enabled(u, s, a)
    ensures Inv(u, Apply(u, s, a))
  {
    if a.Advance? {
      StepKeepsStoreFaithful(u, s, a.p, a.modified);
      StepKeepsHonest(u, s, a.p, a.modified);
    } else if a.Trim? || a.Die? || a.Fail? {
      assert Honest(u, s.preparations[a.p]);
    }
  }

  ghost predicate Run(u: Setup, s: State, acts: seq<Action>, t: State)
    decreases |acts|
  {
    if acts == [] then t == s else Enabled(u, s, acts[0]) && Run(u, Apply(u, s, acts[0]), acts[1..], t)
  }

  lemma {:induction false} RunKeepsInv(u: Setup, s: State, acts: seq<Action>, t: State)
    requires Lawful(u.tools) && Inv(u, s) && Run(u, s, acts, t)
    ensures Inv(u, t)
    decreases |acts|
  {
    if acts != [] {
      ApplyKeepsInv(u, s, acts[0]);
      RunKeepsInv(u, Apply(u, s, acts[0]), acts[1..], t);
    }
  }

  predicate Succeeded(p: Preparation) { p.pc.Finished? && p.pc.result.Ok? }

  // The cache is transparent: from any faithful store, after any interleaving, any crashes and any
  // damage, a preparation that succeeds has the component direct compilation gives; and whatever
  // the store then looks like, the next preparation may start from it.
  lemma CacheIsTransparent(u: Setup, store: Store, acts: seq<Action>, t: State)
    requires Lawful(u.tools) && Faithful(store, u.tools, u.fingerprint)
    requires Run(u, State(store, []), acts, t)
    ensures forall p :: 0 <= p < |t.preparations| && Succeeded(t.preparations[p]) ==>
      u.tools.direct(t.preparations[p].req.wasm) == Some(t.preparations[p].pc.result.value)
    ensures Faithful(t.store, u.tools, u.fingerprint)
  {
    RunKeepsInv(u, State(store, []), acts, t);
    assert forall p :: 0 <= p < |t.preparations| ==> Honest(u, t.preparations[p]);
  }

  // ----- termination -----

  // File operations left at most, when the entry is not rebuilt.
  function RankOfRound(pc: Pc): nat {
    match pc
    case Looking => 8
    case Described(_) => 7
    case Discarding => 6
    case Compiling => 5
    case Storing(_) => 4
    case Describing(_) => 3
    case Trimming => 2
    case Loading(_) => 1
    case Rejected => 0
    case Finished(_) => 0
    case Dead => 0
  }

  // A preparation that is not rebuilding yet may have a rejection and a second round ahead of it.
  function Rank(p: Preparation): nat {
    if Over(p) then 0 else RankOfRound(p.pc) + if p.rebuilding && !p.pc.Rejected? then 0 else 9
  }

  // One that has not begun has everything ahead of it.
  function RankAt(s: State, p: nat): nat {
    if p < |s.preparations| then Rank(s.preparations[p]) else 17
  }

  predicate Own(a: Action, p: nat) { (a.Advance? || a.Fail? || a.Trim? || a.Die?) && a.p == p }

  function OwnActions(acts: seq<Action>, p: nat): nat {
    if acts == [] then 0 else (if Own(acts[0], p) then 1 else 0) + OwnActions(acts[1..], p)
  }

  // Only a preparation that has not been rebuilt is ever rejected.
  ghost predicate RebuiltOnce(s: State) {
    forall p :: 0 <= p < |s.preparations| && s.preparations[p].pc.Rejected? ==> !s.preparations[p].rebuilding
  }

  lemma EveryOperationCounts(u: Setup, s: State, a: Action, p: nat)
    requires RebuiltOnce(s) && Enabled(u, s, a)
    ensures RankAt(Apply(u, s, a), p) + (if Own(a, p) then 1 else 0) <= RankAt(s, p)
  {}

  lemma ApplyKeepsRebuilt(u: Setup, s: State, a: Action)
    requires RebuiltOnce(s) && Enabled(u, s, a)
    ensures RebuiltOnce(Apply(u, s, a))
  {}

  // A preparation is over after at most seventeen operations of its own, whatever other preparations,
  // crashes and damage do to the store meanwhile: it is rebuilt once at most.
  lemma {:induction false} PreparationsEnd(u: Setup, s: State, acts: seq<Action>, t: State, p: nat)
    requires RebuiltOnce(s) && Run(u, s, acts, t)
    ensures OwnActions(acts, p) + RankAt(t, p) <= RankAt(s, p) <= 17
    decreases |acts|
  {
    if acts != [] {
      EveryOperationCounts(u, s, acts[0], p);
      ApplyKeepsRebuilt(u, s, acts[0]);
      PreparationsEnd(u, Apply(u, s, acts[0]), acts[1..], t, p);
    }
  }

  // Dying and failing apart.
  predicate Works(a: Action, p: nat) { Own(a, p) && !a.Die? && !a.Fail? }

  // Until then its next operation is always possible: it waits for nobody.
  lemma PreparationsNeverWait(u: Setup, s: State, p: nat)
    requires p < |s.preparations|
    ensures Over(s.preparations[p]) <==> forall a :: Works(a, p) ==> !Enabled(u, s, a)
  {
    assert Works(Advance(p, 0), p) && Works(Trim(p, {}), p);
  }
}
