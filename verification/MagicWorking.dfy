/** Magic workings through a whole turn: the inert gate, the dispatch bank with its magic handler
    (sidequest/agents/subsystems/magic_working.py) and the watcher that reads the receipts afterwards.

    The gate and the watcher each claim to know which workings an engine could answer. Here both are held
    against the handler itself. Other subsystems do not touch the magic fields of a snapshot. */
module MagicWorking {
  import opened Options
  import opened Dispatch
  import opened EngagementWatcher

  // ---- the handler -----------------------------------------------------

  /** All but OtherRules are of the Without Number family. */
  datatype Ruleset = Wwn | Swn | Cwn | Awn | OtherRules

  /** What the genre pack ships for the session's world. Catalogues hold normalised ids and display names;
      `pact` is whether a dispatch's parameters validate as a working of an actor with character bars. */
  datatype Pack = Pack(ruleset: Ruleset, spells: Option<set<string>>, disciplines: Option<set<string>>,
                       mutations: Option<set<string>>, norm: string -> string, pact: SubsystemDispatch -> bool)

  datatype Engine = NoEngine | PactPlugin | CastSpine | Psionics | Mutations

  predicate PsionicSurface(pack: Pack, snap: Snapshot) {
    && pack.ruleset != OtherRules && pack.disciplines.Some?
    && exists c | c in snap.characters :: c.effort
  }

  /** The engine that the handler hands a working to; it is the same for every working of a turn. */
  function Route(pack: Pack, snap: Snapshot): Engine {
    if snap.magic.Some? then PactPlugin
    else if pack.ruleset == Wwn && HasCaster(snap) then CastSpine
    else if PsionicSurface(pack, snap) then Psionics
    else if pack.ruleset == Awn && pack.mutations.Some? && HasMutant(snap) then Mutations
    else NoEngine
  }

  const MAX_REF_CHARS := 256

  /** The dispatch names an actor, and something in the catalogue. */
  predicate Names(pack: Pack, d: SubsystemDispatch, catalogue: Option<set<string>>) {
    && StrParam(d, "actor").Some? && StrParam(d, "actor").value != ""
    && StrParam(d, "spell").Some? && 0 < |StrParam(d, "spell").value| <= MAX_REF_CHARS
    && catalogue.Some? && pack.norm(StrParam(d, "spell").value) in catalogue.value
  }

  predicate ActorIs(d: SubsystemDispatch, snap: Snapshot, fit: Core -> bool) {
    var actor := StrParam(d, "actor");
    actor.Some? && actor.value in snap.creatures && fit(snap.creatures[actor.value])
  }

  /** The engine that answers a working, refusals of the engine included; NoEngine is a failed premise or a raise. */
  function Service(pack: Pack, snap: Snapshot, d: SubsystemDispatch): Engine {
    var engine := Route(pack, snap);
    var answered :=
      match engine
      case NoEngine => false
      case PactPlugin => StrParam(d, "actor").Some? && pack.pact(d)
      case CastSpine => Names(pack, d, pack.spells) && ActorIs(d, snap, (c: Core) => c.spellcasting)
      case Psionics => Names(pack, d, pack.disciplines) && ActorIs(d, snap, (c: Core) => c.effort)
      case Mutations => Names(pack, d, pack.mutations) && ActorIs(d, snap, (c: Core) => true)
                        && StrParam(d, "actor").value in snap.mutants.value;
    if answered then engine else NoEngine
  }

  /** What an answered working leaves on the snapshot; a psionic activation leaves no receipt. */
  function Handle(pack: Pack, snap: Snapshot, d: SubsystemDispatch): Snapshot {
    if d.subsystem != "magic_working" then snap
    else
      match Service(pack, snap, d)
      case NoEngine => snap
      case Psionics => snap
      case PactPlugin => snap.(magic := Some(snap.magic.value + [StrParam(d, "actor").value]))
      case CastSpine => snap.(castLog := snap.castLog + [Stamp(snap.turn, StrParam(d, "actor").value)])
      case Mutations => snap.(mutationLog := snap.mutationLog + [Stamp(snap.turn, StrParam(d, "actor").value)])
  }

  // ---- the bank --------------------------------------------------------

  function HandleAll(pack: Pack, snap: Snapshot, ds: seq<SubsystemDispatch>): Snapshot {
    if ds == [] then snap else Handle(pack, HandleAll(pack, snap, ds[..|ds| - 1]), ds[|ds| - 1])
  }

  function Keys(ds: seq<SubsystemDispatch>): set<string> { set d | d in ds :: d.key }

  /** What the bank runs of an ordered list: the first dispatch of each key, if it is confident enough. */
  function Runs(confident: SubsystemDispatch -> bool, ordered: seq<SubsystemDispatch>): (rs: seq<SubsystemDispatch>)
    ensures forall d | d in rs :: d in ordered
  {
    if ordered == [] then []
    else
      var n := |ordered| - 1;
      var d, rest := ordered[n], Runs(confident, ordered[..n]);
      if d.key in Keys(ordered[..n]) || !confident(d) then rest else rest + [d]
  }

  method RunBank(pack: Pack, confident: SubsystemDispatch -> bool, ordered: seq<SubsystemDispatch>, snap: Snapshot)
    returns (after: Snapshot)
    ensures after == HandleAll(pack, snap, Runs(confident, ordered))
  {
    hide Handle;
    after := snap;
    var seen: set<string> := {};
    for i := 0 to |ordered|
      invariant seen == Keys(ordered[..i])
      invariant after == HandleAll(pack, snap, Runs(confident, ordered[..i]))
    {
      var d := ordered[i];
      assert ordered[..i + 1][..i] == ordered[..i];
      assert Keys(ordered[..i + 1]) == Keys(ordered[..i]) + {d.key};
      if d.key !in seen && confident(d) {
        after := Handle(pack, after, d);
        assert (Runs(confident, ordered[..i]) + [d])[..|Runs(confident, ordered[..i])|] == Runs(confident, ordered[..i]);
      }
      seen := seen + {d.key};
    }
    assert ordered[..|ordered|] == ordered;
  }

  /** What the bank runs, in terms of the list: the confident dispatches that no earlier one shares its key with. */
  lemma {:induction false} RunsIff(confident: SubsystemDispatch -> bool, ordered: seq<SubsystemDispatch>, d: SubsystemDispatch)
    ensures d in Runs(confident, ordered) <==> confident(d) && Leads(ordered, d)
  {
    hide Leads, Keys;
    if ordered == [] {
      NobodyLeads(d);
    } else {
      var n := |ordered| - 1;
      RunsIff(confident, ordered[..n], d);
      LeadsSnoc(ordered, d);
    }
  }

  /** The dispatch stands in the list, and nothing before it has its key. */
  ghost predicate Leads(ordered: seq<SubsystemDispatch>, d: SubsystemDispatch) {
    exists k | 0 <= k < |ordered| :: ordered[k] == d && forall j | 0 <= j < k :: ordered[j].key != d.key
  }

  lemma NobodyLeads(d: SubsystemDispatch)
    ensures !Leads([], d)
  {}

  lemma LeadsSnoc(ordered: seq<SubsystemDispatch>, d: SubsystemDispatch)
    requires ordered != []
    ensures var n := |ordered| - 1;
            Leads(ordered, d) <==> Leads(ordered[..n], d) || (d == ordered[n] && d.key !in Keys(ordered[..n]))
  {
    var n := |ordered| - 1;
    var init := ordered[..n];
    assert forall j | 0 <= j < n :: init[j] == ordered[j];
    if k :| 0 <= k < |init| && init[k] == d && forall j | 0 <= j < k :: init[j].key != d.key {
      assert ordered[k] == d;
    }
    if k :| 0 <= k < |ordered| && ordered[k] == d && forall j | 0 <= j < k :: ordered[j].key != d.key {
      if k < n {
        assert init[k] == d;
      }
    }
    if d.key in Keys(init) {
      var x :| x in init && x.key == d.key;
    }
  }

  /** The parameter names an entry of the catalogue: a non-empty string of at most 256 characters. */
  ghost predicate Listed(pack: Pack, d: SubsystemDispatch, catalogue: Option<set<string>>) {
    catalogue.Some? && SaysSome(d, "spell", (x: string) => 1 <= |x| <= 256 && pack.norm(x) in catalogue.value)
  }

  /** Which engine answers a working. Pact magic answers alone where the world has it. Otherwise, in this order: the
      cast spine of a WWN pack with a caster in the party; psionics of any Without Number pack with disciplines and a
      psychic; the mutations of an AWN pack with a mutant. The actor must itself have what the engine needs. */
  lemma AnsweredIff(pack: Pack, snap: Snapshot, d: SubsystemDispatch)
    ensures var caster := exists c :: c in snap.characters && c.spellcasting;
            var psychic := exists c :: c in snap.characters && c.effort;
            var casts := snap.magic == None && pack.ruleset == Wwn && caster;
            var minds := snap.magic == None && !casts && pack.ruleset in [Wwn, Swn, Cwn, Awn] && pack.disciplines != None && psychic;
            var mutates := snap.magic == None && !minds && pack.ruleset == Awn && pack.mutations != None
                           && snap.mutants != None && snap.mutants != Some({});
            && (Service(pack, snap, d) == PactPlugin <==> snap.magic != None && SaysSome(d, "actor", (x: string) => true) && pack.pact(d))
            && (Service(pack, snap, d) == CastSpine <==>
                casts && Listed(pack, d, pack.spells)
                && SaysSome(d, "actor", (x: string) => x != "" && x in snap.creatures && snap.creatures[x].spellcasting))
            && (Service(pack, snap, d) == Psionics <==>
                minds && Listed(pack, d, pack.disciplines)
                && SaysSome(d, "actor", (x: string) => x != "" && x in snap.creatures && snap.creatures[x].effort))
            && (Service(pack, snap, d) == Mutations <==>
                mutates && Listed(pack, d, pack.mutations)
                && SaysSome(d, "actor", (x: string) => x != "" && x in snap.creatures && x in snap.mutants.value))
  {
    SurfacesRead(snap);
    hide HasCaster, HasMutant;
  }

  lemma SurfacesRead(snap: Snapshot)
    ensures HasCaster(snap) <==> exists c :: c in snap.characters && c.spellcasting
    ensures HasMutant(snap) <==> snap.mutants != None && snap.mutants != Some({})
  {}

  // ---- what the bank leaves for the watcher ----------------------------

  ghost predicate SameSurfaces(x: Snapshot, y: Snapshot) {
    x.turn == y.turn && x.characters == y.characters && x.creatures == y.creatures && x.mutants == y.mutants
    && (x.magic.Some? <==> y.magic.Some?)
  }

  /** Nothing else touched the magic fields since. */
  ghost predicate SameMagic(x: Snapshot, y: Snapshot) {
    x.turn == y.turn && x.castLog == y.castLog && x.mutationLog == y.mutationLog && x.magic == y.magic
  }

  /** Workings consume no surface, so which engine answers which working is settled when the turn begins. */
  lemma {:induction false} SurfacesStay(pack: Pack, snap: Snapshot, ds: seq<SubsystemDispatch>)
    ensures SameSurfaces(HandleAll(pack, snap, ds), snap)
  {
    hide Service;
    if ds != [] {
      var before := HandleAll(pack, snap, ds[..|ds| - 1]);
      SurfacesStay(pack, snap, ds[..|ds| - 1]);
      ServiceNamesActor(pack, before, ds[|ds| - 1]);
    }
  }

  lemma ServiceStays(pack: Pack, x: Snapshot, y: Snapshot, d: SubsystemDispatch)
    requires SameSurfaces(x, y)
    ensures Service(pack, x, d) == Service(pack, y, d)
  {}

  /** The snapshot holds evidence of a working by this actor. */
  ghost predicate Marked(snap: Snapshot, who: string) {
    || Stamped(snap.castLog, snap.turn, who) || Stamped(snap.mutationLog, snap.turn, who)
    || (snap.magic.Some? && who in snap.magic.value)
  }

  /** An engine that writes receipts answers this working of the actor. */
  ghost predicate LeavesReceipt(pack: Pack, snap: Snapshot, d: SubsystemDispatch, who: string) {
    && d.subsystem == "magic_working" && StrParam(d, "actor") == Some(who)
    && Service(pack, snap, d) != NoEngine && Service(pack, snap, d) != Psionics
  }

  lemma ServiceNamesActor(pack: Pack, snap: Snapshot, d: SubsystemDispatch)
    ensures Service(pack, snap, d) != NoEngine ==>
              StrParam(d, "actor").Some? && Service(pack, snap, d) == Route(pack, snap)
  {}

  lemma HandleMarks(pack: Pack, snap: Snapshot, d: SubsystemDispatch, who: string)
    ensures Marked(Handle(pack, snap, d), who) <==> Marked(snap, who) || LeavesReceipt(pack, snap, d, who)
  {
    ServiceNamesActor(pack, snap, d);
    hide Service, StrParam;
  }

  /** After the bank, an actor is marked exactly if marked before or answered by an engine that writes receipts. */
  lemma {:induction false} BankMarks(pack: Pack, snap: Snapshot, ds: seq<SubsystemDispatch>, who: string)
    ensures Marked(HandleAll(pack, snap, ds), who)
       <==> Marked(snap, who) || exists k | 0 <= k < |ds| :: LeavesReceipt(pack, snap, ds[k], who)
  {
    hide Marked, Handle, Service;
    if ds != [] {
      var n := |ds| - 1;
      var before := HandleAll(pack, snap, ds[..n]);
      BankMarks(pack, snap, ds[..n], who);
      HandleMarks(pack, before, ds[n], who);
      SurfacesStay(pack, snap, ds[..n]);
      ServiceStays(pack, before, snap, ds[n]);
      assert forall k | 0 <= k < n :: ds[..n][k] == ds[k];
    }
  }

  /** The watcher's verdict on a working after the turn: engaged if and only if its actor was already on record,
      or some working of that actor was answered, at the surfaces the turn began with, by an engine that
      writes receipts. */
  lemma WatcherReadsReceipts(fold: string -> string, pack: Pack, snap: Snapshot, ran: seq<SubsystemDispatch>,
                             later: Snapshot, d: SubsystemDispatch, player: Option<string>)
    requires d.subsystem == "magic_working" && SameMagic(later, HandleAll(pack, snap, ran))
    ensures var actor := StrParam(d, "actor");
            Witness(fold, d, later, player).None? <==>
              && actor.Some?
              && (|| Marked(snap, actor.value)
                  || exists k | 0 <= k < |ran| :: LeavesReceipt(pack, snap, ran[k], actor.value))
  {
    var actor := StrParam(d, "actor");
    if actor.Some? {
      hide HandleAll, LeavesReceipt;
      BankMarks(pack, snap, ran, actor.value);
    }
  }

  /** A working that an engine answered this turn is seen as engaged if and only if that engine is not psionics:
      an activation commits effort and leaves nothing the watcher reads. */
  lemma AnsweredIsSeenIff(fold: string -> string, pack: Pack, snap: Snapshot, ran: seq<SubsystemDispatch>,
                          later: Snapshot, d: SubsystemDispatch, player: Option<string>)
    requires d in ran && d.subsystem == "magic_working" && SameMagic(later, HandleAll(pack, snap, ran))
    requires Service(pack, snap, d) != NoEngine && !Marked(snap, StrParam(d, "actor").value)
    ensures Witness(fold, d, later, player).None? <==> Route(pack, snap) != Psionics
  {
    WatcherReadsReceipts(fold, pack, snap, ran, later, d, player);
    ServiceNamesActor(pack, snap, d);
    hide Service, Route, Witness, HandleAll, Marked;
    var k :| 0 <= k < |ran| && ran[k] == d;
    assert Route(pack, snap) != Psionics ==> LeavesReceipt(pack, snap, ran[k], StrParam(d, "actor").value);
    forall j | 0 <= j < |ran|
      ensures Route(pack, snap) == Psionics ==> !LeavesReceipt(pack, snap, ran[j], StrParam(d, "actor").value)
    {
      ServiceNamesActor(pack, snap, ran[j]);
    }
  }

  // ---- receipts come only from surfaces --------------------------------

  /** No receipt is from the future, and one from this turn has its surface on the snapshot. */
  ghost predicate Backed(snap: Snapshot) {
    && (forall s | s in snap.castLog :: s.turn <= snap.turn && (s.turn == snap.turn ==> HasCaster(snap)))
    && (forall s | s in snap.mutationLog :: s.turn <= snap.turn && (s.turn == snap.turn ==> HasMutant(snap)))
  }

  /** Every bank run keeps the receipts backed. */
  lemma {:induction false} BankKeepsBacked(pack: Pack, snap: Snapshot, ds: seq<SubsystemDispatch>)
    requires Backed(snap)
    ensures Backed(HandleAll(pack, snap, ds))
  {
    if ds != [] {
      BankKeepsBacked(pack, snap, ds[..|ds| - 1]);
      ServiceNamesActor(pack, HandleAll(pack, snap, ds[..|ds| - 1]), ds[|ds| - 1]);
      hide Service;
    }
  }

  /** So does the next turn, whatever became of the surfaces meanwhile. */
  lemma NextTurnIsBacked(snap: Snapshot, next: Snapshot)
    requires Backed(snap) && next.turn > snap.turn
    requires next.castLog == snap.castLog && next.mutationLog == snap.mutationLog
    ensures Backed(next)
  {}

  // ---- the gate against the handler ------------------------------------

  ghost predicate RunFrom(ran: seq<SubsystemDispatch>, os: seq<Owned>) {
    forall d | d in ran :: exists o | o in os :: o.dispatch == d
  }

  lemma {:induction false} KeptIsKept(f: Filter, os: seq<Owned>)
    ensures forall o | o in KeptOwned(f, os) :: Keeps(f, o.dispatch)
  {
    hide Keeps;
    if os != [] {
      KeptIsKept(f, os[..|os| - 1]);
    }
  }

  lemma {:induction false} NoWorkingsNoChange(pack: Pack, snap: Snapshot, ds: seq<SubsystemDispatch>)
    requires forall d | d in ds :: d.subsystem != "magic_working"
    ensures HandleAll(pack, snap, ds) == snap
  {
    hide Service;
    if ds != [] {
      NoWorkingsNoChange(pack, snap, ds[..|ds| - 1]);
    }
  }

  /** Shutting out one working shuts out all of them, so the turn writes no receipt. */
  lemma DroppedLeavesNoReceipt(pack: Pack, p: Package, snap: Snapshot, ran: seq<SubsystemDispatch>)
    requires Inert("magic_working", snap) && RunFrom(ran, AllOwned(FilterPackage(InertGate(snap), p)))
    ensures HandleAll(pack, snap, ran) == snap
  {
    hide AllOwned, FilterPackage, KeptOwned, HandleAll, HasCaster, HasMutant;
    AllOwnedFiltered(InertGate(snap), p);
    KeptIsKept(InertGate(snap), AllOwned(p));
    forall d | d in ran
      ensures d.subsystem != "magic_working"
    {
      var o :| o in KeptOwned(InertGate(snap), AllOwned(p)) && o.dispatch == d;
    }
    NoWorkingsNoChange(pack, snap, ran);
  }

  /** Whatever clue, witnessed act or working the gate drops from a package, the watcher would have reported it
      had it stayed: on the snapshot after the bank has run what the gate kept, and, for clues and acts, while
      the missing layer is still missing. */
  lemma DroppedWasCertain(fold: string -> string, pack: Pack, p: Package, snap: Snapshot,
                          ran: seq<SubsystemDispatch>, later: Snapshot, o: Owned)
    requires UniqueKeys(AllOwned(p)) && Backed(snap) && o in DroppedOwned(InertGate(snap), AllOwned(p))
    requires o.dispatch.subsystem in {"scenario_clue", "witnessed_act", "magic_working"}
    requires RunFrom(ran, AllOwned(FilterPackage(InertGate(snap), p))) && SameMagic(later, HandleAll(pack, snap, ran))
    requires snap.clues.None? ==> later.clues.None?
    requires snap.politics.None? ==> later.politics.None?
    ensures Reported(fold, AllOwned(p), later, o.dispatch.key)
  {
    hide AllOwned, DroppedOwned, UniqueKeys, Reported, FilterPackage, RunFrom, HandleAll, HasCaster, HasMutant;
    DroppedIsOriginal(InertGate(snap), AllOwned(p), o);
    ReportedIff(fold, AllOwned(p), later, o);
    if o.dispatch.subsystem == "magic_working" {
      DroppedLeavesNoReceipt(pack, p, snap, ran);
    }
  }

  /** A dropped working would have been answered if and only if the handler's psionic surface is there, which
      the gate does not look at, and the working names a psychic and a known discipline. */
  lemma DroppedWouldRunIff(pack: Pack, snap: Snapshot, d: SubsystemDispatch)
    requires !Keeps(InertGate(snap), d) && d.subsystem == "magic_working"
    ensures Route(pack, snap) != NoEngine <==> PsionicSurface(pack, snap)
    ensures Service(pack, snap, d) != NoEngine
       <==> PsionicSurface(pack, snap) && Names(pack, d, pack.disciplines) && ActorIs(d, snap, (c: Core) => c.effort)
  {}

  /** Some creature that can be named has effort, and some discipline can be named. */
  ghost predicate PsychicCanAct(pack: Pack, snap: Snapshot) {
    && PsionicSurface(pack, snap)
    && (exists who | who in snap.creatures :: who != "" && snap.creatures[who].effort)
    && (exists ref: string :: 0 < |ref| <= MAX_REF_CHARS && pack.norm(ref) in pack.disciplines.value)
  }

  /** "Structurally inert" means that no dispatch whatever could have engaged. Where the gate says it of magic, it
      is so if and only if no psychic can act. */
  lemma InertMagicIff(pack: Pack, snap: Snapshot)
    requires Inert("magic_working", snap)
    ensures (forall d: SubsystemDispatch | d.subsystem == "magic_working" :: Service(pack, snap, d) == NoEngine)
       <==> !PsychicCanAct(pack, snap)
  {
    hide Service, PsychicCanAct, Inert;
    forall d: SubsystemDispatch | d.subsystem == "magic_working"
      ensures Service(pack, snap, d) != NoEngine ==> PsychicCanAct(pack, snap)
    {
      AnsweredByPsychic(pack, snap, d);
    }
    if PsychicCanAct(pack, snap) {
      var d := PsychicAnswers(pack, snap);
    }
  }

  lemma AnsweredByPsychic(pack: Pack, snap: Snapshot, d: SubsystemDispatch)
    requires Inert("magic_working", snap) && d.subsystem == "magic_working"
    ensures Service(pack, snap, d) != NoEngine ==> PsychicCanAct(pack, snap)
  {
    DroppedWouldRunIff(pack, snap, d);
    hide Service, Route, PsionicSurface, Inert;
  }

  lemma PsychicAnswers(pack: Pack, snap: Snapshot) returns (d: SubsystemDispatch)
    requires Inert("magic_working", snap) && PsychicCanAct(pack, snap)
    ensures d.subsystem == "magic_working" && Service(pack, snap, d) != NoEngine
  {
    var who :| who in snap.creatures && who != "" && snap.creatures[who].effort;
    var ref: string :| 0 < |ref| <= MAX_REF_CHARS && pack.norm(ref) in pack.disciplines.value;
    d := SubsystemDispatch("magic_working", map["actor" := Str(who), "spell" := Str(ref)], "k", false);
    DroppedWouldRunIff(pack, snap, d);
    hide Service, Route, PsionicSurface, HasCaster, HasMutant;
  }

  // A psychic in a world without spells, pacts or mutations.

  const PSYCHIC := Core(false, true)

  const VEX := SubsystemDispatch("magic_working", map["actor" := Str("Vex"), "spell" := Str("telepathy")], "k", false)

  const PSIONIC_PACK := Pack(Swn, None, Some({"telepathy"}), None, s => s, d => false)

  const PSIONIC_WORLD := Snapshot(7, None, None, None, None, [PSYCHIC], map["Vex" := PSYCHIC], None, [], [], [], [],
                                  map["p1" := "Vex"], [], {}, None, None)

  /** The gate drops a discipline that the psionic engine would have activated; let through, it is activated and
      the watcher reports it all the same. */
  lemma PsychicIsGated(fold: string -> string)
    ensures !Keeps(InertGate(PSIONIC_WORLD), VEX)
    ensures Service(PSIONIC_PACK, PSIONIC_WORLD, VEX) == Psionics
    ensures Witness(fold, VEX, HandleAll(PSIONIC_PACK, PSIONIC_WORLD, [VEX]), Some("p1")).Some?
  {
    assert PSIONIC_WORLD.characters[0].effort;
  }
}
