/** Dispatch packages and the three filters that run over them: the inert-precondition gate, the
    unregistered-subsystem gate (sidequest/agents/dispatch_precondition_gate.py) and the narrator
    redactor (sidequest/agents/prompt_redaction.py). Packages and snapshots keep the fields that the
    filters and the engagement watcher read. */
module Dispatch {
  import opened Options

  /** A parameter value: a string, or anything else with its str() form and truth value. */
  datatype Value = Str(text: string) | NonStr(text: string, truthy: bool)

  datatype SubsystemDispatch =
    SubsystemDispatch(subsystem: string, params: map<string, Value>, key: string, redact: bool)

  datatype Directive = Directive(kind: string, payload: string, redact: bool)

  datatype PlayerDispatch =
    PlayerDispatch(player: string, dispatch: seq<SubsystemDispatch>, directives: seq<Directive>)

  datatype CrossAction = CrossAction(participants: seq<string>, dispatch: seq<SubsystemDispatch>)

  datatype Package = Package(perPlayer: seq<PlayerDispatch>, cross: seq<CrossAction>)

  datatype Encounter = Encounter(kind: string, resolved: bool)

  datatype Stamp = Stamp(turn: int, who: string)

  /** A creature's magical equipment: known spells, and a seeded pool of psionic effort. */
  datatype Core = Core(spellcasting: bool, effort: bool)

  datatype Snapshot = Snapshot(
    turn: int,
    encounter: Option<Encounter>,
    clues: Option<set<string>>,          // discovered clues, when the world has a scenario
    politics: Option<seq<Stamp>>,        // belief ledger (turn, act), when the world has a political layer
    magic: Option<seq<string>>,          // actors in the working log, when the world has pact magic
    characters: seq<Core>,               // the party
    creatures: map<string, Core>,        // whom an actor's name resolves to, in the party or not
    mutants: Option<set<string>>,        // seeded characters, when mutation state is present
    castLog: seq<Stamp>,
    mutationLog: seq<Stamp>,
    npcNames: seq<string>,
    poolNames: seq<string>,
    seats: map<string, string>,
    transitions: seq<Stamp>,
    quests: set<string>,
    plottedTo: Option<string>,
    partyBody: Option<string>)

  // ---- which dispatches a filter keeps ---------------------------------

  predicate HasCaster(snap: Snapshot) { exists c | c in snap.characters :: c.spellcasting }

  predicate HasMutant(snap: Snapshot) { snap.mutants.Some? && snap.mutants.value != {} }

  /** The subsystem cannot engage on this snapshot whatever the narrator does. */
  predicate Inert(subsystem: string, snap: Snapshot) {
    match subsystem
    case "scenario_clue" => snap.clues.None?
    case "witnessed_act" => snap.politics.None?
    case "magic_working" => snap.magic.None? && !HasCaster(snap) && !HasMutant(snap)
    case "fate_action" => snap.encounter.None? || snap.encounter.value.resolved
    case _ => false
  }

  datatype Filter = InertGate(snapshot: Snapshot) | RegistryGate(registered: set<string>) | Redactor

  predicate Keeps(f: Filter, d: SubsystemDispatch) {
    match f
    case InertGate(snap) => !Inert(d.subsystem, snap)
    case RegistryGate(registered) => d.subsystem in registered
    case Redactor => !d.redact
  }

  predicate KeepsDirective(f: Filter, n: Directive) { f.Redactor? ==> !n.redact }

  function Kept(f: Filter, ds: seq<SubsystemDispatch>): seq<SubsystemDispatch> {
    if ds == [] then []
    else
      var rest, d := Kept(f, ds[..|ds| - 1]), ds[|ds| - 1];
      if Keeps(f, d) then rest + [d] else rest
  }

  function Dropped(f: Filter, ds: seq<SubsystemDispatch>): seq<SubsystemDispatch> {
    if ds == [] then []
    else
      var rest, d := Dropped(f, ds[..|ds| - 1]), ds[|ds| - 1];
      if Keeps(f, d) then rest else rest + [d]
  }

  function KeptDirectives(f: Filter, ns: seq<Directive>): seq<Directive> {
    if ns == [] then []
    else
      var rest, n := KeptDirectives(f, ns[..|ns| - 1]), ns[|ns| - 1];
      if KeepsDirective(f, n) then rest + [n] else rest
  }

  function DroppedDirectives(f: Filter, ns: seq<Directive>): seq<Directive> {
    if ns == [] then []
    else
      var rest, n := DroppedDirectives(f, ns[..|ns| - 1]), ns[|ns| - 1];
      if KeepsDirective(f, n) then rest else rest + [n]
  }

  function FilterPlayer(f: Filter, pd: PlayerDispatch): PlayerDispatch {
    pd.(dispatch := Kept(f, pd.dispatch), directives := KeptDirectives(f, pd.directives))
  }

  function FilterCross(f: Filter, ca: CrossAction): CrossAction { ca.(dispatch := Kept(f, ca.dispatch)) }

  function FilterPlayers(f: Filter, ps: seq<PlayerDispatch>): seq<PlayerDispatch> {
    if ps == [] then [] else FilterPlayers(f, ps[..|ps| - 1]) + [FilterPlayer(f, ps[|ps| - 1])]
  }

  function FilterCrosses(f: Filter, cs: seq<CrossAction>): seq<CrossAction> {
    if cs == [] then [] else FilterCrosses(f, cs[..|cs| - 1]) + [FilterCross(f, cs[|cs| - 1])]
  }

  function FilterPackage(f: Filter, p: Package): Package {
    Package(FilterPlayers(f, p.perPlayer), FilterCrosses(f, p.cross))
  }

  // ---- every dispatch of a package, with its owner ---------------------

  datatype Owned = Owned(player: Option<string>, dispatch: SubsystemDispatch)

  function Own(player: Option<string>, ds: seq<SubsystemDispatch>): seq<Owned> {
    seq(|ds|, i requires 0 <= i < |ds| => Owned(player, ds[i]))
  }

  function OwnedByPlayers(ps: seq<PlayerDispatch>): seq<Owned> {
    if ps == [] then []
    else OwnedByPlayers(ps[..|ps| - 1]) + Own(Some(ps[|ps| - 1].player), ps[|ps| - 1].dispatch)
  }

  function OwnedByNone(cs: seq<CrossAction>): seq<Owned> {
    if cs == [] then [] else OwnedByNone(cs[..|cs| - 1]) + Own(None, cs[|cs| - 1].dispatch)
  }

  function AllOwned(p: Package): seq<Owned> { OwnedByPlayers(p.perPlayer) + OwnedByNone(p.cross) }

  function KeptOwned(f: Filter, os: seq<Owned>): seq<Owned> {
    if os == [] then []
    else
      var rest, o := KeptOwned(f, os[..|os| - 1]), os[|os| - 1];
      if Keeps(f, o.dispatch) then rest + [o] else rest
  }

  function DroppedOwned(f: Filter, os: seq<Owned>): seq<Owned> {
    if os == [] then []
    else
      var rest, o := DroppedOwned(f, os[..|os| - 1]), os[|os| - 1];
      if Keeps(f, o.dispatch) then rest else rest + [o]
  }

  /** A directive with the player it is about. */
  datatype Noted = Noted(player: string, directive: Directive)

  function Note(player: string, ns: seq<Directive>): seq<Noted> {
    seq(|ns|, i requires 0 <= i < |ns| => Noted(player, ns[i]))
  }

  function NotedIn(ps: seq<PlayerDispatch>): seq<Noted> {
    if ps == [] then [] else NotedIn(ps[..|ps| - 1]) + Note(ps[|ps| - 1].player, ps[|ps| - 1].directives)
  }

  function AllNoted(p: Package): seq<Noted> { NotedIn(p.perPlayer) }

  /** The same players and the same cross-player actions, whatever they now hold. */
  ghost predicate SameFrame(p: Package, q: Package) {
    && |p.perPlayer| == |q.perPlayer| && (forall i | 0 <= i < |p.perPlayer| :: p.perPlayer[i].player == q.perPlayer[i].player)
    && |p.cross| == |q.cross| && forall i | 0 <= i < |p.cross| :: p.cross[i].participants == q.cross[i].participants
  }

  ghost predicate Holds(p: Package, d: SubsystemDispatch) { exists player :: Owned(player, d) in AllOwned(p) }

  /** What a gate shuts out: a subsystem nobody registered; or a clue without a scenario, a witnessed act without
      politics, a working without pact magic, caster or mutant, a fate action without a live encounter. */
  ghost predicate ShutOut(f: Filter, d: SubsystemDispatch) {
    match f
    case RegistryGate(registered) => d.subsystem !in registered
    case InertGate(snap) =>
      || (d.subsystem == "scenario_clue" && snap.clues == None)
      || (d.subsystem == "witnessed_act" && snap.politics == None)
      || (d.subsystem == "magic_working" && snap.magic == None && (forall c | c in snap.characters :: !c.spellcasting)
          && (snap.mutants == None || snap.mutants == Some({})))
      || (d.subsystem == "fate_action" && (snap.encounter == None || snap.encounter.value.resolved))
    case Redactor => d.redact
  }

  // ---- the programs ----------------------------------------------------

  /** What the redactor hands back for secret notes. */
  datatype Removed = RemovedDispatch(d: SubsystemDispatch) | RemovedDirective(n: Directive)

  method Sift(f: Filter, ds: seq<SubsystemDispatch>) returns (kept: seq<SubsystemDispatch>, dropped: seq<SubsystemDispatch>)
    ensures kept == Kept(f, ds) && dropped == Dropped(f, ds)
  {
    hide Keeps;
    kept, dropped := [], [];
    for i := 0 to |ds|
      invariant kept == Kept(f, ds[..i]) && dropped == Dropped(f, ds[..i])
    {
      assert ds[..i + 1][..i] == ds[..i];
      if Keeps(f, ds[i]) {
        kept := kept + [ds[i]];
      } else {
        dropped := dropped + [ds[i]];
      }
    }
    assert ds[..|ds|] == ds;
  }

  method GatePlayers(f: Filter, ps: seq<PlayerDispatch>)
    returns (players: seq<PlayerDispatch>, gated: seq<SubsystemDispatch>)
    requires !f.Redactor?
    ensures players == FilterPlayers(f, ps) && gated == DispatchesOf(DroppedOwned(f, OwnedByPlayers(ps)))
  {
    hide Keeps, DispatchesOf, Own, DroppedOwned, Kept, Dropped, KeptDirectives;
    players, gated := [], [];
    DispatchesOfNone(f);
    for i := 0 to |ps|
      invariant players == FilterPlayers(f, ps[..i])
      invariant gated == DispatchesOf(DroppedOwned(f, OwnedByPlayers(ps[..i])))
    {
      var kept, dropped := Sift(f, ps[i].dispatch);
      AllDirectivesKept(f, ps[i].directives);
      DroppedBlock(f, OwnedByPlayers(ps[..i]), Some(ps[i].player), ps[i].dispatch);
      assert ps[..i + 1][..i] == ps[..i];
      players := players + [ps[i].(dispatch := kept)];
      gated := gated + dropped;
    }
    assert ps[..|ps|] == ps;
  }

  method GateCross(f: Filter, cs: seq<CrossAction>) returns (cross: seq<CrossAction>, gated: seq<SubsystemDispatch>)
    ensures cross == FilterCrosses(f, cs) && gated == DispatchesOf(DroppedOwned(f, OwnedByNone(cs)))
  {
    hide Keeps, DispatchesOf, Own, DroppedOwned, Kept, Dropped;
    cross, gated := [], [];
    DispatchesOfNone(f);
    for i := 0 to |cs|
      invariant cross == FilterCrosses(f, cs[..i])
      invariant gated == DispatchesOf(DroppedOwned(f, OwnedByNone(cs[..i])))
    {
      var kept, dropped := Sift(f, cs[i].dispatch);
      DroppedBlock(f, OwnedByNone(cs[..i]), None, cs[i].dispatch);
      assert cs[..i + 1][..i] == cs[..i];
      cross := cross + [cs[i].(dispatch := kept)];
      gated := gated + dropped;
    }
    assert cs[..|cs|] == cs;
  }

  /** Either gate: filter the players' lists, then the cross-player ones, noting each drop in passing; a gate
      that drops nothing returns the package it was given. */
  method RunGate(f: Filter, p: Package) returns (filtered: Package, gated: seq<SubsystemDispatch>)
    requires !f.Redactor?
    ensures filtered == FilterPackage(f, p)
    ensures gated == DispatchesOf(DroppedOwned(f, AllOwned(p)))
    ensures gated == [] ==> filtered == p
    ensures SameFrame(p, filtered)
    ensures forall o :: o in AllOwned(filtered) <==> o in AllOwned(p) && !ShutOut(f, o.dispatch)
    ensures forall d :: d in gated <==> ShutOut(f, d) && Holds(p, d)
    ensures forall n :: n in AllNoted(filtered) <==> n in AllNoted(p)
  {
    hide ShutOut, Holds, AllNoted, SameFrame, FilterPackage, DispatchesOf, DroppedOwned, AllOwned;
    filtered, gated := GatePackage(f, p);
    GateMeans(f, p);
  }

  method GatePackage(f: Filter, p: Package) returns (filtered: Package, gated: seq<SubsystemDispatch>)
    requires !f.Redactor?
    ensures filtered == FilterPackage(f, p)
    ensures gated == DispatchesOf(DroppedOwned(f, AllOwned(p)))
    ensures gated == [] ==> filtered == p
  {
    hide FilterPlayers, FilterCrosses, OwnedByPlayers, OwnedByNone, DroppedOwned;
    var players, droppedFirst := GatePlayers(f, p.perPlayer);
    var cross, droppedLast := GateCross(f, p.cross);
    gated := droppedFirst + droppedLast;
    KeptOwnedAppend(f, OwnedByPlayers(p.perPlayer), OwnedByNone(p.cross));
    assert gated == DispatchesOf(DroppedOwned(f, AllOwned(p)));
    if gated == [] {
      NothingDropped(f, p);
      return p, gated;
    }
    filtered := Package(players, cross);
  }

  method RedactPlayers(ps: seq<PlayerDispatch>) returns (players: seq<PlayerDispatch>, removed: seq<Removed>)
    ensures players == FilterPlayers(Redactor, ps) && removed == RemovedByPlayers(ps)
  {
    hide Kept, Dropped, KeptDirectives, DroppedDirectives, AsDispatches, AsDirectives;
    players, removed := [], [];
    for i := 0 to |ps|
      invariant players == FilterPlayers(Redactor, ps[..i]) && removed == RemovedByPlayers(ps[..i])
    {
      var kept, dropped := Sift(Redactor, ps[i].dispatch);
      var keptN, droppedN := SiftDirectives(ps[i].directives);
      assert ps[..i + 1][..i] == ps[..i];
      removed := removed + (AsDispatches(dropped) + AsDirectives(droppedN));
      players := players + [ps[i].(dispatch := kept, directives := keptN)];
    }
    assert ps[..|ps|] == ps;
  }

  /** The redactor: removed entries are returned player by player, then from the cross-player actions. */
  method Redact(p: Package) returns (redacted: Package, removed: seq<Removed>)
    ensures redacted == FilterPackage(Redactor, p)
    ensures removed == RemovedByPlayers(p.perPlayer) + RemovedByCross(p.cross)
    ensures SameFrame(p, redacted)
    ensures forall o :: o in AllOwned(redacted) <==> o in AllOwned(p) && !o.dispatch.redact
    ensures forall n :: n in AllNoted(redacted) <==> n in AllNoted(p) && !n.directive.redact
    ensures forall d :: RemovedDispatch(d) in removed <==> d.redact && Holds(p, d)
    ensures forall n :: RemovedDirective(n) in removed <==> n.redact && exists player :: Noted(player, n) in AllNoted(p)
  {
    RedactionMeans(p);
    hide Holds, AllNoted, SameFrame, AllOwned;
    hide Kept, Dropped, AsDispatches, FilterPlayers, RemovedByPlayers;
    var players, fromPlayers := RedactPlayers(p.perPlayer);
    var cs := p.cross;
    var cross: seq<CrossAction>, fromCross: seq<Removed> := [], [];
    for i := 0 to |cs|
      invariant cross == FilterCrosses(Redactor, cs[..i]) && fromCross == RemovedByCross(cs[..i])
    {
      var kept, dropped := Sift(Redactor, cs[i].dispatch);
      assert cs[..i + 1][..i] == cs[..i];
      fromCross := fromCross + AsDispatches(dropped);
      cross := cross + [cs[i].(dispatch := kept)];
    }
    assert cs[..|cs|] == cs;
    return Package(players, cross), fromPlayers + fromCross;
  }

  method SiftDirectives(ns: seq<Directive>) returns (kept: seq<Directive>, dropped: seq<Directive>)
    ensures kept == KeptDirectives(Redactor, ns) && dropped == DroppedDirectives(Redactor, ns)
  {
    kept, dropped := [], [];
    for i := 0 to |ns|
      invariant kept == KeptDirectives(Redactor, ns[..i]) && dropped == DroppedDirectives(Redactor, ns[..i])
    {
      assert ns[..i + 1][..i] == ns[..i];
      if ns[i].redact {
        dropped := dropped + [ns[i]];
      } else {
        kept := kept + [ns[i]];
      }
    }
    assert ns[..|ns|] == ns;
  }

  function AsDispatches(ds: seq<SubsystemDispatch>): seq<Removed> {
    seq(|ds|, i requires 0 <= i < |ds| => RemovedDispatch(ds[i]))
  }

  function AsDirectives(ns: seq<Directive>): seq<Removed> {
    seq(|ns|, i requires 0 <= i < |ns| => RemovedDirective(ns[i]))
  }

  /** Player by player, dispatches before directives. */
  function RemovedByPlayers(ps: seq<PlayerDispatch>): seq<Removed> {
    if ps == [] then []
    else
      var pd := ps[|ps| - 1];
      RemovedByPlayers(ps[..|ps| - 1])
      + (AsDispatches(Dropped(Redactor, pd.dispatch)) + AsDirectives(DroppedDirectives(Redactor, pd.directives)))
  }

  function RemovedByCross(cs: seq<CrossAction>): seq<Removed> {
    if cs == [] then [] else RemovedByCross(cs[..|cs| - 1]) + AsDispatches(Dropped(Redactor, cs[|cs| - 1].dispatch))
  }

  function DispatchesOf(os: seq<Owned>): seq<SubsystemDispatch> {
    seq(|os|, i requires 0 <= i < |os| => os[i].dispatch)
  }

  // ---- lists of owned dispatches ---------------------------------------

  lemma DispatchesOfNone(f: Filter)
    ensures DispatchesOf(DroppedOwned(f, [])) == []
  {}

  lemma {:induction false} KeptOwnedAppend(f: Filter, xs: seq<Owned>, ys: seq<Owned>)
    ensures KeptOwned(f, xs + ys) == KeptOwned(f, xs) + KeptOwned(f, ys)
    ensures DroppedOwned(f, xs + ys) == DroppedOwned(f, xs) + DroppedOwned(f, ys)
    decreases |ys|
  {
    hide Keeps;
    if ys == [] {
      assert xs + ys == xs;
    } else {
      assert (xs + ys)[..|xs + ys| - 1] == xs + ys[..|ys| - 1];
      KeptOwnedAppend(f, xs, ys[..|ys| - 1]);
    }
  }

  lemma {:induction false} OwnKept(f: Filter, player: Option<string>, ds: seq<SubsystemDispatch>)
    ensures KeptOwned(f, Own(player, ds)) == Own(player, Kept(f, ds))
    ensures DroppedOwned(f, Own(player, ds)) == Own(player, Dropped(f, ds))
  {
    hide Keeps;
    if ds != [] {
      assert Own(player, ds)[..|ds| - 1] == Own(player, ds[..|ds| - 1]);
      OwnKept(f, player, ds[..|ds| - 1]);
    }
  }

  /** One more block of dispatches under one owner. */
  lemma DroppedBlock(f: Filter, xs: seq<Owned>, player: Option<string>, ds: seq<SubsystemDispatch>)
    ensures DispatchesOf(DroppedOwned(f, xs + Own(player, ds))) == DispatchesOf(DroppedOwned(f, xs)) + Dropped(f, ds)
  {
    hide Keeps;
    KeptOwnedAppend(f, xs, Own(player, ds));
    OwnKept(f, player, ds);
  }

  lemma {:induction false} AllDirectivesKept(f: Filter, ns: seq<Directive>)
    requires !f.Redactor?
    ensures KeptDirectives(f, ns) == ns
  {
    if ns != [] {
      AllDirectivesKept(f, ns[..|ns| - 1]);
    }
  }

  lemma {:induction false} OwnedByPlayersFiltered(f: Filter, ps: seq<PlayerDispatch>)
    ensures OwnedByPlayers(FilterPlayers(f, ps)) == KeptOwned(f, OwnedByPlayers(ps))
  {
    hide Keeps;
    if ps != [] {
      var n := |ps| - 1;
      OwnedByPlayersFiltered(f, ps[..n]);
      KeptOwnedAppend(f, OwnedByPlayers(ps[..n]), Own(Some(ps[n].player), ps[n].dispatch));
      OwnKept(f, Some(ps[n].player), ps[n].dispatch);
    }
  }

  lemma {:induction false} OwnedByNoneFiltered(f: Filter, cs: seq<CrossAction>)
    ensures OwnedByNone(FilterCrosses(f, cs)) == KeptOwned(f, OwnedByNone(cs))
  {
    hide Keeps;
    if cs != [] {
      var n := |cs| - 1;
      OwnedByNoneFiltered(f, cs[..n]);
      KeptOwnedAppend(f, OwnedByNone(cs[..n]), Own(None, cs[n].dispatch));
      OwnKept(f, None, cs[n].dispatch);
    }
  }

  /** Filtering the package is filtering the flat list of its owned dispatches: owners and order survive. */
  lemma AllOwnedFiltered(f: Filter, p: Package)
    ensures AllOwned(FilterPackage(f, p)) == KeptOwned(f, AllOwned(p))
  {
    OwnedByPlayersFiltered(f, p.perPlayer);
    OwnedByNoneFiltered(f, p.cross);
    KeptOwnedAppend(f, OwnedByPlayers(p.perPlayer), OwnedByNone(p.cross));
  }

  lemma {:induction false} DroppedNothing(f: Filter, ds: seq<SubsystemDispatch>)
    ensures Dropped(f, ds) == [] ==> Kept(f, ds) == ds
  {
    hide Keeps;
    if ds != [] {
      DroppedNothing(f, ds[..|ds| - 1]);
    }
  }

  lemma {:induction false} PlayersUntouched(f: Filter, ps: seq<PlayerDispatch>)
    requires !f.Redactor? && DroppedOwned(f, OwnedByPlayers(ps)) == []
    ensures FilterPlayers(f, ps) == ps
  {
    hide Keeps;
    if ps != [] {
      var n := |ps| - 1;
      KeptOwnedAppend(f, OwnedByPlayers(ps[..n]), Own(Some(ps[n].player), ps[n].dispatch));
      OwnKept(f, Some(ps[n].player), ps[n].dispatch);
      assert |Own(Some(ps[n].player), Dropped(f, ps[n].dispatch))| == |Dropped(f, ps[n].dispatch)|;
      DroppedNothing(f, ps[n].dispatch);
      AllDirectivesKept(f, ps[n].directives);
      PlayersUntouched(f, ps[..n]);
    }
  }

  lemma {:induction false} CrossUntouched(f: Filter, cs: seq<CrossAction>)
    requires DroppedOwned(f, OwnedByNone(cs)) == []
    ensures FilterCrosses(f, cs) == cs
  {
    hide Keeps;
    if cs != [] {
      var n := |cs| - 1;
      KeptOwnedAppend(f, OwnedByNone(cs[..n]), Own(None, cs[n].dispatch));
      OwnKept(f, None, cs[n].dispatch);
      assert |Own(None, Dropped(f, cs[n].dispatch))| == |Dropped(f, cs[n].dispatch)|;
      DroppedNothing(f, cs[n].dispatch);
      CrossUntouched(f, cs[..n]);
    }
  }

  /** A gate that drops nothing changes nothing. */
  lemma NothingDropped(f: Filter, p: Package)
    requires !f.Redactor? && DispatchesOf(DroppedOwned(f, AllOwned(p))) == []
    ensures FilterPackage(f, p) == p
  {
    hide OwnedByPlayers, OwnedByNone, DroppedOwned, FilterPlayers, FilterCrosses;
    assert |DispatchesOf(DroppedOwned(f, AllOwned(p)))| == |DroppedOwned(f, AllOwned(p))|;
    KeptOwnedAppend(f, OwnedByPlayers(p.perPlayer), OwnedByNone(p.cross));
    PlayersUntouched(f, p.perPlayer);
    CrossUntouched(f, p.cross);
  }

  // ---- conservation, idempotence, commutation --------------------------

  /** Put two lists back together, taking from the first where the flag is set. */
  function Weave<T>(flags: seq<bool>, xs: seq<T>, ys: seq<T>): seq<T> {
    if flags == [] then []
    else
      var n := |flags| - 1;
      if flags[n] && xs != [] then Weave(flags[..n], xs[..|xs| - 1], ys) + [xs[|xs| - 1]]
      else if !flags[n] && ys != [] then Weave(flags[..n], xs, ys[..|ys| - 1]) + [ys[|ys| - 1]]
      else []
  }

  function Flags(f: Filter, os: seq<Owned>): seq<bool> {
    seq(|os|, i requires 0 <= i < |os| => Keeps(f, os[i].dispatch))
  }

  function DirectiveFlags(f: Filter, ns: seq<Directive>): seq<bool> {
    seq(|ns|, i requires 0 <= i < |ns| => KeepsDirective(f, ns[i]))
  }

  lemma WeaveSnoc<T>(flags: seq<bool>, keep: bool, xs: seq<T>, ys: seq<T>, o: T)
    ensures Weave(flags + [keep], if keep then xs + [o] else xs, if keep then ys else ys + [o])
         == Weave(flags, xs, ys) + [o]
  {
    assert (flags + [keep])[..|flags|] == flags;
    assert (xs + [o])[..|xs|] == xs && (ys + [o])[..|ys|] == ys;
  }

  /** Nothing is lost or reordered: kept and dropped dispatches weave back into the original list. */
  lemma FilterConserves(f: Filter, os: seq<Owned>)
    ensures Weave(Flags(f, os), KeptOwned(f, os), DroppedOwned(f, os)) == os
    ensures multiset(KeptOwned(f, os)) + multiset(DroppedOwned(f, os)) == multiset(os)
  {
    hide Flags, KeptOwned, DroppedOwned, Weave;
    FilterWeaves(f, os);
    FilterCounts(f, os);
  }

  lemma {:induction false} FilterWeaves(f: Filter, os: seq<Owned>)
    ensures Weave(Flags(f, os), KeptOwned(f, os), DroppedOwned(f, os)) == os
  {
    hide Keeps, Weave;
    if os == [] {
      WeaveNothing<Owned>();
    } else {
      var n := |os| - 1;
      var init, o := os[..n], os[n];
      FilterWeaves(f, init);
      assert Flags(f, os) == Flags(f, init) + [Keeps(f, o.dispatch)];
      WeaveSnoc(Flags(f, init), Keeps(f, o.dispatch), KeptOwned(f, init), DroppedOwned(f, init), o);
      assert os == init + [o];
    }
  }

  lemma {:induction false} FilterCounts(f: Filter, os: seq<Owned>)
    ensures multiset(KeptOwned(f, os)) + multiset(DroppedOwned(f, os)) == multiset(os)
  {
    hide Keeps;
    if os != [] {
      var n := |os| - 1;
      FilterCounts(f, os[..n]);
      assert os == os[..n] + [os[n]];
    }
  }

  /** The same of a player's narrator directives. */
  lemma DirectivesConserved(f: Filter, ns: seq<Directive>)
    ensures Weave(DirectiveFlags(f, ns), KeptDirectives(f, ns), DroppedDirectives(f, ns)) == ns
    ensures multiset(KeptDirectives(f, ns)) + multiset(DroppedDirectives(f, ns)) == multiset(ns)
  {
    hide DirectiveFlags, KeptDirectives, DroppedDirectives, Weave;
    DirectivesWeave(f, ns);
    DirectivesCount(f, ns);
  }

  lemma {:induction false} DirectivesWeave(f: Filter, ns: seq<Directive>)
    ensures Weave(DirectiveFlags(f, ns), KeptDirectives(f, ns), DroppedDirectives(f, ns)) == ns
  {
    hide KeepsDirective, Weave;
    if ns == [] {
      WeaveNothing<Directive>();
    } else {
      var n := |ns| - 1;
      var init, d := ns[..n], ns[n];
      DirectivesWeave(f, init);
      assert DirectiveFlags(f, ns) == DirectiveFlags(f, init) + [KeepsDirective(f, d)];
      WeaveSnoc(DirectiveFlags(f, init), KeepsDirective(f, d), KeptDirectives(f, init), DroppedDirectives(f, init), d);
      assert ns == init + [d];
    }
  }

  lemma {:induction false} DirectivesCount(f: Filter, ns: seq<Directive>)
    ensures multiset(KeptDirectives(f, ns)) + multiset(DroppedDirectives(f, ns)) == multiset(ns)
  {
    hide KeepsDirective;
    if ns != [] {
      var n := |ns| - 1;
      DirectivesCount(f, ns[..n]);
      assert ns == ns[..n] + [ns[n]];
    }
  }

  lemma WeaveNothing<T>()
    ensures Weave<T>([], [], []) == []
  {}

  lemma {:induction false} KeptTwice(f: Filter, g: Filter, ds: seq<SubsystemDispatch>)
    ensures Kept(f, Kept(g, ds)) == Kept(g, Kept(f, ds))
    ensures Kept(f, Kept(f, ds)) == Kept(f, ds)
  {
    hide Keeps;
    if ds != [] {
      KeptTwice(f, g, ds[..|ds| - 1]);
    }
  }

  lemma {:induction false} DirectivesTwice(f: Filter, g: Filter, ns: seq<Directive>)
    ensures KeptDirectives(f, KeptDirectives(g, ns)) == KeptDirectives(g, KeptDirectives(f, ns))
    ensures KeptDirectives(f, KeptDirectives(f, ns)) == KeptDirectives(f, ns)
  {
    hide KeepsDirective;
    if ns != [] {
      DirectivesTwice(f, g, ns[..|ns| - 1]);
    }
  }

  /** The three filters commute pairwise, and running one twice is running it once. */
  lemma FiltersCommute(f: Filter, g: Filter, p: Package)
    ensures FilterPackage(f, FilterPackage(g, p)) == FilterPackage(g, FilterPackage(f, p))
    ensures FilterPackage(f, FilterPackage(f, p)) == FilterPackage(f, p)
  {
    PlayersTwice(f, g, p.perPlayer);
    CrossTwice(f, g, p.cross);
  }

  lemma {:induction false} PlayersTwice(f: Filter, g: Filter, ps: seq<PlayerDispatch>)
    ensures FilterPlayers(f, FilterPlayers(g, ps)) == FilterPlayers(g, FilterPlayers(f, ps))
    ensures FilterPlayers(f, FilterPlayers(f, ps)) == FilterPlayers(f, ps)
  {
    hide Kept, KeptDirectives;
    if ps != [] {
      var n := |ps| - 1;
      PlayersTwice(f, g, ps[..n]);
      KeptTwice(f, g, ps[n].dispatch);
      DirectivesTwice(f, g, ps[n].directives);
    }
  }

  lemma {:induction false} CrossTwice(f: Filter, g: Filter, cs: seq<CrossAction>)
    ensures FilterCrosses(f, FilterCrosses(g, cs)) == FilterCrosses(g, FilterCrosses(f, cs))
    ensures FilterCrosses(f, FilterCrosses(f, cs)) == FilterCrosses(f, cs)
  {
    hide Kept;
    if cs != [] {
      CrossTwice(f, g, cs[..|cs| - 1]);
      KeptTwice(f, g, cs[|cs| - 1].dispatch);
    }
  }

  /** The package validator's invariant: no idempotency key occurs twice. */
  ghost predicate UniqueKeys(os: seq<Owned>) {
    forall i, j | 0 <= i < j < |os| :: os[i].dispatch.key != os[j].dispatch.key
  }

  lemma {:induction false} KeptKeys(f: Filter, os: seq<Owned>)
    requires UniqueKeys(os)
    ensures UniqueKeys(KeptOwned(f, os))
    ensures forall i | 0 <= i < |KeptOwned(f, os)| :: KeptOwned(f, os)[i] in os
  {
    hide Keeps;
    if os != [] {
      KeptKeys(f, os[..|os| - 1]);
    }
  }

  lemma FilterKeepsKeysUnique(f: Filter, p: Package)
    requires UniqueKeys(AllOwned(p))
    ensures UniqueKeys(AllOwned(FilterPackage(f, p)))
  {
    AllOwnedFiltered(f, p);
    KeptKeys(f, AllOwned(p));
  }

  // ---- what the filters decide, in the fields they read ----------------

  lemma KeepsIff(f: Filter, d: SubsystemDispatch)
    ensures Keeps(f, d) <==> !ShutOut(f, d)
  {}

  lemma {:induction false} KeptOwnedIff(f: Filter, os: seq<Owned>, o: Owned)
    ensures o in KeptOwned(f, os) <==> o in os && !ShutOut(f, o.dispatch)
    ensures o in DroppedOwned(f, os) <==> o in os && ShutOut(f, o.dispatch)
  {
    hide Keeps, ShutOut;
    if os != [] {
      KeptOwnedIff(f, os[..|os| - 1], o);
      KeepsIff(f, os[|os| - 1].dispatch);
    }
  }

  lemma {:induction false} KeptDirectivesIff(f: Filter, ns: seq<Directive>, n: Directive)
    ensures n in KeptDirectives(f, ns) <==> n in ns && !(f == Redactor && n.redact)
    ensures n in DroppedDirectives(f, ns) <==> n in ns && f == Redactor && n.redact
  {
    if ns != [] {
      KeptDirectivesIff(f, ns[..|ns| - 1], n);
    }
  }

  lemma NoteIff(player: string, ns: seq<Directive>, n: Noted)
    ensures n in Note(player, ns) <==> n.player == player && n.directive in ns
  {
    if n.player == player && n.directive in ns {
      var i :| 0 <= i < |ns| && ns[i] == n.directive;
      assert Note(player, ns)[i] == n;
    }
  }

  lemma {:induction false} NotedFiltered(f: Filter, ps: seq<PlayerDispatch>, n: Noted)
    ensures n in NotedIn(FilterPlayers(f, ps)) <==> n in NotedIn(ps) && !(f == Redactor && n.directive.redact)
  {
    hide Kept, KeptDirectives, Note;
    if ps != [] {
      var last := ps[|ps| - 1];
      NotedFiltered(f, ps[..|ps| - 1], n);
      NoteIff(last.player, last.directives, n);
      NoteIff(last.player, KeptDirectives(f, last.directives), n);
      KeptDirectivesIff(f, last.directives, n.directive);
    }
  }

  lemma {:induction false} PlayersFramed(f: Filter, ps: seq<PlayerDispatch>)
    ensures |FilterPlayers(f, ps)| == |ps| && forall i | 0 <= i < |ps| :: FilterPlayers(f, ps)[i].player == ps[i].player
  {
    hide Kept, KeptDirectives;
    if ps != [] {
      PlayersFramed(f, ps[..|ps| - 1]);
    }
  }

  lemma {:induction false} CrossFramed(f: Filter, cs: seq<CrossAction>)
    ensures |FilterCrosses(f, cs)| == |cs|
    ensures forall i | 0 <= i < |cs| :: FilterCrosses(f, cs)[i].participants == cs[i].participants
  {
    hide Kept;
    if cs != [] {
      CrossFramed(f, cs[..|cs| - 1]);
    }
  }

  lemma FilterFramed(f: Filter, p: Package)
    ensures SameFrame(p, FilterPackage(f, p))
  {
    PlayersFramed(f, p.perPlayer);
    CrossFramed(f, p.cross);
  }

  /** What any of the three filters keeps of a package. */
  lemma FilterMeans(f: Filter, p: Package)
    ensures SameFrame(p, FilterPackage(f, p))
    ensures forall o :: o in AllOwned(FilterPackage(f, p)) <==> o in AllOwned(p) && !ShutOut(f, o.dispatch)
    ensures forall n :: n in AllNoted(FilterPackage(f, p)) <==> n in AllNoted(p) && !(f == Redactor && n.directive.redact)
  {
    hide ShutOut, KeptOwned, AllOwned, NotedIn, SameFrame;
    FilterFramed(f, p);
    AllOwnedFiltered(f, p);
    forall o
      ensures o in AllOwned(FilterPackage(f, p)) <==> o in AllOwned(p) && !ShutOut(f, o.dispatch)
    {
      KeptOwnedIff(f, AllOwned(p), o);
    }
    forall n
      ensures n in AllNoted(FilterPackage(f, p)) <==> n in AllNoted(p) && !(f == Redactor && n.directive.redact)
    {
      NotedFiltered(f, p.perPlayer, n);
    }
  }

  lemma GateMeans(f: Filter, p: Package)
    requires !f.Redactor?
    ensures SameFrame(p, FilterPackage(f, p))
    ensures forall o :: o in AllOwned(FilterPackage(f, p)) <==> o in AllOwned(p) && !ShutOut(f, o.dispatch)
    ensures forall n :: n in AllNoted(FilterPackage(f, p)) <==> n in AllNoted(p)
    ensures forall d :: d in DispatchesOf(DroppedOwned(f, AllOwned(p))) <==> ShutOut(f, d) && Holds(p, d)
  {
    hide ShutOut, DroppedOwned, AllOwned, SameFrame, FilterPackage, DispatchesOf, AllNoted;
    FilterMeans(f, p);
    forall d
      ensures d in DispatchesOf(DroppedOwned(f, AllOwned(p))) <==> ShutOut(f, d) && Holds(p, d)
    {
      DispatchIn(DroppedOwned(f, AllOwned(p)), d);
      forall player
        ensures Owned(player, d) in DroppedOwned(f, AllOwned(p)) <==> Owned(player, d) in AllOwned(p) && ShutOut(f, d)
      {
        KeptOwnedIff(f, AllOwned(p), Owned(player, d));
      }
    }
  }

  lemma DispatchIn(os: seq<Owned>, d: SubsystemDispatch)
    ensures d in DispatchesOf(os) <==> exists player :: Owned(player, d) in os
  {
    if player :| Owned(player, d) in os {
      var i :| 0 <= i < |os| && os[i] == Owned(player, d);
      assert DispatchesOf(os)[i] == d;
    }
    if d in DispatchesOf(os) {
      var i :| 0 <= i < |os| && DispatchesOf(os)[i] == d;
      assert Owned(os[i].player, d) in os;
    }
  }

  lemma {:induction false} DroppedIff(f: Filter, ds: seq<SubsystemDispatch>, d: SubsystemDispatch)
    ensures d in Dropped(f, ds) <==> d in ds && ShutOut(f, d)
  {
    hide Keeps, ShutOut;
    if ds != [] {
      DroppedIff(f, ds[..|ds| - 1], d);
      KeepsIff(f, ds[|ds| - 1]);
    }
  }

  lemma AsRemoved(ds: seq<SubsystemDispatch>, ns: seq<Directive>, x: Removed)
    ensures x in AsDispatches(ds) <==> x.RemovedDispatch? && x.d in ds
    ensures x in AsDirectives(ns) <==> x.RemovedDirective? && x.n in ns
  {
    if x.RemovedDispatch? && x.d in ds {
      var i :| 0 <= i < |ds| && ds[i] == x.d;
      assert AsDispatches(ds)[i] == x;
    }
    if x.RemovedDirective? && x.n in ns {
      var i :| 0 <= i < |ns| && ns[i] == x.n;
      assert AsDirectives(ns)[i] == x;
    }
  }

  ghost predicate HeldBy(os: seq<Owned>, d: SubsystemDispatch) { exists player :: Owned(player, d) in os }

  ghost predicate NotedBy(ns: seq<Noted>, n: Directive) { exists player :: Noted(player, n) in ns }

  lemma HeldByAppend(os: seq<Owned>, player: Option<string>, ds: seq<SubsystemDispatch>, d: SubsystemDispatch)
    ensures HeldBy(os + Own(player, ds), d) <==> HeldBy(os, d) || d in ds
  {
    var all := os + Own(player, ds);
    if d in ds {
      var i :| 0 <= i < |ds| && ds[i] == d;
      assert Own(player, ds)[i] == Owned(player, d);
      assert Owned(player, d) in all;
    }
    if who :| Owned(who, d) in os {
      assert Owned(who, d) in all;
    }
  }

  lemma NotedByAppend(os: seq<Noted>, player: string, ns: seq<Directive>, n: Directive)
    ensures NotedBy(os + Note(player, ns), n) <==> NotedBy(os, n) || n in ns
  {
    hide Note;
    var all := os + Note(player, ns);
    NoteIff(player, ns, Noted(player, n));
    if n in ns {
      assert Noted(player, n) in all;
    }
    if who :| Noted(who, n) in os {
      assert Noted(who, n) in all;
    }
    if who :| Noted(who, n) in all {
      NoteIff(player, ns, Noted(who, n));
    }
  }

  lemma {:induction false} RemovedByPlayersIff(ps: seq<PlayerDispatch>, x: Removed)
    ensures x in RemovedByPlayers(ps)
       <==> match x
            case RemovedDispatch(d) => d.redact && HeldBy(OwnedByPlayers(ps), d)
            case RemovedDirective(n) => n.redact && NotedBy(NotedIn(ps), n)
  {
    hide Dropped, DroppedDirectives, AsDispatches, AsDirectives, Own, Note, HeldBy, NotedBy;
    if ps == [] {
      EmptyHolds();
    } else {
      var last, init := ps[|ps| - 1], ps[..|ps| - 1];
      RemovedByPlayersIff(init, x);
      AsRemoved(Dropped(Redactor, last.dispatch), DroppedDirectives(Redactor, last.directives), x);
      match x {
        case RemovedDispatch(d) =>
          DroppedIff(Redactor, last.dispatch, d);
          HeldByAppend(OwnedByPlayers(init), Some(last.player), last.dispatch, d);
        case RemovedDirective(n) =>
          KeptDirectivesIff(Redactor, last.directives, n);
          NotedByAppend(NotedIn(init), last.player, last.directives, n);
      }
    }
  }

  lemma {:induction false} RemovedByCrossIff(cs: seq<CrossAction>, x: Removed)
    ensures x in RemovedByCross(cs) <==> x.RemovedDispatch? && x.d.redact && HeldBy(OwnedByNone(cs), x.d)
  {
    hide Dropped, AsDispatches, Own, HeldBy;
    if cs == [] {
      EmptyHolds();
    } else {
      var last, init := cs[|cs| - 1], cs[..|cs| - 1];
      RemovedByCrossIff(init, x);
      AsRemoved(Dropped(Redactor, last.dispatch), [], x);
      if x.RemovedDispatch? {
        DroppedIff(Redactor, last.dispatch, x.d);
        HeldByAppend(OwnedByNone(init), None, last.dispatch, x.d);
      }
    }
  }

  lemma EmptyHolds()
    ensures forall d :: !HeldBy([], d)
    ensures forall n :: !NotedBy([], n)
  {}

  lemma RedactionMeans(p: Package)
    ensures SameFrame(p, FilterPackage(Redactor, p))
    ensures forall o :: o in AllOwned(FilterPackage(Redactor, p)) <==> o in AllOwned(p) && !o.dispatch.redact
    ensures forall n :: n in AllNoted(FilterPackage(Redactor, p)) <==> n in AllNoted(p) && !n.directive.redact
    ensures var removed := RemovedByPlayers(p.perPlayer) + RemovedByCross(p.cross);
            && (forall d :: RemovedDispatch(d) in removed <==> d.redact && Holds(p, d))
            && (forall n :: RemovedDirective(n) in removed <==>
                  n.redact && exists player :: Noted(player, n) in AllNoted(p))
  {
    hide SameFrame, FilterPackage, RemovedByPlayers, RemovedByCross, NotedIn, OwnedByPlayers, OwnedByNone;
    FilterMeans(Redactor, p);
    var removed := RemovedByPlayers(p.perPlayer) + RemovedByCross(p.cross);
    forall d
      ensures RemovedDispatch(d) in removed <==> d.redact && Holds(p, d)
    {
      RemovedByPlayersIff(p.perPlayer, RemovedDispatch(d));
      RemovedByCrossIff(p.cross, RemovedDispatch(d));
    }
    forall n
      ensures RemovedDirective(n) in removed <==> n.redact && exists player :: Noted(player, n) in AllNoted(p)
    {
      RemovedByPlayersIff(p.perPlayer, RemovedDirective(n));
      RemovedByCrossIff(p.cross, RemovedDirective(n));
    }
  }

  // ---- the traversal ---------------------------------------------------

  lemma OwnIff(player: Option<string>, ds: seq<SubsystemDispatch>, o: Owned)
    ensures o in Own(player, ds) <==> o.player == player && o.dispatch in ds
  {
    if o.player == player && o.dispatch in ds {
      var i :| 0 <= i < |ds| && ds[i] == o.dispatch;
      assert Own(player, ds)[i] == o;
    }
  }

  lemma {:induction false} OwnedByPlayersIff(ps: seq<PlayerDispatch>, o: Owned)
    ensures o in OwnedByPlayers(ps) <==> exists i | 0 <= i < |ps| :: o.player == Some(ps[i].player) && o.dispatch in ps[i].dispatch
  {
    hide Own;
    if ps != [] {
      var n := |ps| - 1;
      OwnedByPlayersIff(ps[..n], o);
      OwnIff(Some(ps[n].player), ps[n].dispatch, o);
      assert forall i | 0 <= i < n :: ps[..n][i] == ps[i];
    }
  }

  lemma {:induction false} OwnedByNoneIff(cs: seq<CrossAction>, o: Owned)
    ensures o in OwnedByNone(cs) <==> o.player == None && exists i | 0 <= i < |cs| :: o.dispatch in cs[i].dispatch
  {
    hide Own;
    if cs != [] {
      var n := |cs| - 1;
      OwnedByNoneIff(cs[..n], o);
      OwnIff(None, cs[n].dispatch, o);
      assert forall i | 0 <= i < n :: cs[..n][i] == cs[i];
    }
  }

  /** Every dispatch of the package is visited, a player's with the player and a cross-player one with nobody. */
  lemma AllOwnedIff(p: Package, o: Owned)
    ensures o in AllOwned(p) <==>
              || (exists i | 0 <= i < |p.perPlayer| ::
                    o.player == Some(p.perPlayer[i].player) && o.dispatch in p.perPlayer[i].dispatch)
              || (o.player == None && exists i | 0 <= i < |p.cross| :: o.dispatch in p.cross[i].dispatch)
  {
    hide OwnedByPlayers, OwnedByNone;
    OwnedByPlayersIff(p.perPlayer, o);
    OwnedByNoneIff(p.cross, o);
  }

  /** The order of a traversal and of a removal, on two players and a cross-player action with one entry each. */
  lemma TraversalOrder(x: PlayerDispatch, y: PlayerDispatch, z: CrossAction, d1: SubsystemDispatch, n1: Directive,
                       d2: SubsystemDispatch, d3: SubsystemDispatch)
    requires x.dispatch == [d1] && x.directives == [n1] && y.dispatch == [d2] && y.directives == [] && z.dispatch == [d3]
    ensures AllOwned(Package([x, y], [z])) == [Owned(Some(x.player), d1), Owned(Some(y.player), d2), Owned(None, d3)]
    ensures d1.redact && n1.redact && d2.redact && d3.redact ==>
              RemovedByPlayers([x, y]) + RemovedByCross([z])
              == [RemovedDispatch(d1), RemovedDirective(n1), RemovedDispatch(d2), RemovedDispatch(d3)]
  {
    assert [x, y][..1] == [x] && [x][..0] == [] && [z][..0] == [];
    assert [d1][..0] == [] && [d2][..0] == [] && [d3][..0] == [] && [n1][..0] == [];
    assert OwnedByPlayers([x]) == [Owned(Some(x.player), d1)];
    assert OwnedByNone([z]) == [Owned(None, d3)];
    if d1.redact && n1.redact && d2.redact && d3.redact {
      assert Dropped(Redactor, [d1]) == [d1] && Dropped(Redactor, [d2]) == [d2] && Dropped(Redactor, [d3]) == [d3];
      assert DroppedDirectives(Redactor, [n1]) == [n1];
      assert RemovedByPlayers([x]) == [RemovedDispatch(d1), RemovedDirective(n1)];
      assert RemovedByPlayers([x, y]) == [RemovedDispatch(d1), RemovedDirective(n1), RemovedDispatch(d2)];
    }
  }
}
