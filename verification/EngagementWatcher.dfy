/** The engagement watcher (sidequest/agents/dispatch_engagement_watcher.py:173-542) and how it agrees with
    the filters: gating removes exactly the gated subsystems' mismatches. */
module EngagementWatcher {
  import opened Options
  import opened Dispatch

  /** Why a dispatch counts as not engaged. */
  datatype Evidence =
    | Malformed(param: string)
    | NoEncounter
    | EncounterDiffers(seated: string, dispatched: string)
    | NoMagicEngine(actor: string)
    | NoWorking(actor: string)
    | NoScenario
    | ClueUndiscovered(fact: string)
    | NpcAbsent(name: string)
    | NoPolitics
    | NoDialMoved(act: string)
    | NoOwner
    | NoSeat(player: string)
    | NotRelocated(pc: string)
    | QuestUnminted(quest: string)
    | CourseIdle(destination: string)

  datatype Mismatch = Mismatch(subsystem: string, key: string, dispatchedType: string, evidence: Evidence)

  const TYPE_KEY: map<string, string> := map[
    "confrontation" := "type", "magic_working" := "actor", "scenario_clue" := "fact_id", "npc_agency" := "npc_name",
    "distinctive_detail_hint" := "target", "reflect_absence" := "addressee_hint", "witnessed_act" := "act_id",
    "movement" := "direction", "quest_offer" := "quest_id", "course" := "destination", "dogfight" := "type"]

  function StrParam(d: SubsystemDispatch, key: string): Option<string> {
    if key in d.params && d.params[key].Str? then Some(d.params[key].text) else None
  }

  predicate Truthy(v: Value) { match v case Str(t) => t != "" case NonStr(_, truthy) => truthy }

  /** The act's id, or its archetype when the id is missing or falsy. */
  function ActParam(d: SubsystemDispatch): Option<Value> {
    if "act_id" in d.params && Truthy(d.params["act_id"]) then Some(d.params["act_id"])
    else if "act_archetype" in d.params && Truthy(d.params["act_archetype"]) then Some(d.params["act_archetype"])
    else None
  }

  predicate Stamped(log: seq<Stamp>, turn: int, who: string) { Stamp(turn, who) in log }

  /** None is engaged. `fold` is the case folding of NPC names. Subsystems without a witness are engaged. */
  function Witness(fold: string -> string, d: SubsystemDispatch, snap: Snapshot, player: Option<string>): Option<Evidence> {
    match d.subsystem
    case "confrontation" =>
      var kind := StrParam(d, "type");
      if kind.None? then Some(Malformed("type"))
      else if snap.encounter.None? then Some(NoEncounter)
      else if snap.encounter.value.kind != kind.value then Some(EncounterDiffers(snap.encounter.value.kind, kind.value))
      else None
    case "magic_working" =>
      var actor := StrParam(d, "actor");
      if actor.None? then Some(Malformed("actor"))
      else if Stamped(snap.castLog, snap.turn, actor.value) then None
      else if Stamped(snap.mutationLog, snap.turn, actor.value) then None
      else if snap.magic.None? then Some(NoMagicEngine(actor.value))
      else if actor.value !in snap.magic.value then Some(NoWorking(actor.value))
      else None
    case "scenario_clue" =>
      var fact := StrParam(d, "fact_id");
      if fact.None? then Some(Malformed("fact_id"))
      else if snap.clues.None? then Some(NoScenario)
      else if fact.value !in snap.clues.value then Some(ClueUndiscovered(fact.value))
      else None
    case "npc_agency" =>
      var name := StrParam(d, "npc_name");
      if name.None? then Some(Malformed("npc_name"))
      else if exists n | n in snap.npcNames + snap.poolNames :: fold(n) == fold(name.value) then None
      else Some(NpcAbsent(name.value))
    case "witnessed_act" =>
      var act := ActParam(d);
      if act.None? then Some(Malformed("act_id"))
      else if snap.politics.None? then Some(NoPolitics)
      else if act.value.Str? && Stamped(snap.politics.value, snap.turn, act.value.text) then None
      else Some(NoDialMoved(act.value.text))
    case "movement" =>
      if player.None? then Some(NoOwner)
      else if player.value !in snap.seats then Some(NoSeat(player.value))
      else if Stamped(snap.transitions, snap.turn, snap.seats[player.value]) then None
      else Some(NotRelocated(snap.seats[player.value]))
    case "quest_offer" =>
      var quest := StrParam(d, "quest_id");
      if StrParam(d, "decision") == Some("decline") then None
      else if quest.None? then Some(Malformed("quest_id"))
      else if quest.value !in snap.quests then Some(QuestUnminted(quest.value))
      else None
    case "course" =>
      var destination := StrParam(d, "destination");
      if destination.None? then Some(Malformed("destination"))
      else if snap.plottedTo == destination || snap.partyBody == destination then None
      else Some(CourseIdle(destination.value))
    case "dogfight" =>
      var kind := StrParam(d, "type");
      if snap.encounter.None? then Some(NoEncounter)
      else if kind.Some? && snap.encounter.value.kind != kind.value
      then Some(EncounterDiffers(snap.encounter.value.kind, kind.value))
      else None
    case _ => None
  }

  function TypeOf(d: SubsystemDispatch): string {
    if d.subsystem in TYPE_KEY && TYPE_KEY[d.subsystem] in d.params then d.params[TYPE_KEY[d.subsystem]].text else ""
  }

  /** The mismatches of a list of owned dispatches, in order. */
  function Mismatches(fold: string -> string, os: seq<Owned>, snap: Snapshot): seq<Mismatch> {
    if os == [] then []
    else
      var rest, o := Mismatches(fold, os[..|os| - 1], snap), os[|os| - 1];
      match Witness(fold, o.dispatch, snap, o.player)
      case None => rest
      case Some(e) => rest + [Mismatch(o.dispatch.subsystem, o.dispatch.key, TypeOf(o.dispatch), e)]
  }

  method Detect(fold: string -> string, package: Option<Package>, snap: Snapshot) returns (found: seq<Mismatch>)
    ensures found == if package.None? then [] else Mismatches(fold, AllOwned(package.value), snap)
  {
    hide Witness;
    found := [];
    if package.None? {
      return;
    }
    var os := AllOwned(package.value);
    for i := 0 to |os|
      invariant found == Mismatches(fold, os[..i], snap)
    {
      assert os[..i + 1][..i] == os[..i];
      var d := os[i].dispatch;
      var evidence := Witness(fold, d, snap, os[i].player);
      if evidence.Some? {
        found := found + [Mismatch(d.subsystem, d.key, TypeOf(d), evidence.value)];
      }
    }
    assert os[..|os|] == os;
  }

  // ---- agreement with the gates ----------------------------------------

  /** Whether a gate lets a subsystem through; the gates look at nothing else. */
  predicate Admits(f: Filter, subsystem: string) {
    match f
    case InertGate(snap) => !Inert(subsystem, snap)
    case RegistryGate(registered) => subsystem in registered
    case Redactor => true
  }

  function Admitted(f: Filter, ms: seq<Mismatch>): seq<Mismatch> {
    if ms == [] then []
    else
      var rest := Admitted(f, ms[..|ms| - 1]);
      if Admits(f, ms[|ms| - 1].subsystem) then rest + [ms[|ms| - 1]] else rest
  }

  lemma {:induction false} MismatchesOfKept(fold: string -> string, f: Filter, os: seq<Owned>, snap: Snapshot)
    requires !f.Redactor?
    ensures Mismatches(fold, KeptOwned(f, os), snap) == Admitted(f, Mismatches(fold, os, snap))
  {
    hide Witness, Inert, TypeOf;
    if os != [] {
      var n := |os| - 1;
      MismatchesOfKept(fold, f, os[..n], snap);
      assert Keeps(f, os[n].dispatch) <==> Admits(f, os[n].dispatch.subsystem);
    }
  }

  /** Watching a gated package finds exactly what watching the original finds, less the mismatches of the
      subsystems the gate shut out: none appears, none of the others disappears, the order is the same. */
  lemma GatingAgreesWithWatcher(fold: string -> string, f: Filter, p: Package, snap: Snapshot)
    requires !f.Redactor?
    ensures Mismatches(fold, AllOwned(FilterPackage(f, p)), snap)
         == Admitted(f, Mismatches(fold, AllOwned(p), snap))
  {
    AllOwnedFiltered(f, p);
    MismatchesOfKept(fold, f, AllOwned(p), snap);
  }

  // ---- what is reported ------------------------------------------------

  /** The watcher, shown these dispatches, reports the one with this key. */
  ghost predicate Reported(fold: string -> string, os: seq<Owned>, snap: Snapshot, key: string) {
    exists i: nat | i < |Mismatches(fold, os, snap)| :: Mismatches(fold, os, snap)[i].key == key
  }

  lemma {:induction false} MismatchKeys(fold: string -> string, os: seq<Owned>, snap: Snapshot)
    ensures forall i: nat | i < |Mismatches(fold, os, snap)| ::
              exists o | o in os :: o.dispatch.key == Mismatches(fold, os, snap)[i].key
  {
    hide Witness, TypeOf;
    if os == [] {
      assert Mismatches(fold, os, snap) == [];
    } else {
      var n := |os| - 1;
      MismatchKeys(fold, os[..n], snap);
      var ms, init := Mismatches(fold, os, snap), Mismatches(fold, os[..n], snap);
      forall i: nat | i < |ms|
        ensures exists o | o in os :: o.dispatch.key == ms[i].key
      {
        if i < |init| {
          assert ms[i] == init[i];
          var o :| o in os[..n] && o.dispatch.key == init[i].key;
          assert o in os;
        } else {
          assert os[n] in os && os[n].dispatch.key == ms[i].key;
        }
      }
    }
  }

  /** Keys being unique, a dispatch is reported exactly when its own witness finds no engagement. */
  lemma {:induction false} ReportedIff(fold: string -> string, os: seq<Owned>, snap: Snapshot, o: Owned)
    requires UniqueKeys(os) && o in os
    ensures Reported(fold, os, snap, o.dispatch.key) <==> Witness(fold, o.dispatch, snap, o.player).Some?
  {
    hide Witness, TypeOf;
    var n := |os| - 1;
    var ms, init := Mismatches(fold, os, snap), Mismatches(fold, os[..n], snap);
    assert forall i: nat | i < |init| :: ms[i] == init[i];
    if o == os[n] {
      MismatchKeys(fold, os[..n], snap);
      assert Witness(fold, o.dispatch, snap, o.player).Some? ==> ms[|ms| - 1].key == o.dispatch.key;
    } else {
      assert o in os[..n];
      ReportedIff(fold, os[..n], snap, o);
      var k :| 0 <= k < n && os[k] == o;
      assert os[n].dispatch.key != os[k].dispatch.key;
      if Reported(fold, os[..n], snap, o.dispatch.key) {
        var i: nat :| i < |init| && init[i].key == o.dispatch.key;
        assert ms[i].key == o.dispatch.key;
      }
    }
  }

  lemma {:induction false} DroppedIsOriginal(f: Filter, os: seq<Owned>, o: Owned)
    requires o in DroppedOwned(f, os)
    ensures o in os && !Keeps(f, o.dispatch)
  {
    hide Keeps;
    if os != [] && o in DroppedOwned(f, os[..|os| - 1]) {
      DroppedIsOriginal(f, os[..|os| - 1], o);
    }
  }

  // ---- what engagement means, subsystem by subsystem -------------------

  /** The parameter is this string. */
  ghost predicate Says(d: SubsystemDispatch, key: string, text: string) { key in d.params && d.params[key] == Str(text) }

  /** The parameter is a string that satisfies the test. */
  ghost predicate SaysSome(d: SubsystemDispatch, key: string, ok: string -> bool) {
    key in d.params && d.params[key].Str? && ok(d.params[key].text)
  }

  /** A dispatch counts as engaged exactly if: the named encounter is seated; the clue is discovered; an NPC of that
      name is present; the player's character changed region this turn; the quest was declined or is in the log;
      a course to the body is plotted or the party is there; an encounter, of the named type if one is named, is
      seated. Subsystems the watcher does not know are always engaged. */
  lemma EngagedIff(fold: string -> string, d: SubsystemDispatch, snap: Snapshot, player: Option<string>)
    ensures var engaged := Witness(fold, d, snap, player).None?;
            && (d.subsystem == "confrontation" ==>
                (engaged <==> snap.encounter.Some? && Says(d, "type", snap.encounter.value.kind)))
            && (d.subsystem == "scenario_clue" ==>
                (engaged <==> snap.clues.Some? && SaysSome(d, "fact_id", (x: string) => x in snap.clues.value)))
            && (d.subsystem == "npc_agency" ==>
                (engaged <==> exists n :: (n in snap.npcNames || n in snap.poolNames)
                                          && SaysSome(d, "npc_name", (x: string) => fold(x) == fold(n))))
            && (d.subsystem == "movement" ==>
                (engaged <==> player.Some? && player.value in snap.seats
                              && Stamp(snap.turn, snap.seats[player.value]) in snap.transitions))
            && (d.subsystem == "quest_offer" ==>
                (engaged <==> Says(d, "decision", "decline") || SaysSome(d, "quest_id", (x: string) => x in snap.quests)))
            && (d.subsystem == "course" ==>
                (engaged <==> SaysSome(d, "destination", (x: string) => snap.plottedTo == Some(x) || snap.partyBody == Some(x))))
            && (d.subsystem == "dogfight" ==>
                (engaged <==> snap.encounter.Some?
                              && ("type" in d.params && d.params["type"].Str? ==> Says(d, "type", snap.encounter.value.kind))))
            && (d.subsystem !in WITNESSED ==> engaged)
  {}

  const WITNESSED := ["confrontation", "magic_working", "scenario_clue", "npc_agency", "witnessed_act", "movement",
                      "quest_offer", "course", "dogfight"]

  /** Acts and workings need this turn's record: of the act, by id or else by archetype; of the actor's cast or
      mutation, or any pact working of the actor. */
  lemma RecordedIff(fold: string -> string, d: SubsystemDispatch, snap: Snapshot, player: Option<string>)
    ensures var engaged := Witness(fold, d, snap, player).None?;
            && (d.subsystem == "witnessed_act" ==>
                (engaged <==>
                  && snap.politics.Some?
                  && exists x :: x != "" && Stamp(snap.turn, x) in snap.politics.value
                                 && (Says(d, "act_id", x)
                                     || (!("act_id" in d.params && Truthy(d.params["act_id"])) && Says(d, "act_archetype", x)))))
            && (d.subsystem == "magic_working" ==>
                (engaged <==> SaysSome(d, "actor", (x: string) =>
                                || Stamp(snap.turn, x) in snap.castLog || Stamp(snap.turn, x) in snap.mutationLog
                                || (snap.magic.Some? && x in snap.magic.value))))
  {
    if d.subsystem == "witnessed_act" && ActParam(d).Some? && ActParam(d).value.Str? {
      var x := ActParam(d).value.text;
      assert Says(d, "act_id", x) || Says(d, "act_archetype", x);
    }
  }

  /** The parameter shown with a mismatch, per subsystem. */
  lemma ShownParameter(d: SubsystemDispatch)
    ensures var shown := (key: string) => if key in d.params then d.params[key].text else "";
            && (d.subsystem in ["confrontation", "dogfight"] ==> TypeOf(d) == shown("type"))
            && (d.subsystem == "magic_working" ==> TypeOf(d) == shown("actor"))
            && (d.subsystem == "scenario_clue" ==> TypeOf(d) == shown("fact_id"))
            && (d.subsystem == "npc_agency" ==> TypeOf(d) == shown("npc_name"))
            && (d.subsystem == "witnessed_act" ==> TypeOf(d) == shown("act_id"))
            && (d.subsystem == "movement" ==> TypeOf(d) == shown("direction"))
            && (d.subsystem == "quest_offer" ==> TypeOf(d) == shown("quest_id"))
            && (d.subsystem == "course" ==> TypeOf(d) == shown("destination"))
  {}

  /** Every mismatch tells of one dispatch, by its subsystem, key and shown parameter, with its witness's evidence. */
  lemma {:induction false} MismatchTells(fold: string -> string, os: seq<Owned>, snap: Snapshot, m: Mismatch)
    ensures m in Mismatches(fold, os, snap) <==>
              exists o :: o in os && m == Mismatch(o.dispatch.subsystem, o.dispatch.key, TypeOf(o.dispatch), m.evidence)
                          && Witness(fold, o.dispatch, snap, o.player) == Some(m.evidence)
  {
    hide Witness, TypeOf;
    if os != [] {
      MismatchTells(fold, os[..|os| - 1], snap, m);
    }
  }

  /** A parameter that must be a string and is not. */
  ghost predicate Missing(d: SubsystemDispatch, key: string) { !(key in d.params && d.params[key].Str?) }

  /** Malformed evidence names exactly the parameter that is missing or of the wrong kind. */
  lemma MalformedIff(fold: string -> string, d: SubsystemDispatch, snap: Snapshot, player: Option<string>)
    ensures var e := Witness(fold, d, snap, player);
            && (d.subsystem == "confrontation" ==> (e == Some(Malformed("type")) <==> Missing(d, "type")))
            && (d.subsystem == "magic_working" ==> (e == Some(Malformed("actor")) <==> Missing(d, "actor")))
            && (d.subsystem == "scenario_clue" ==> (e == Some(Malformed("fact_id")) <==> Missing(d, "fact_id")))
            && (d.subsystem == "npc_agency" ==> (e == Some(Malformed("npc_name")) <==> Missing(d, "npc_name")))
            && (d.subsystem == "course" ==> (e == Some(Malformed("destination")) <==> Missing(d, "destination")))
            && (d.subsystem == "quest_offer" ==>
                (e == Some(Malformed("quest_id")) <==> Missing(d, "quest_id") && !Says(d, "decision", "decline")))
            && (d.subsystem == "witnessed_act" ==>
                (e == Some(Malformed("act_id")) <==>
                  !("act_id" in d.params && Truthy(d.params["act_id"]))
                  && !("act_archetype" in d.params && Truthy(d.params["act_archetype"]))))
            && (d.subsystem in ["movement", "dogfight"] ==> !(e.Some? && e.value.Malformed?))
  {}

  /** Evidence tells the truth about the snapshot and the dispatch. */
  lemma EvidenceIsTrue(fold: string -> string, d: SubsystemDispatch, snap: Snapshot, player: Option<string>)
    requires Witness(fold, d, snap, player).Some?
    ensures match Witness(fold, d, snap, player).value
            case Malformed(_) => true
            case NoEncounter => snap.encounter == None
            case EncounterDiffers(seated, dispatched) =>
              snap.encounter.Some? && snap.encounter.value.kind == seated != dispatched && Says(d, "type", dispatched)
            case NoMagicEngine(actor) => snap.magic == None && Says(d, "actor", actor)
            case NoWorking(actor) => snap.magic.Some? && actor !in snap.magic.value && Says(d, "actor", actor)
            case NoScenario => snap.clues == None
            case ClueUndiscovered(fact) => snap.clues.Some? && fact !in snap.clues.value && Says(d, "fact_id", fact)
            case NpcAbsent(name) => Says(d, "npc_name", name) && forall n | n in snap.npcNames :: fold(n) != fold(name)
            case NoPolitics => snap.politics == None
            case NoDialMoved(act) => snap.politics.Some? && (act != "" && Says(d, "act_id", act) ==> Stamp(snap.turn, act) !in snap.politics.value)
            case NoOwner => player == None
            case NoSeat(p) => player == Some(p) && p !in snap.seats
            case NotRelocated(pc) => player.Some? && player.value in snap.seats && snap.seats[player.value] == pc
                                     && Stamp(snap.turn, pc) !in snap.transitions
            case QuestUnminted(quest) => quest !in snap.quests && Says(d, "quest_id", quest)
            case CourseIdle(to) => Says(d, "destination", to) && snap.plottedTo != Some(to) && snap.partyBody != Some(to)
  {}
}
