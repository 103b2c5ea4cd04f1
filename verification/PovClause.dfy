/** One clause through all its gated passes (sidequest/agents/pov_swap.py:382-852). */
module PovClause {
  import opened Text
  import opened PovPasses
  import opened PovSkeleton

  datatype Rewrite = Rewrite(text: string, count: nat, gates: Gates)

  // ---- re.sub ----------------------------------------------------------

  /** Left to right, without overlaps, on the text as it was when the pass began. */
  function SubFrom(p: Pass, c: Ctx, t: string, i: nat): Rewrite
    requires i <= |t| && c.name != ""
    decreases |t| - i
  {
    if i == |t| then Rewrite("", 0, SHUT)
    else
      match HitAt(p, c, t, i)
      case Miss =>
        var r := SubFrom(p, c, t, i + 1);
        Rewrite([t[i]] + r.text, r.count, r.gates)
      case Hit(e, text, edits, gates) =>
        var r := SubFrom(p, c, t, e);
        Rewrite(text + r.text, edits + r.count, gates.Or(r.gates))
  }

  function Run(p: Pass, c: Ctx, r: Rewrite): Rewrite
    requires c.name != ""
  {
    var s := SubFrom(p, c, r.text, 0);
    Rewrite(s.text, r.count + s.count, r.gates.Or(s.gates))
  }

  method Substitute(p: Pass, c: Ctx, r: Rewrite) returns (s: Rewrite)
    requires c.name != ""
    ensures s == Run(p, c, r)
  {
    hide HitAt;
    var t, i := r.text, 0;
    var out, count, gates := "", r.count, r.gates;
    while i < |t|
      invariant i <= |t|
      invariant out + SubFrom(p, c, t, i).text == SubFrom(p, c, t, 0).text
      invariant count + SubFrom(p, c, t, i).count == Run(p, c, r).count
      invariant gates.Or(SubFrom(p, c, t, i).gates) == Run(p, c, r).gates
    {
      match HitAt(p, c, t, i) {
        case Miss =>
          assert out + ([t[i]] + SubFrom(p, c, t, i + 1).text) == (out + [t[i]]) + SubFrom(p, c, t, i + 1).text;
          out, i := out + [t[i]], i + 1;
        case Hit(e, text, edits, g) =>
          assert out + (text + SubFrom(p, c, t, e).text) == (out + text) + SubFrom(p, c, t, e).text;
          out, i, count, gates := out + text, e, count + edits, gates.Or(g);
      }
    }
    assert out + "" == out;
    return Rewrite(out, count, gates);
  }

  // ---- the pipeline ----------------------------------------------------

  function RunAll(ps: seq<Pass>, c: Ctx, r: Rewrite): Rewrite
    requires c.name != ""
  {
    if ps == [] then r else Run(ps[|ps| - 1], c, RunAll(ps[..|ps| - 1], c, r))
  }

  const NAME_PASSES := [PossessiveName, SubjectName, BareName]

  function ReflexivePasses(p: Pronouns): seq<Pass> {
    seq(|p.Reflexives()|, i requires 0 <= i < |p.Reflexives()| => Reflexive(p.Reflexives()[i]))
  }

  /** The passes the open gates let through, in order; the question pass comes after these. */
  function Plan(c: Ctx, g: Gates): seq<Pass> {
    (if g.start && !g.verb then [Interrupter] else [])
    + (if g.subject then ReflexivePasses(c.pronouns) + [AndVerb, CommaVerb, ThenVerb] else [])
    + (if g.name then [PossessivePronoun, SubjectPronoun, ObjectPronoun] else [])
  }

  /** The specification: the name passes decide the plan, the plan is carried out, and a question
      that named the target has its inverted auxiliary agreed. */
  function RewriteOf(c: Ctx, clause: string): Rewrite
    requires c.name != ""
  {
    var named := RunAll(NAME_PASSES, c, Rewrite(clause, 0, SHUT));
    var r := RunAll(Plan(c, named.gates), c, named);
    if named.gates.name && '?' in r.text then Run(InvertedAuxiliary, c, r) else r
  }

  lemma RunAllSnoc(ps: seq<Pass>, p: Pass, c: Ctx, r: Rewrite)
    requires c.name != ""
    ensures RunAll(ps + [p], c, r) == Run(p, c, RunAll(ps, c, r))
  {
    assert (ps + [p])[..|ps|] == ps;
  }

  method Stage(ghost done: seq<Pass>, p: Pass, c: Ctx, ghost from: Rewrite, r: Rewrite) returns (s: Rewrite)
    requires c.name != "" && r == RunAll(done, c, from)
    ensures s == RunAll(done + [p], c, from)
  {
    RunAllSnoc(done, p, c, from);
    s := Substitute(p, c, r);
  }

  /** Three stages in a row. */
  method Stages(ghost done: seq<Pass>, p: Pass, q: Pass, o: Pass, c: Ctx, ghost from: Rewrite, r: Rewrite)
    returns (s: Rewrite)
    requires c.name != "" && r == RunAll(done, c, from)
    ensures s == RunAll(done + [p, q, o], c, from)
  {
    hide RunAll;
    s := Stage(done, p, c, from, r);
    s := Stage(done + [p], q, c, from, s);
    s := Stage(done + [p] + [q], o, c, from, s);
    assert done + [p] + [q] + [o] == done + [p, q, o];
  }

  lemma RunAllNone(c: Ctx, r: Rewrite)
    requires c.name != ""
    ensures RunAll([], c, r) == r
  {}

  /** The clause rewriter as written: text, count and flags updated pass by pass. */
  method RewriteClause(c: Ctx, clause: string) returns (text: string, count: nat)
    requires c.name != ""
    ensures text == RewriteOf(c, clause).text && count == RewriteOf(c, clause).count
  {
    hide Run, RunAll, ReflexivePasses;
    var r := Rewrite(clause, 0, SHUT);
    RunAllNone(c, r);
    assert [] + NAME_PASSES == NAME_PASSES;
    r := Stages([], PossessiveName, SubjectName, BareName, c, r, r);
    ghost var named := r;
    RunAllNone(c, named);
    var flags := r.gates;
    ghost var plan: seq<Pass> := [];
    if flags.start && !flags.verb {
      r := Stage(plan, Interrupter, c, named, r);
      plan := [] + [Interrupter];
    }
    ghost var opening := plan;
    if flags.subject {
      r := Reflexives(plan, c, named, r);
      plan := plan + ReflexivePasses(c.pronouns);
      r := Stages(plan, AndVerb, CommaVerb, ThenVerb, c, named, r);
      plan := plan + [AndVerb, CommaVerb, ThenVerb];
      assert plan == opening + (ReflexivePasses(c.pronouns) + [AndVerb, CommaVerb, ThenVerb]);
    }
    if flags.name {
      r := Stages(plan, PossessivePronoun, SubjectPronoun, ObjectPronoun, c, named, r);
      plan := plan + [PossessivePronoun, SubjectPronoun, ObjectPronoun];
    }
    assert plan == Plan(c, flags);
    if flags.name && '?' in r.text {
      r := Substitute(InvertedAuxiliary, c, r);
    }
    return r.text, r.count;
  }

  method Reflexives(ghost done: seq<Pass>, c: Ctx, ghost from: Rewrite, r: Rewrite) returns (s: Rewrite)
    requires c.name != "" && r == RunAll(done, c, from)
    ensures s == RunAll(done + ReflexivePasses(c.pronouns), c, from)
  {
    hide RunAll;
    var forms := c.pronouns.Reflexives();
    ghost var passes := ReflexivePasses(c.pronouns);
    s := r;
    assert done + passes[..0] == done;
    for i := 0 to |forms|
      invariant s == RunAll(done + passes[..i], c, from)
    {
      assert done + passes[..i + 1] == done + passes[..i] + [Reflexive(forms[i])];
      s := Stage(done + passes[..i], Reflexive(forms[i]), c, from, s);
    }
    assert passes[..|forms|] == passes;
  }

  // ---- honesty ---------------------------------------------------------

  lemma {:induction false} SubHonest(p: Pass, c: Ctx, t: string, i: nat)
    requires i <= |t| && c.name != ""
    ensures SubFrom(p, c, t, i).count == 0 ==> SubFrom(p, c, t, i) == Rewrite(t[i..], 0, SHUT)
    decreases |t| - i
  {
    hide HitAt;
    if i < |t| {
      match HitAt(p, c, t, i)
      case Miss =>
        SubHonest(p, c, t, i + 1);
        assert t[i..] == [t[i]] + t[i + 1..];
      case Hit(e, text, edits, gates) =>
        SubHonest(p, c, t, e);
        assert t[i..] == t[i..e] + t[e..];
    }
  }

  lemma {:induction false} RunAllHonest(ps: seq<Pass>, c: Ctx, r: Rewrite)
    requires c.name != ""
    ensures RunAll(ps, c, r).count >= r.count
    ensures RunAll(ps, c, r).count == r.count ==> RunAll(ps, c, r) == r
  {
    if ps != [] {
      var q := RunAll(ps[..|ps| - 1], c, r);
      RunAllHonest(ps[..|ps| - 1], c, r);
      SubHonest(ps[|ps| - 1], c, q.text, 0);
      assert q.text[0..] == q.text;
    }
  }

  /** A clause for which no substitution is counted comes out unchanged, across all passes. */
  lemma ClauseHonest(c: Ctx, clause: string)
    requires c.name != ""
    ensures RewriteOf(c, clause).count == 0 ==> RewriteOf(c, clause) == Rewrite(clause, 0, SHUT)
  {
    hide SubFrom, Plan;
    var start := Rewrite(clause, 0, SHUT);
    var named := RunAll(NAME_PASSES, c, start);
    RunAllHonest(NAME_PASSES, c, start);
    RunAllHonest(Plan(c, named.gates), c, named);
    var r := RunAll(Plan(c, named.gates), c, named);
    SubHonest(InvertedAuxiliary, c, r.text, 0);
    assert r.text[0..] == r.text;
  }

  // ---- locality --------------------------------------------------------

  lemma {:induction false} NamePassIdle(p: Pass, c: Ctx, t: string, i: nat)
    requires i <= |t| && c.name != "" && p in {PossessiveName, SubjectName, BareName}
    requires !Contains(t, c.name)
    ensures SubFrom(p, c, t, i) == Rewrite(t[i..], 0, SHUT)
    decreases |t| - i
  {
    hide HitAt, At;
    if i < |t| {
      NamePassNeedsName(p, c, t, i);
      NamePassIdle(p, c, t, i + 1);
      assert t[i..] == [t[i]] + t[i + 1..];
    }
  }

  /** A clause that does not contain the name is returned as it is, whatever pronouns it holds. */
  lemma ClauseWithoutName(c: Ctx, clause: string)
    requires c.name != "" && !Contains(clause, c.name)
    ensures RewriteOf(c, clause) == Rewrite(clause, 0, SHUT)
  {
    hide SubFrom, Contains;
    var r := Rewrite(clause, 0, SHUT);
    NamePassIdle(PossessiveName, c, clause, 0);
    NamePassIdle(SubjectName, c, clause, 0);
    NamePassIdle(BareName, c, clause, 0);
    assert clause[0..] == clause;
    RunAllSnoc([], PossessiveName, c, r);
    assert [] + [PossessiveName] == [PossessiveName];
    RunAllSnoc([PossessiveName], SubjectName, c, r);
    assert [PossessiveName] + [SubjectName] == [PossessiveName, SubjectName];
    RunAllSnoc([PossessiveName, SubjectName], BareName, c, r);
    assert [PossessiveName, SubjectName] + [BareName] == NAME_PASSES;
    assert RunAll(NAME_PASSES, c, r) == r;
    assert Plan(c, SHUT) == [];
  }

  // ---- the skeleton ----------------------------------------------------

  lemma {:induction false} SubKeepsSkeleton(p: Pass, c: Ctx, t: string, i: nat)
    requires Lawful(c.abc) && i <= |t| && c.name != "" && ProperPass(p)
    ensures Skeleton(c, SubFrom(p, c, t, i).text) == Skeleton(c, t[i..])
    decreases |t| - i
  {
    hide HitAt, Skeleton;
    if i < |t| {
      match HitAt(p, c, t, i)
      case Miss =>
        SubKeepsSkeleton(p, c, t, i + 1);
        assert t[i..] == [t[i]] + t[i + 1..];
        SkeletonAppend(c, [t[i]], t[i + 1..]);
        SkeletonAppend(c, [t[i]], SubFrom(p, c, t, i + 1).text);
      case Hit(e, text, _, _) =>
        SubKeepsSkeleton(p, c, t, e);
        HitKeepsSkeleton(p, c, t, i);
        assert t[i..] == t[i..e] + t[e..];
        SkeletonAppend(c, t[i..e], t[e..]);
        SkeletonAppend(c, text, SubFrom(p, c, t, e).text);
    } else {
      assert t[i..] == "";
    }
  }

  lemma {:induction false} RunAllKeepsSkeleton(ps: seq<Pass>, c: Ctx, r: Rewrite)
    requires Lawful(c.abc) && c.name != "" && forall k | 0 <= k < |ps| :: ProperPass(ps[k])
    ensures Skeleton(c, RunAll(ps, c, r).text) == Skeleton(c, r.text)
  {
    hide Skeleton, SubFrom;
    if ps != [] {
      var q := RunAll(ps[..|ps| - 1], c, r);
      RunAllKeepsSkeleton(ps[..|ps| - 1], c, r);
      SubKeepsSkeleton(ps[|ps| - 1], c, q.text, 0);
      assert q.text[0..] == q.text;
    }
  }

  /** Rewriting a clause keeps its punctuation skeleton. */
  lemma ClauseKeepsSkeleton(c: Ctx, clause: string)
    requires Lawful(c.abc) && c.name != ""
    ensures Skeleton(c, RewriteOf(c, clause).text) == Skeleton(c, clause)
  {
    hide Skeleton, SubFrom, Run, RunAll, Pronouns.Reflexives, Lettered;
    var named := RunAll(NAME_PASSES, c, Rewrite(clause, 0, SHUT));
    RunAllKeepsSkeleton(NAME_PASSES, c, Rewrite(clause, 0, SHUT));
    FormsAreLetters(c.pronouns);
    var plan := Plan(c, named.gates);
    RunAllKeepsSkeleton(plan, c, named);
    RunAllKeepsSkeleton([InvertedAuxiliary], c, RunAll(plan, c, named));
    RunAllOne(InvertedAuxiliary, c, RunAll(plan, c, named));
  }

  lemma RunAllOne(p: Pass, c: Ctx, r: Rewrite)
    requires c.name != ""
    ensures RunAll([p], c, r) == Run(p, c, r)
  {
    RunAllSnoc([], p, c, r);
  }
}
