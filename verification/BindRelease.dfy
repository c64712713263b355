/**
 Releases make progress.  A rank over the unconfirmed ServerGroups and their backends never rises while a PA is
 Releasing, whatever is refused or crashes, and every accepted removal, finished removal and confirmation lowers it.
 */
module BindRelease {
  import opened Options
  import opened BindModel
  import opened BindSafety
  import opened BindTheorems

  /** The backends of g that nobody has asked to leave. */
  function Unasked(g: Group): set<Backend> {
    set b | b in g && !g[b]
  }

  /** A ServerGroup confirmed empty counts nothing; else one for the confirmation and one or two for each backend. */
  function GroupRank(m: Mark, g: Group): nat {
    if m.Clear? then 0 else 1 + |g| + |Unasked(g)|
  }

  function RankUpto(marks: seq<Mark>, groups: seq<Group>, n: nat): nat
    requires n <= |marks| == |groups|
  {
    if n == 0 then 0 else RankUpto(marks, groups, n - 1) + GroupRank(marks[n - 1], groups[n - 1])
  }

  function Rank(x: Slot): nat
    requires |x.marks| == |x.groups|
  {
    RankUpto(x.marks, x.groups, |x.marks|)
  }

  /** Nothing gained is lost again: confirmed groups stay so, no backend is added, accepted removals stay accepted. */
  ghost predicate GroupDrains(m: Mark, g: Group, m': Mark, g': Group) {
    && (m.Clear? ==> m'.Clear?)
    && (forall b :: b in g' ==> b in g && (g[b] ==> g'[b]))
  }

  ghost predicate Drains(x: Slot, x': Slot) {
    && |x'.marks| == |x.marks| && |x'.groups| == |x.groups|
    && (forall i :: 0 <= i < |x.marks| && i < |x.groups| ==>
          GroupDrains(x.marks[i], x.groups[i], x'.marks[i], x'.groups[i]))
  }

  lemma Subset<T>(a: set<T>, b: set<T>)
    requires a <= b
    ensures |a| <= |b| && (a != b ==> |a| < |b|)
  {
    assert b == a + (b - a);
  }

  lemma GroupRankFalls(m: Mark, g: Group, m': Mark, g': Group)
    requires GroupDrains(m, g, m', g')
    ensures GroupRank(m', g') <= GroupRank(m, g)
    ensures !m.Clear? && (m'.Clear? || g'.Keys != g.Keys || Unasked(g') != Unasked(g)) ==>
      GroupRank(m', g') < GroupRank(m, g)
  {
    Subset(g'.Keys, g.Keys);
    Subset(Unasked(g'), Unasked(g));
    assert |g'| == |g'.Keys| && |g| == |g.Keys|;
  }

  /** Pointwise no higher, and lower somewhere if it is lower at k. */
  lemma {:induction false} RankFalls(x: Slot, x': Slot, n: nat, k: nat)
    requires n <= |x.marks| == |x.groups| && |x'.marks| == |x'.groups| == |x.marks| && Drains(x, x')
    ensures RankUpto(x'.marks, x'.groups, n) <= RankUpto(x.marks, x.groups, n)
    ensures k < n && GroupRank(x'.marks[k], x'.groups[k]) < GroupRank(x.marks[k], x.groups[k]) ==>
      RankUpto(x'.marks, x'.groups, n) < RankUpto(x.marks, x.groups, n)
  {
    if n > 0 {
      RankFalls(x, x', n - 1, k);
      GroupRankFalls(x.marks[n - 1], x.groups[n - 1], x'.marks[n - 1], x'.groups[n - 1]);
    }
  }

  /** The ServerGroup on which a step makes progress in the release of PA a. */
  function ProgressAt(s: State, st: Step, a: PaId): Option<nat>
    requires a in s.slots
  {
    var x := s.slots[a];
    match st
    case FinishRemoval(b, i, _) => if b == a then Some(i) else None
    case Work(b, DrainServer(v)) =>
      if b == a && x.pc.Draining? && x.pc.note.Saw? && x.pc.note.i < |x.groups|
         && v in x.groups[x.pc.note.i] && !x.groups[x.pc.note.i][v]
      then Some(x.pc.note.i) else None
    case Work(b, MarkSeen) =>
      if b == a && x.pc.Draining? && x.pc.note.Saw? && !x.pc.note.found && x.pc.note.i < |x.marks|
         && !x.marks[x.pc.note.i].Clear?
      then Some(x.pc.note.i) else None
    case _ => None
  }

  predicate InRelease(x: Slot) {
    && x.phase.Releasing? && |x.groups| == |x.marks|
    && (x.pc.Idle? || x.pc.Started? || x.pc.Draining? || x.pc.Clearing? || x.pc.Freed? || x.pc.Resetting?)
  }

  lemma ReleasingIsInRelease(s: State, a: PaId)
    requires a in s.slots && SlotOk(a, s.slots[a], s) && s.slots[a].phase.Releasing?
    requires !s.slots[a].pc.Moving?
    ensures InRelease(s.slots[a])
  {
  }

  lemma OpDrains(s: State, a: PaId, op: Op)
    requires a in s.slots && InRelease(s.slots[a]) && OpEnabled(RELIABLE, s, a, op)
    ensures Drains(s.slots[a], OpSlot(RELIABLE, s, a, op))
  {
  }

  lemma OthersDrain(x: Slot, x': Slot)
    requires SlotRely(x, x')
    ensures Drains(x, x')
  {
    forall i | 0 <= i < |x.marks| && i < |x.groups|
      ensures GroupDrains(x.marks[i], x.groups[i], x'.marks[i], x'.groups[i])
    {
      assert GroupRely(x.groups[i], x'.groups[i]);
    }
  }

  /** No step of any run, by whomever, undoes progress of a release. */
  lemma ReleaseNeverRegresses(r: Run, st: Step, a: PaId)
    requires Legal(RELIABLE, r) && Enabled(RELIABLE, End(RELIABLE, r), st)
    requires a in End(RELIABLE, r).slots && End(RELIABLE, r).slots[a].phase.Releasing?
    ensures a in Apply(RELIABLE, End(RELIABLE, r), st).slots
    ensures Drains(End(RELIABLE, r).slots[a], Apply(RELIABLE, End(RELIABLE, r), st).slots[a])
  {
    RunsAreSafe(r);
    var s := End(RELIABLE, r);
    if ActsFor(st, a) {
      assert SlotOk(a, s.slots[a], s);
      ReleasingIsInRelease(s, a);
      OpDrains(s, a, st.op);
    } else {
      StepRely(s, st, a);
      OthersDrain(s.slots[a], Apply(RELIABLE, s, st).slots[a]);
    }
  }

  lemma RankShape(r: Run, a: PaId)
    requires Legal(RELIABLE, r) && a in End(RELIABLE, r).slots
    ensures |End(RELIABLE, r).slots[a].marks| == |End(RELIABLE, r).slots[a].groups|
  {
    RunsAreSafe(r);
    assert SlotOk(a, End(RELIABLE, r).slots[a], End(RELIABLE, r));
  }

  lemma ProgressLowers(s: State, st: Step, a: PaId)
    requires Inv(s) && Enabled(RELIABLE, s, st) && a in s.slots && s.slots[a].phase.Releasing?
    requires ProgressAt(s, st, a).Some?
    ensures var i, x, x' := ProgressAt(s, st, a).value, s.slots[a], Apply(RELIABLE, s, st).slots[a];
      && i < |x.marks| == |x.groups| && i < |x'.marks| == |x'.groups| && !x.marks[i].Clear?
      && (x'.marks[i].Clear? || x'.groups[i].Keys != x.groups[i].Keys || Unasked(x'.groups[i]) != Unasked(x.groups[i]))
  {
    var i, x, x' := ProgressAt(s, st, a).value, s.slots[a], Apply(RELIABLE, s, st).slots[a];
    assert SlotOk(a, x, s) && GroupOk(x, i);
    match st {
      case FinishRemoval(_, _, b) => assert b in x.groups[i] && b !in x'.groups[i];
      case Work(_, DrainServer(b)) => assert b in Unasked(x.groups[i]) && b !in Unasked(x'.groups[i]);
      case _ =>
    }
  }

  /** Any other step leaves the ServerGroups and their marks as they are. */
  lemma NoProgressKeeps(s: State, st: Step, a: PaId)
    requires Inv(s) && Enabled(RELIABLE, s, st) && a in s.slots && s.slots[a].phase.Releasing?
    requires ProgressAt(s, st, a).None?
    ensures a in Apply(RELIABLE, s, st).slots
    ensures Apply(RELIABLE, s, st).slots[a].marks == s.slots[a].marks
    ensures Apply(RELIABLE, s, st).slots[a].groups == s.slots[a].groups
  {
    assert SlotOk(a, s.slots[a], s);
    if ActsFor(st, a) {
      OwnNoProgressKeeps(s, a, st.op);
    }
  }

  lemma FreedIsEmpty(s: State, a: PaId)
    requires a in s.slots && SlotOk(a, s.slots[a], s) && s.slots[a].pc.Freed?
    ensures AllEmpty(s.slots[a])
  {
    var x := s.slots[a];
    forall i | 0 <= i < |x.groups| ensures x.groups[i] == map[] {
      assert GroupOk(x, i) && x.marks[i].Clear?;
    }
  }

  lemma OwnNoProgressKeeps(s: State, a: PaId, op: Op)
    requires a in s.slots && SlotOk(a, s.slots[a], s) && s.slots[a].phase.Releasing? && OpEnabled(RELIABLE, s, a, op)
    requires ProgressAt(s, Work(a, op), a).None?
    ensures OpSlot(RELIABLE, s, a, op).marks == s.slots[a].marks
    ensures OpSlot(RELIABLE, s, a, op).groups == s.slots[a].groups
  {
    var x := s.slots[a];
    if x.pc.Freed? {
      FreedIsEmpty(s, a);
    }
    match op {
      case DrainServer(b) =>
        var i := x.pc.note.i;
        assert x.groups[i][b := true] == x.groups[i];
      case MarkSeen =>
        if !x.pc.note.found {
          assert x.marks[x.pc.note.i := Clear] == x.marks;
        }
      case WriteAvailable => assert seq(|x.marks|, _ => Clear) == x.marks;
      case _ =>
    }
  }

  /** The rank never rises while the PA is Releasing, and falls exactly with the steps that make progress. */
  lemma ReleaseRank(r: Run, st: Step, a: PaId)
    requires Legal(RELIABLE, r) && Enabled(RELIABLE, End(RELIABLE, r), st)
    requires a in End(RELIABLE, r).slots && End(RELIABLE, r).slots[a].phase.Releasing?
    ensures var s, s' := End(RELIABLE, r), Apply(RELIABLE, End(RELIABLE, r), st);
      && a in s'.slots && |s.slots[a].marks| == |s.slots[a].groups| && |s'.slots[a].marks| == |s'.slots[a].groups|
      && Rank(s'.slots[a]) <= Rank(s.slots[a])
      && (ProgressAt(s, st, a).Some? <==> Rank(s'.slots[a]) < Rank(s.slots[a]))
  {
    var s, s' := End(RELIABLE, r), Apply(RELIABLE, End(RELIABLE, r), st);
    RankShape(r, a);
    ReleaseNeverRegresses(r, st, a);
    var x, x' := s.slots[a], s'.slots[a];
    if ProgressAt(s, st, a).Some? {
      RunsAreSafe(r);
      ProgressLowers(s, st, a);
      var k := ProgressAt(s, st, a).value;
      GroupRankFalls(x.marks[k], x.groups[k], x'.marks[k], x'.groups[k]);
      RankFalls(x, x', |x.marks|, k);
    } else {
      RunsAreSafe(r);
      NoProgressKeeps(s, st, a);
    }
  }

  /** From the end of run to the end of later, PA a is Releasing throughout. */
  ghost predicate StaysReleasing(later: Run, run: Run, a: PaId)
    requires Legal(RELIABLE, later) && Continues(later, run)
  {
    && a in End(RELIABLE, later).slots && End(RELIABLE, later).slots[a].phase.Releasing?
    && (later != run ==> StaysReleasing(later.before, run, a))
  }

  /** How many steps between run and later make progress in the release of PA a. */
  ghost function ProgressCount(later: Run, run: Run, a: PaId): nat
    requires Legal(RELIABLE, later) && Continues(later, run) && StaysReleasing(later, run, a)
  {
    if later == run then 0
    else
      ProgressCount(later.before, run, a)
      + if ProgressAt(End(RELIABLE, later.before), later.step, a).Some? then 1 else 0
  }

  /** A release takes at most as many steps of progress as its rank says, whatever else happens in between. */
  lemma {:induction false} ReleaseIsBounded(later: Run, run: Run, a: PaId)
    requires Legal(RELIABLE, later) && Continues(later, run) && StaysReleasing(later, run, a)
    ensures Legal(RELIABLE, run) && a in End(RELIABLE, run).slots
    ensures var x, x' := End(RELIABLE, run).slots[a], End(RELIABLE, later).slots[a];
      && |x.marks| == |x.groups| && |x'.marks| == |x'.groups|
      && ProgressCount(later, run, a) + Rank(x') <= Rank(x)
  {
    if later == run {
      RankShape(run, a);
    } else {
      ReleaseIsBounded(later.before, run, a);
      ReleaseRank(later.before, later.step, a);
    }
  }
}
