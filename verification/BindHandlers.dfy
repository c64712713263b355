/**
 The handlers of the PA controller as imperative code over the API server and the cloud.  Every call goes
 through one step of the protocol, other workers and the environment run between any two calls, and each
 call may be refused.  The contracts say what a handler leaves behind; Valid() says that whatever it did
 was a legal continuation of the run, so every theorem about runs holds at each point of it.  In a visit that
 is calm nobody else acts and no call is refused; for it the contracts also say how far the handler gets.
 */
module BindHandlers {
  import opened Options
  import opened BindModel
  import opened BindSafety
  import opened BindTheorems
  import opened BindRelease

  /** How the cloud answers a call. */
  datatype Reply = Accepted | Throttled | Failed

  ghost predicate AllRequested(x: Slot) {
    forall i :: 0 <= i < |x.groups| ==> Requested(x.groups[i])
  }

  /** The worker has prepared the versioned write op. */
  predicate WriteReady(x: Slot, op: Op) {
    match op
    case Reserve => x.pc.Chosen?
    case Undo => x.pc.Undoing?
    case Confirm => x.pc.Confirmed? && x.pc.newIP.Some?
    case WritePhase => x.pc.Moving?
    case EnterBound => x.pc == Attaching(Nothing) && x.AllMarked(Attached)
    case EnterDisabled => x.pc == Detaching(Nothing) && x.AllMarked(Clear)
    case Unreserve => x.pc.Freed?
    case WriteAvailable => x.pc.Resetting?
    case _ => false
  }

  /** State i + 1 of the trace follows from state i by move i. */
  ghost predicate Link(trace: seq<State>, moves: seq<Step>, i: nat)
    requires |trace| == |moves| + 1 && i < |moves|
  {
    Enabled(RELIABLE, trace[i], moves[i]) && trace[i + 1] == Apply(RELIABLE, trace[i], moves[i])
  }

  ghost predicate IsTrace(trace: seq<State>, moves: seq<Step>) {
    && |trace| == |moves| + 1 && trace[0] == INIT
    && forall i :: 0 <= i < |moves| ==> Link(trace, moves, i)
  }

  lemma TraceGrows(trace: seq<State>, moves: seq<Step>, step: Step, s: State)
    requires IsTrace(trace, moves) && Enabled(RELIABLE, trace[|moves|], step)
    requires s == Apply(RELIABLE, trace[|moves|], step)
    ensures IsTrace(trace + [s], moves + [step])
  {
    forall i | 0 <= i < |moves| + 1 ensures Link(trace + [s], moves + [step], i) {
      if i < |moves| {
        assert Link(trace, moves, i);
      }
    }
  }

  function RunOf(moves: seq<Step>): Run {
    if moves == [] then Begin else Then(RunOf(moves[..|moves| - 1]), moves[|moves| - 1])
  }

  lemma {:induction false} TraceIsRun(trace: seq<State>, moves: seq<Step>)
    requires IsTrace(trace, moves)
    ensures Legal(RELIABLE, RunOf(moves)) && End(RELIABLE, RunOf(moves)) == trace[|moves|]
  {
    if moves != [] {
      var n := |moves| - 1;
      assert moves[..n] + [moves[n]] == moves;
      var trace', moves' := trace[..n + 1], moves[..n];
      forall i | 0 <= i < n ensures Link(trace', moves', i) {
        assert Link(trace, moves, i);
      }
      TraceIsRun(trace', moves');
      assert Link(trace, moves, n);
    }
  }

  lemma TraceIsSafe(trace: seq<State>, moves: seq<Step>)
    requires IsTrace(trace, moves)
    ensures Inv(trace[|moves|])
  {
    TraceIsRun(trace, moves);
    RunsAreSafe(RunOf(moves));
  }

  /** With every mark "Bound" in Binding, every ServerGroup serves the pod. */
  lemma EnteredServing(a: PaId, s: State, mid: State)
    requires a in s.slots && SlotOk(a, s.slots[a], s) && Rely(a, s, mid)
    requires OpEnabled(RELIABLE, mid, a, EnterBound)
    ensures AllServing(OpSlot(RELIABLE, mid, a, EnterBound))
  {
    SlotStable(a, s, mid);
  }

  /** With every mark Clear and no add pending, every ServerGroup is empty. */
  lemma ClearedEmpty(a: PaId, s: State, mid: State)
    requires a in s.slots && SlotOk(a, s.slots[a], s) && Rely(a, s, mid)
    requires s.slots[a].AllMarked(Clear) && !s.slots[a].pc.Attaching?
    ensures AllEmpty(mid.slots[a])
  {
    SlotStable(a, s, mid);
    forall i | 0 <= i < |mid.slots[a].groups| ensures mid.slots[a].groups[i] == map[] {
      assert GroupOk(mid.slots[a], i) && mid.slots[a].marks[i].Clear?;
    }
  }

  /** A slot with n ServerGroups and a bound address. */
  predicate Shaped(x: Slot, n: nat) {
    |x.groups| == |x.marks| == |x.ports| == n && x.boundIP.Some?
  }

  /** The worker dealt with ServerGroup i; elsewhere only the cloud finished removals. */
  ghost predicate Tended(x0: Slot, x: Slot, i: nat) {
    && x.boundPod == x0.boundPod && x.boundIP == x0.boundIP && x.phase == x0.phase && x.ports == x0.ports
    && |x.marks| == |x0.marks| && |x.groups| == |x0.groups|
    && (forall j :: 0 <= j < |x.marks| && j != i ==> x.marks[j] == x0.marks[j])
    && (forall j :: 0 <= j < |x.groups| && j != i ==> GroupRely(x0.groups[j], x.groups[j]))
  }

  /** The PA a claim on pod p names does not exist or reserves another pod. */
  predicate IsStale(s: State, p: PodId, claim: PaId) {
    claim in s.slots ==> s.slots[claim].boundPod != Some(p)
  }

  predicate Unreserved(x: Slot) {
    x.boundPod.None? && x.boundIP.None?
  }

  /** A ServerGroup marked as empty is empty. */
  predicate ClearIsEmpty(x: Slot) {
    |x.marks| == |x.groups| && forall i :: 0 <= i < |x.groups| && x.marks[i].Clear? ==> x.groups[i] == map[]
  }

  predicate RankLower(x: Slot, x': Slot) {
    |x.marks| == |x.groups| && |x'.marks| == |x'.groups| && Rank(x') < Rank(x)
  }

  /** Asking a backend to leave that nobody had asked lowers the rank. */
  lemma AskingLowers(x: Slot, x': Slot)
    requires ClearIsEmpty(x) && Drains(x, x')
    ensures AllRequested(x') && !AllRequested(x) ==> RankLower(x, x')
  {
    if AllRequested(x') && !AllRequested(x) {
      var i :| 0 <= i < |x.groups| && !Requested(x.groups[i]);
      var b :| b in x.groups[i] && !x.groups[i][b];
      assert Requested(x'.groups[i]) && b in Unasked(x.groups[i]) && b !in Unasked(x'.groups[i]);
      GroupRankFalls(x.marks[i], x.groups[i], x'.marks[i], x'.groups[i]);
      RankFalls(x, x', |x.marks|, i);
    }
  }

  lemma TendedDrains(x0: Slot, x1: Slot, x2: Slot, i: nat)
    requires Drains(x0, x1) && Tended(x1, x2, i) && i < |x1.marks| == |x1.groups|
    requires GroupDrains(x1.marks[i], x1.groups[i], x2.marks[i], x2.groups[i])
    ensures Drains(x0, x2)
  {
    forall j | 0 <= j < |x0.marks| && j < |x0.groups|
      ensures GroupDrains(x0.marks[j], x0.groups[j], x2.marks[j], x2.groups[j])
    {
      assert GroupDrains(x0.marks[j], x0.groups[j], x1.marks[j], x1.groups[j]);
      assert j != i ==> GroupRely(x1.groups[j], x2.groups[j]);
    }
  }

  /** What a calm visit makes of a half-done bind: finished for the own or an unclaimed pod, undone otherwise. */
  predicate Resumed(a: PaId, s: State, x: Slot)
    requires a in s.slots && s.slots[a].boundPod.Some?
  {
    var x0 := s.slots[a];
    var p := x0.boundPod.value;
    if PodFound(x0, s.pods) && (s.pods[p].claim.None? || s.pods[p].claim == Some(a)) then
      && x.boundPod == Some(p)
      && if s.pods[p].ip.Some? then x.phase.Binding? && x.boundIP == s.pods[p].ip else x.phase.Available?
    else x.phase.Available? && x.boundPod.None?
  }

  /** The phase changes one reconcile can make, and what the ServerGroups look like after each. */
  ghost predicate PhaseStep(x0: Slot, x: Slot) {
    && (x.phase.Bound? && !x0.phase.Bound? ==> x0.phase.Binding? && AllServing(x))
    && (x.phase.Disabled? && !x0.phase.Disabled? ==> x0.phase.Bound? && AllEmpty(x))
    && (x.phase.Available? && !x0.phase.Available? ==> x0.phase.Releasing? && x.boundPod.None? && AllEmpty(x))
    && (x.phase.Binding? && !x0.phase.Binding? ==> x0.phase.Available? || x0.phase.Disabled?)
    && (x.phase.Releasing? && !x0.phase.Releasing? ==> !x0.phase.Available?)
    && (!x0.phase.Available? && !x0.phase.Releasing? ==> x.boundPod == x0.boundPod && x.boundIP == x0.boundIP)
  }

  /** A calm visit moves each mark of a Binding PA on by one. */
  predicate Attached1(m: Mark, m': Mark) {
    if m.Clear? || m.Removing? then m'.Adding? else m'.Attached?
  }

  predicate HasPorts(x: Slot) {
    forall i :: 0 <= i < |x.ports| ==> x.ports[i] != 0
  }

  /** The removal of the bound pod is recorded for every ServerGroup, or has been confirmed. */
  predicate AllDetaching(x: Slot) {
    forall i :: 0 <= i < |x.marks| ==> x.marks[i].Clear? || x.marks[i].Removing?
  }

  class Controller {
    var st: State
    ghost var trace: seq<State>
    ghost var moves: seq<Step>

    /** The current state is the end of a legal run from the empty cluster. */
    ghost predicate Valid()
      reads this
    {
      IsTrace(trace, moves) && st == trace[|moves|]
    }

    /** The slot of PA a satisfies the protocol invariant. */
    lemma SlotIsOk(a: PaId)
      requires Valid() && a in st.slots
      ensures SlotOk(a, st.slots[a], st)
    {
      TraceIsSafe(trace, moves);
    }

    /** A poll of an added server finds it. */
    lemma AddedIsFound(a: PaId)
      requires Valid() && a in st.slots
      ensures st.slots[a].pc.Attaching? && st.slots[a].pc.note.Saw? ==> st.slots[a].pc.note.found
    {
      SlotIsOk(a);
    }

    lemma FreedIsUnclaimed(a: PaId)
      requires Valid() && a in st.slots && st.slots[a].pc.Freed?
      ensures st.slots[a].AllMarked(Clear) && (st.slots[a].boundPod.Some? ==> Unclaimed(a, st.slots[a], st.pods))
    {
      SlotIsOk(a);
    }

    lemma BindingHoldsClaim(a: PaId)
      requires Valid() && a in st.slots && st.slots[a].phase.Binding?
      ensures var x := st.slots[a];
        && x.boundIP.Some? && x.boundPod.Some? && x.boundPod.value in st.pods
        && (PodFound(x, st.pods) ==> ClaimSeen(a, x, st.pods))
    {
      SlotIsOk(a);
    }

    lemma ConfirmedHolds(a: PaId)
      requires Valid() && a in st.slots && st.slots[a].pc.Confirmed?
      ensures Holds(a, st.slots[a], st.pods)
    {
      SlotIsOk(a);
    }

    lemma BoundIsShaped(a: PaId)
      requires Valid() && a in st.slots && (st.slots[a].pc.Attaching? || st.slots[a].phase.Bound?)
      ensures Shaped(st.slots[a], |st.slots[a].marks|)
    {
      SlotIsOk(a);
    }

    lemma DetachingIsRequested(a: PaId)
      requires Valid() && a in st.slots && AllDetaching(st.slots[a]) && st.slots[a].pc.Idle?
      ensures AllRequested(st.slots[a])
    {
      SlotIsOk(a);
      forall i | 0 <= i < |st.slots[a].groups| ensures Requested(st.slots[a].groups[i]) {
        assert GroupOk(st.slots[a], i);
      }
    }

    /** The worker of PA a has just read its PA in the given phase. */
    ghost predicate Ready(a: PaId, phase: Phase)
      reads this
    {
      Valid() && a in st.slots && st.slots[a].pc.Started? && st.slots[a].phase == phase && st.slots[a].Current()
    }

    /** The run went on, and the worker of PA a is between reconciles. */
    ghost predicate Done(a: PaId, before: seq<Step>)
      reads this
    {
      Valid() && before <= moves && a in st.slots && st.slots[a].pc.Idle?
    }

    constructor ()
      ensures Valid() && st == INIT && moves == []
    {
      st := INIT;
      trace := [INIT];
      moves := [];
    }

    /** One step of the protocol. */
    method Take(step: Step)
      requires Valid() && Enabled(RELIABLE, st, step)
      modifies this
      ensures Valid() && moves == old(moves) + [step] && st == Apply(RELIABLE, old(st), step)
    {
      TraceGrows(trace, moves, step, Apply(RELIABLE, st, step));
      st := Apply(RELIABLE, st, step);
      trace := trace + [st];
      moves := moves + [step];
    }

    /** One call by the worker of PA a. */
    method Call(a: PaId, op: Op)
      requires Valid() && a in st.slots && OpEnabled(RELIABLE, st, a, op)
      modifies this
      ensures Valid() && old(moves) <= moves
      ensures a in st.slots && st.slots[a] == OpSlot(RELIABLE, old(st), a, op)
      ensures st.pods == OpPods(RELIABLE, old(st), a, op)
    {
      Take(Work(a, op));
    }

    /** Other workers and the environment take any steps they can. */
    method Interfere(a: PaId, calm: bool)
      requires Valid() && a in st.slots
      modifies this
      ensures Valid() && old(moves) <= moves
      ensures Rely(a, old(st), st) && (calm ==> st == old(st))
    {
      var steps: seq<Step> := *;
      if calm {
        return;
      }
      for n := 0 to |steps|
        invariant Valid() && a in st.slots && old(moves) <= moves && Rely(a, old(st), st)
      {
        if Enabled(RELIABLE, st, steps[n]) && !ActsFor(steps[n], a) {
          ghost var here := st;
          TraceIsSafe(trace, moves);
          StepRely(here, steps[n], a);
          Take(steps[n]);
          RelyComposes(a, old(st), here, st);
        }
      }
    }

    /** Interference, for the parts of a handler that do not look at pods. */
    method Pause(a: PaId, calm: bool)
      requires Valid() && a in st.slots
      modifies this
      ensures Valid() && old(moves) <= moves && a in st.slots && SlotRely(old(st.slots[a]), st.slots[a])
      ensures calm ==> st == old(st)
    {
      Interfere(a, calm);
    }

    /** Whether a read succeeds. */
    method Reads(calm: bool) returns (ok: bool)
      ensures calm ==> ok
    {
      ok := *;
      ok := ok || calm;
    }

    /** A versioned write of the PA: refused when somebody else has written the object since it was read. */
    method Commit(a: PaId, op: Op, calm: bool) returns (ok: bool, ghost mid: State)
      requires Valid() && a in st.slots && WriteReady(st.slots[a], op)
      modifies this
      ensures Valid() && old(moves) <= moves && Rely(a, old(st), mid) && a in st.slots
      ensures st.pods == mid.pods
      ensures calm ==> mid == old(st) && (old(st.slots[a].Current()) ==> ok)
      ensures ok ==> mid.slots[a].known == mid.slots[a].ver
      ensures if ok then OpEnabled(RELIABLE, mid, a, op) && st.slots[a] == OpSlot(RELIABLE, mid, a, op)
              else st.slots[a] == mid.slots[a].At(Idle)
    {
      Interfere(a, calm);
      mid := st;
      var accepted: bool := *;
      ok := (calm || accepted) && st.slots[a].Current();
      if ok {
        Call(a, op);
      } else {
        Call(a, Stop);
      }
    }

    // -------------------------------------------------------------------------
    // Available
    // -------------------------------------------------------------------------

    /**
     handleAvailable.  failed tells that a write of the PA was refused or the reserved pod could not be read.  Without
     that, a visit leaves no reservation unless the pod claims this PA: whoever loses the race for a pod ends with its
     reservation undone.  A calm visit of a PA without a pod binds exactly when some listed pod is acceptable.
     */
    method HandleAvailable(a: PaId, calm: bool) returns (failed: bool)
      requires Ready(a, Available)
      modifies this
      ensures Done(a, old(moves))
      ensures var x := st.slots[a];
        if x.phase.Available? then !failed ==> Unreserved(x) || Holds(a, x, st.pods)
        else x.phase.Binding? && Holds(a, x, st.pods)
      ensures !failed && old(st.slots[a].boundPod).None? && st.slots[a].phase.Available? ==> Unreserved(st.slots[a])
      ensures calm ==> !failed
      ensures calm && old(st.slots[a].boundPod).None? ==>
        (st.slots[a].phase.Binding? <==>
           exists p :: p in old(st.pods) && Claimable(RELIABLE, old(st), a, p, old(st.pods)[p]))
      ensures calm && old(st.slots[a].boundPod).None? && st.slots[a].phase.Binding? ==>
        var p, pods := st.slots[a].boundPod.value, old(st.pods);
        && p in pods && pods[p].alive && pods[p].pooled && pods[p].ip.Some? && st.slots[a].boundIP == pods[p].ip
        && (pods[p].claim.Some? && pods[p].claim != Some(a) ==> IsStale(old(st), p, pods[p].claim.value))
      ensures calm && old(st.slots[a].boundPod).None? && st.slots[a].phase.Available? ==>
        forall p :: p in old(st.pods) ==>
          var pod := old(st.pods)[p];
          || !pod.alive || !pod.pooled || pod.ip.None?
          || (pod.claim.Some? && pod.claim != Some(a) && !IsStale(old(st), p, pod.claim.value))
      ensures calm && old(st.slots[a].boundPod).Some? ==> Resumed(a, old(st), st.slots[a])
    {
      if st.slots[a].boundPod.Some? {
        failed := AvailableResumeBind(a, calm);
        return;
      }
      SlotIsOk(a);
      var found := FindCandidate(a, calm);
      if !found {
        Call(a, Stop);
        return false;
      }
      failed := ReserveAndClaim(a, calm);
    }

    /**
     The two compare-and-swap writes of handleAvailable, first the PA, then the pod, and the phase.  When the pod's
     write is refused the reservation is rolled back, unless that write meets a failed in turn.
     */
    method ReserveAndClaim(a: PaId, calm: bool) returns (failed: bool)
      requires Valid() && a in st.slots && st.slots[a].pc.Chosen? && st.slots[a].phase.Available?
      modifies this
      ensures Done(a, old(moves))
      ensures var x, x0 := st.slots[a], old(st.slots[a]);
        if x.phase.Available? then !failed ==> Unreserved(x)
        else x.phase.Binding? && Holds(a, x, st.pods)
      ensures calm && old(st.slots[a].Current()) ==> !failed
      ensures var x, x0 := st.slots[a], old(st.slots[a]);
        calm && x0.Current() && x0.pc.pod in old(st.pods) && old(st.pods)[x0.pc.pod].alive
        && old(st.pods)[x0.pc.pod].ver == x0.pc.podVer ==>
          x.phase.Binding? && x.boundPod == Some(x0.pc.pod) && x.boundIP == Some(x0.pc.ip)
    {
      var ok; ghost var mid;
      ok, mid := Commit(a, Reserve, calm);
      if !ok {
        return true;
      }
      Interfere(a, calm);
      var accepted: bool := *;
      if (calm || accepted) && OpEnabled(RELIABLE, st, a, ClaimPod) {
        Call(a, ClaimPod);
        ok, mid := Commit(a, WritePhase, calm);
      } else {
        // the pod was written since it was listed: roll the reservation back
        Call(a, ClaimFails);
        ok, mid := Commit(a, Undo, calm);
      }
      return !ok;
    }

    /** The loop over the pod list. */
    method FindCandidate(a: PaId, calm: bool) returns (found: bool)
      requires Ready(a, Available) && st.slots[a].boundPod.None?
      modifies this
      ensures Valid() && old(moves) <= moves && a in st.slots
      ensures st.slots[a].phase.Available? && st.slots[a].boundPod.None?
      ensures st.slots[a].boundIP == old(st.slots[a].boundIP)
      ensures if found then st.slots[a].pc.Chosen? else st.slots[a].pc.Listed? || st.slots[a].pc.Started?
      ensures calm ==> st.pods == old(st.pods) && st.slots[a].Current()
      ensures calm && found ==> var pc := st.slots[a].pc;
        pc.pod in st.pods && st.pods[pc.pod].alive && st.pods[pc.pod].ver == pc.podVer
      ensures calm && found ==>
        var pc := st.slots[a].pc; var pod := st.pods[pc.pod];
        && pod.pooled && pod.ip == Some(pc.ip)
        && (pod.claim.Some? && pod.claim != Some(a) ==> IsStale(old(st), pc.pod, pod.claim.value))
      ensures calm ==>
        (found <==> exists p :: p in old(st.pods) && Claimable(RELIABLE, old(st), a, p, old(st.pods)[p]))
    {
      Interfere(a, calm);
      var listed := Reads(calm);
      if !listed {
        return false;
      }
      Take(Work(a, ListPods));
      var pods := st.slots[a].pc.pods;
      var rest := pods.Keys;
      while rest != {}
        invariant Valid() && old(moves) <= moves && a in st.slots && rest <= pods.Keys
        invariant st.slots[a].phase.Available? && st.slots[a].boundPod.None? && st.slots[a].pc == Listed(pods)
        invariant st.slots[a].boundIP == old(st.slots[a].boundIP)
        invariant calm ==> pods == st.pods == old(st.pods) && st.slots[a].Current()
        invariant calm ==> st.slots == old(st.slots)[a := old(st.slots[a]).At(Listed(pods))]
        invariant calm ==> forall p :: p in pods && p !in rest ==> !Claimable(RELIABLE, old(st), a, p, pods[p])
        decreases rest
      {
        var p :| p in rest;
        rest := rest - {p};
        if !pods[p].alive || !pods[p].pooled || pods[p].ip.None? {
          continue;
        }
        if pods[p].claim.Some? && pods[p].claim != Some(a) {
          // Get the PA the claim names
          Interfere(a, calm);
        }
        if Claimable(RELIABLE, st, a, p, pods[p]) {
          Call(a, Choose(p));
          return true;
        }
      }
      return false;
    }

    /** The first half of availableResumeBind: read the reserved pod and settle whose claim it carries. */
    method ResolveClaim(a: PaId, calm: bool) returns (read: bool)
      requires Ready(a, Available) && st.slots[a].boundPod.Some?
      modifies this
      ensures Valid() && old(moves) <= moves && a in st.slots
      ensures var x := st.slots[a];
        && x.phase.Available?
        && if read then x.pc.Undoing? || (x.pc.Confirmed? && Holds(a, x, st.pods)) else x.pc.Started?
      ensures calm ==> read
      ensures calm ==> var x, x0, pods := st.slots[a], old(st.slots[a]), old(st.pods);
        && x.Current() && x == x0.At(x.pc)
        && (x.pc.Confirmed? <==>
              PodFound(x0, pods) && (pods[x0.boundPod.value].claim.None? || pods[x0.boundPod.value].claim == Some(a)))
        && (x.pc.Confirmed? ==> x.pc.newIP == pods[x0.boundPod.value].ip)
    {
      Interfere(a, calm);
      read := Reads(calm);
      if !read {
        return;
      }
      Call(a, ReadBound);
      if st.slots[a].pc.Resuming? {
        var seen := st.slots[a].pc.seen;
        if seen.claim.Some? {
          Interfere(a, calm);
          Call(a, ResumeDecide);
        } else {
          ClaimAgain(a, calm);
        }
      }
      if st.slots[a].pc.Confirmed? {
        ConfirmedHolds(a);
      }
    }

    /** The repeated pod write of a resumed bind; whatever refuses it undoes the reservation. */
    method ClaimAgain(a: PaId, calm: bool)
      requires Valid() && a in st.slots && st.slots[a].pc.Resuming? && st.slots[a].pc.seen.claim.None?
      modifies this
      ensures Valid() && old(moves) <= moves && a in st.slots
      ensures var x, x0 := st.slots[a], old(st.slots[a]);
        && x.phase == x0.phase && (x.pc.Undoing? || x.pc == Confirmed(x0.pc.seen.ip))
      ensures calm ==> var x, x0, pods := st.slots[a], old(st.slots[a]), old(st.pods);
        && x == x0.At(x.pc)
        && (x.pc.Confirmed? <==> x0.pc.pod in pods && pods[x0.pc.pod].alive && pods[x0.pc.pod].ver == x0.pc.seen.ver)
    {
      Interfere(a, calm);
      var accepted: bool := *;
      if (calm || accepted) && OpEnabled(RELIABLE, st, a, ResumeClaim) {
        Call(a, ResumeClaim);
      } else {
        Call(a, ResumeFails);
      }
    }

    /** availableResumeBind: finish or undo a half-done bind. */
    method AvailableResumeBind(a: PaId, calm: bool) returns (failed: bool)
      requires Ready(a, Available) && st.slots[a].boundPod.Some?
      modifies this
      ensures Done(a, old(moves))
      ensures var x := st.slots[a];
        if x.phase.Available? then !failed ==> Unreserved(x) || Holds(a, x, st.pods)
        else x.phase.Binding? && Holds(a, x, st.pods)
      ensures calm ==> !failed
      ensures calm ==> Resumed(a, old(st), st.slots[a])
    {
      var ok; ghost var mid;
      var read := ResolveClaim(a, calm);
      if !read {
        Call(a, Stop);
        return true;
      }
      if st.slots[a].pc.Undoing? {
        ok, mid := Commit(a, Undo, calm);
        return !ok;
      }
      if st.slots[a].pc.newIP.None? {
        // the pod has no address yet: keep the claim and look again later
        Call(a, Stop);
        return false;
      }
      ok, mid := Commit(a, Confirm, calm);
      if ok {
        ok, mid := Commit(a, WritePhase, calm);
      }
      return !ok;
    }

    // -------------------------------------------------------------------------
    // Binding
    // -------------------------------------------------------------------------

    /**
     handleBinding: Bound only with every ServerGroup serving the pod; given up only when the pod is gone.  A calm
     visit moves every serverStatus on by one; BindingCompletes puts two of them together.
     */
    method HandleBinding(a: PaId, calm: bool)
      requires Ready(a, Binding)
      modifies this
      ensures Done(a, old(moves))
      ensures var x := st.slots[a];
        && x.boundPod == old(st.slots[a].boundPod) && x.boundIP == old(st.slots[a].boundIP)
        && (x.phase.Binding? || (x.phase.Bound? && AllServing(x)) || (x.phase.Releasing? && !PodFound(x, st.pods)))
      ensures calm && !PodFound(old(st.slots[a]), old(st.pods)) ==> st.slots[a].phase.Releasing?
      ensures calm && st.slots[a].phase.Releasing? && old(st.slots[a].boundPod).Some? ==>
        var p := old(st.slots[a].boundPod).value; p !in old(st.pods) || !old(st.pods)[p].alive
      ensures calm && PodFound(old(st.slots[a]), old(st.pods)) && HasPorts(old(st.slots[a])) ==>
        && |st.slots[a].marks| == |old(st.slots[a].marks)|
        && (forall i :: 0 <= i < |st.slots[a].marks| ==> Attached1(old(st.slots[a].marks[i]), st.slots[a].marks[i]))
        && (st.slots[a].AllMarked(Attached) ==> st.slots[a].phase.Bound?)
      ensures calm ==> st.pods == old(st.pods) && st.slots[a].ports == old(st.slots[a].ports)
    {
      var ok; ghost var mid;
      Interfere(a, calm);
      var read := Reads(calm);
      if !read {
        Call(a, Stop);
        return;
      }
      BindingHoldsClaim(a);
      Call(a, Verify);
      if st.slots[a].pc.Moving? {
        ok, mid := Commit(a, WritePhase, calm);
        return;
      }
      var allBound := AttachAll(a, calm);
      if allBound {
        BecomeBound(a, calm);
      } else {
        Call(a, Stop);
      }
    }

    /** Two calm visits bring a PA whose pod lives from Binding to Bound. */
    method BindingCompletes(a: PaId)
      requires Valid() && a in st.slots && st.slots[a].phase.Binding? && st.slots[a].pc.Idle?
      requires PodFound(st.slots[a], st.pods) && HasPorts(st.slots[a])
      modifies this
      ensures Done(a, old(moves)) && st.slots[a].phase.Bound? && AllServing(st.slots[a])
      ensures st.slots[a].boundPod == old(st.slots[a].boundPod) && st.slots[a].boundIP == old(st.slots[a].boundIP)
    {
      Call(a, Start);
      HandleBinding(a, true);
      if st.slots[a].phase.Binding? {
        Call(a, Start);
        HandleBinding(a, true);
      }
    }

    /** The status write that enters Bound. */
    method BecomeBound(a: PaId, calm: bool)
      requires Valid() && a in st.slots && st.slots[a].phase.Binding?
      requires st.slots[a].pc == Attaching(Nothing) && st.slots[a].AllMarked(Attached)
      modifies this
      ensures Done(a, old(moves))
      ensures var x, x0 := st.slots[a], old(st.slots[a]);
        && x.boundPod == x0.boundPod && x.boundIP == x0.boundIP && x.marks == x0.marks
        && (x.phase.Binding? || (x.phase.Bound? && AllServing(x)))
        && (calm && x0.Current() ==> x.phase.Bound?)
      ensures calm ==> st.pods == old(st.pods) && st.slots[a].ports == old(st.slots[a].ports)
    {
      SlotIsOk(a);
      ghost var checked := st;
      var ok; ghost var mid;
      ok, mid := Commit(a, EnterBound, calm);
      if ok {
        EnteredServing(a, checked, mid);
      }
    }

    /** Lists ServerGroup i for the bound address and records the answer; ok is false when the patch was refused. */
    method PollOne(a: PaId, i: nat, calm: bool) returns (ok: bool)
      requires Valid() && a in st.slots && Shaped(st.slots[a], |st.slots[a].marks|) && i < |st.slots[a].marks|
      requires var x := st.slots[a];
        (x.pc == Attaching(Nothing) && x.marks[i].Adding?) || (x.pc == Detaching(Nothing) && x.marks[i].Removing?)
      modifies this
      ensures Valid() && old(moves) <= moves && a in st.slots && Tended(old(st.slots[a]), st.slots[a], i)
      ensures var x, x0 := st.slots[a], old(st.slots[a]);
        && (if x0.pc.Attaching? then x.pc.Attaching? && !x.pc.note.Added? else x.pc.Detaching?)
        && (ok ==> x.pc == x0.pc)
        && (x.marks[i] == x0.marks[i] || x.marks[i] == (if x0.pc.Attaching? then Attached else Clear)
            || (x0.pc.Attaching? && x.marks[i].Clear?))
      ensures calm ==> ok && (old(st.slots[a].Current()) ==> st.slots[a].Current())
      ensures old(st.slots[a].groups[i]) == map[] ==> st.slots[a].groups[i] == map[]
      ensures calm ==> if st.slots[a].pc.Attaching? then st.slots[a].marks[i].Attached?
        else st.slots[a].groups == old(st.slots[a].groups)
             && (st.slots[a].groups[i] == map[] ==> st.slots[a].marks[i].Clear?)
      ensures calm ==> st.pods == old(st.pods) && st.slots[a].ports == old(st.slots[a].ports)
    {
      Pause(a, calm);
      Call(a, Poll(i));
      AddedIsFound(a);
      ok := RecordSeen(a, i, calm);
    }

    /** The patch that records what a List showed; it may be refused. */
    method RecordSeen(a: PaId, i: nat, calm: bool) returns (ok: bool)
      requires Valid() && a in st.slots && Shaped(st.slots[a], |st.slots[a].marks|) && i < |st.slots[a].marks|
      requires var x := st.slots[a]; (x.pc.Attaching? || x.pc.Detaching?) && x.pc.note.Saw? && x.pc.note.i == i
      modifies this
      ensures Valid() && old(moves) <= moves && a in st.slots && Tended(old(st.slots[a]), st.slots[a], i)
      ensures var x, x0 := st.slots[a], old(st.slots[a]);
        && x.pc == (if !ok then x0.pc else if x0.pc.Attaching? then Attaching(Nothing) else Detaching(Nothing))
        && GroupRely(x0.groups[i], x.groups[i])
        && x.marks[i] == (if !ok || (x0.pc.Detaching? && x0.pc.note.found) then x0.marks[i]
                          else if x0.pc.Attaching? && x0.pc.note.found then Attached else Clear)
      ensures calm ==> ok && st.slots[a].groups == old(st.slots[a].groups)
      ensures calm && old(st.slots[a].Current()) ==> st.slots[a].Current()
      ensures calm ==> st.pods == old(st.pods) && st.slots[a].ports == old(st.slots[a].ports)
    {
      ok := *;
      ok := ok || calm;
      Pause(a, calm);
      if ok {
        Call(a, MarkSeen);
      }
    }

    /** Registers the bound pod in ServerGroup i, or finds it registered (a duplicate), and records "Adding". */
    method AddOne(a: PaId, i: nat, calm: bool)
      requires Valid() && a in st.slots && Shaped(st.slots[a], |st.slots[a].marks|) && i < |st.slots[a].marks|
      requires var x := st.slots[a];
        x.pc == Attaching(Nothing) && (x.marks[i].Clear? || x.marks[i].Removing?) && x.ports[i] != 0
      modifies this
      ensures Valid() && old(moves) <= moves && a in st.slots && Tended(old(st.slots[a]), st.slots[a], i)
      ensures st.slots[a].pc == Attaching(Nothing) && st.slots[a].marks[i].Adding?
      ensures calm && old(st.slots[a].Current()) ==> st.slots[a].Current()
      ensures calm ==> st.pods == old(st.pods) && st.slots[a].ports == old(st.slots[a].ports)
    {
      Pause(a, calm);
      Call(a, AddServer(i));
      Pause(a, calm);
      Call(a, MarkAdding);
    }

    /** The loop of handleBinding; the result is its allBound flag, false also when it returned early. */
    method AttachAll(a: PaId, calm: bool) returns (allBound: bool)
      requires Valid() && a in st.slots && st.slots[a].pc == Attaching(Nothing)
      modifies this
      ensures Valid() && old(moves) <= moves && a in st.slots
      ensures var x, x0 := st.slots[a], old(st.slots[a]);
        && x.boundPod == x0.boundPod && x.boundIP == x0.boundIP && x.phase == x0.phase
        && x.pc.Attaching? && !x.pc.note.Added?
        && (allBound ==> x.pc == Attaching(Nothing) && x.AllMarked(Attached))
      ensures var x, x0 := st.slots[a], old(st.slots[a]);
        calm && x0.Current() && HasPorts(x0) ==>
          && x.Current() && |x.marks| == |x0.marks| && (x.AllMarked(Attached) ==> allBound)
          && forall i :: 0 <= i < |x.marks| ==> Attached1(x0.marks[i], x.marks[i])
      ensures calm ==> st.pods == old(st.pods) && st.slots[a].ports == old(st.slots[a].ports)
    {
      allBound := true;
      var n := |st.slots[a].marks|;
      BoundIsShaped(a);
      for i := 0 to n
        invariant Valid() && old(moves) <= moves && a in st.slots && Shaped(st.slots[a], n)
        invariant var x, x0 := st.slots[a], old(st.slots[a]);
          x.boundPod == x0.boundPod && x.boundIP == x0.boundIP && x.phase == x0.phase && x.pc == Attaching(Nothing)
        invariant allBound ==> forall j :: 0 <= j < i ==> st.slots[a].marks[j].Attached?
        invariant st.slots[a].ports == old(st.slots[a].ports) && (calm ==> st.pods == old(st.pods))
        invariant forall j :: i <= j < n ==> st.slots[a].marks[j] == old(st.slots[a]).marks[j]
        invariant calm && old(st.slots[a].Current()) ==> st.slots[a].Current()
        invariant calm ==> forall j :: 0 <= j < i ==> Attached1(old(st.slots[a]).marks[j], st.slots[a].marks[j])
        invariant calm && (forall j :: 0 <= j < i ==> st.slots[a].marks[j].Attached?) ==> allBound
      {
        var mark, reply: Reply := st.slots[a].marks[i], *;
        if mark.Attached? {
          continue;
        }
        if !mark.Adding? && st.slots[a].ports[i] == 0 {
          return false;
        }
        if !calm && reply.Throttled? {
          allBound := false;
          continue;
        }
        if !calm && reply.Failed? {
          return false;
        }
        if mark.Adding? {
          var ok := PollOne(a, i, calm);
          if !ok {
            return false;
          }
          allBound := allBound && st.slots[a].marks[i].Attached?;
        } else {
          AddOne(a, i, calm);
          allBound := false;
        }
      }
    }

    // -------------------------------------------------------------------------
    // Bound and Disabled
    // -------------------------------------------------------------------------

    /** handleBound; a disabled pod is detached, a lost or withdrawn one leads to Releasing. */
    method HandleBound(a: PaId, calm: bool)
      requires Ready(a, Bound)
      modifies this
      ensures Done(a, old(moves))
      ensures var x, x0 := st.slots[a], old(st.slots[a]);
        && x.boundPod == x0.boundPod && x.boundIP == x0.boundIP
        && (x.phase.Bound? || x.phase.Releasing? || (x.phase.Disabled? && AllEmpty(x)))
      ensures calm ==> var x, x0, pods := st.slots[a], old(st.slots[a]), old(st.pods);
        if !PodFound(x0, pods) then x.phase.Releasing?
        else if pods[x0.boundPod.value].disabled then
          (x.phase.Disabled? || (x.phase.Bound? && AllRequested(x))) && (AllEmpty(x0) ==> x.phase.Disabled?)
        else if !pods[x0.boundPod.value].pooled then x.phase.Releasing?
        else x == x0.At(Idle)
      ensures calm ==> st.pods == old(st.pods)
    {
      var ok; ghost var mid;
      Interfere(a, calm);
      var read := Reads(calm);
      if !read {
        Call(a, Stop);
        return;
      }
      SlotIsOk(a);
      Call(a, CheckBound);
      if st.slots[a].pc.Detaching? {
        HandleDisable(a, calm);
      } else if st.slots[a].pc.Moving? {
        ok, mid := Commit(a, WritePhase, calm);
      }
    }

    /**
     handleDisable: Disabled is entered only with every ServerGroup empty.  A calm visit requests every removal, and
     enters Disabled once the ServerGroups are empty.
     */
    method HandleDisable(a: PaId, calm: bool)
      requires Valid() && a in st.slots && st.slots[a].pc == Detaching(Nothing) && st.slots[a].phase.Bound?
      modifies this
      ensures Done(a, old(moves))
      ensures var x, x0 := st.slots[a], old(st.slots[a]);
        && x.boundPod == x0.boundPod && x.boundIP == x0.boundIP
        && (x.phase.Bound? || (x.phase.Disabled? && AllEmpty(x)))
      ensures var x, x0 := st.slots[a], old(st.slots[a]);
        calm && x0.Current() ==> (x.phase.Disabled? || AllRequested(x)) && (AllEmpty(x0) ==> x.phase.Disabled?)
      ensures calm ==> st.pods == old(st.pods)
    {
      var ok; ghost var mid;
      var allClear := DetachAll(a, calm);
      if !allClear {
        Call(a, Stop);
        if AllDetaching(st.slots[a]) {
          DetachingIsRequested(a);
        }
        return;
      }
      SlotIsOk(a);
      ghost var checked := st;
      ok, mid := Commit(a, EnterDisabled, calm);
      if ok {
        ClearedEmpty(a, checked, mid);
      }
    }

    /**
     Disabling terminates: a calm visit of a Bound PA whose pod is disabled, the cloud finishing what it accepted, and a
     second calm visit reach Disabled.
     */
    method DisableCompletes(a: PaId)
      requires Valid() && a in st.slots && st.slots[a].phase.Bound? && st.slots[a].pc.Idle?
      requires PodFound(st.slots[a], st.pods) && st.pods[st.slots[a].boundPod.value].disabled
      modifies this
      ensures Done(a, old(moves)) && st.slots[a].phase.Disabled? && AllEmpty(st.slots[a])
      ensures st.slots[a].boundPod == old(st.slots[a].boundPod) && st.slots[a].boundIP == old(st.slots[a].boundIP)
    {
      Call(a, Start);
      HandleBound(a, true);
      if st.slots[a].phase.Bound? {
        FinishRemovals(a);
        Call(a, Start);
        HandleBound(a, true);
      }
    }

    /**
     Requests the removal of the bound pod from ServerGroup i and records it; an absent server is already done.  When
     the patch is refused the status stays as it was.
     */
    method RemoveOne(a: PaId, i: nat, calm: bool) returns (ok: bool)
      requires Valid() && a in st.slots && Shaped(st.slots[a], |st.slots[a].marks|) && i < |st.slots[a].marks|
      requires var x := st.slots[a]; x.pc == Detaching(Nothing) && (x.marks[i].Adding? || x.marks[i].Attached?)
      modifies this
      ensures Valid() && old(moves) <= moves && a in st.slots && Tended(old(st.slots[a]), st.slots[a], i)
      ensures st.slots[a].pc.Detaching?
      ensures var x := st.slots[a];
        if ok then x.pc == Detaching(Nothing) && (x.marks[i].Removing? || x.marks[i].Clear?)
        else x.marks[i] == old(st.slots[a].marks[i])
      ensures calm ==> ok && (old(st.slots[a].Current()) ==> st.slots[a].Current())
      ensures old(st.slots[a].groups[i]) == map[] ==>
        st.slots[a].groups[i] == map[] && (ok ==> st.slots[a].marks[i].Clear?)
      ensures calm ==> st.pods == old(st.pods)
    {
      Pause(a, calm);
      Call(a, RemoveServer(i));
      ok := RecordRemoval(a, i, calm);
    }

    /** The patch that follows a removal call; it may be refused. */
    method RecordRemoval(a: PaId, i: nat, calm: bool) returns (ok: bool)
      requires Valid() && a in st.slots && i < |st.slots[a].marks| && |st.slots[a].groups| == |st.slots[a].marks|
      requires st.slots[a].pc == Detaching(Removed(i)) || st.slots[a].pc == Detaching(Saw(i, false))
      modifies this
      ensures Valid() && old(moves) <= moves && a in st.slots && Tended(old(st.slots[a]), st.slots[a], i)
      ensures st.slots[a].pc == if ok then Detaching(Nothing) else old(st.slots[a].pc)
      ensures st.slots[a].marks[i] ==
        if !ok then old(st.slots[a].marks[i]) else if old(st.slots[a].pc.note).Removed? then Removing else Clear
      ensures calm ==> ok && (old(st.slots[a].Current()) ==> st.slots[a].Current())
      ensures old(st.slots[a].groups[i]) == map[] ==> st.slots[a].groups[i] == map[]
      ensures calm ==> st.pods == old(st.pods)
    {
      Pause(a, calm);
      ok := *;
      ok := ok || calm;
      if ok && st.slots[a].pc.note.Removed? {
        Call(a, MarkRemoving);
      } else if ok {
        Call(a, MarkSeen);
      }
    }

    /** One ServerGroup of handleDisable: poll a requested removal, or request it. */
    method DetachOne(a: PaId, i: nat, calm: bool) returns (ok: bool)
      requires Valid() && a in st.slots && Shaped(st.slots[a], |st.slots[a].marks|) && i < |st.slots[a].marks|
      requires st.slots[a].pc == Detaching(Nothing) && !st.slots[a].marks[i].Clear?
      modifies this
      ensures Valid() && old(moves) <= moves && a in st.slots && Tended(old(st.slots[a]), st.slots[a], i)
      ensures st.slots[a].pc.Detaching? && (ok ==> st.slots[a].pc == Detaching(Nothing))
      ensures calm ==>
        var x := st.slots[a];
        ok && (x.marks[i].Clear? || x.marks[i].Removing?) && (old(st.slots[a].Current()) ==> x.Current())
      ensures old(st.slots[a].groups[i]) == map[] ==>
        st.slots[a].groups[i] == map[] && (calm ==> st.slots[a].marks[i].Clear?)
      ensures calm ==> st.pods == old(st.pods)
    {
      if st.slots[a].marks[i].Removing? {
        ok := PollOne(a, i, calm);
      } else {
        ok := RemoveOne(a, i, calm);
      }
    }

    /** The loop of handleDisable; the result is its allClear flag, false also when it returned early. */
    method DetachAll(a: PaId, calm: bool) returns (allClear: bool)
      requires Valid() && a in st.slots && st.slots[a].pc == Detaching(Nothing) && st.slots[a].phase.Bound?
      modifies this
      ensures Valid() && old(moves) <= moves && a in st.slots
      ensures var x, x0 := st.slots[a], old(st.slots[a]);
        && x.boundPod == x0.boundPod && x.boundIP == x0.boundIP && x.phase == x0.phase && x.pc.Detaching?
        && (allClear ==> x.pc == Detaching(Nothing) && x.AllMarked(Clear))
      ensures var x, x0 := st.slots[a], old(st.slots[a]);
        calm && x0.Current() ==> x.Current() && AllDetaching(x) && (AllEmpty(x0) ==> allClear)
      ensures calm ==> st.pods == old(st.pods)
    {
      allClear := true;
      var n := |st.slots[a].marks|;
      BoundIsShaped(a);
      for i := 0 to n
        invariant Valid() && old(moves) <= moves && a in st.slots && Shaped(st.slots[a], n)
        invariant var x, x0 := st.slots[a], old(st.slots[a]);
          x.boundPod == x0.boundPod && x.boundIP == x0.boundIP && x.phase == x0.phase && x.pc == Detaching(Nothing)
        invariant allClear ==> forall j :: 0 <= j < i ==> st.slots[a].marks[j].Clear?
        invariant calm && old(st.slots[a].Current()) ==> st.slots[a].Current()
        invariant calm ==> forall j :: 0 <= j < i ==> st.slots[a].marks[j].Clear? || st.slots[a].marks[j].Removing?
        invariant AllEmpty(old(st.slots[a])) ==> AllEmpty(st.slots[a]) && (calm ==> allClear)
        invariant calm ==> st.pods == old(st.pods)
      {
        ghost var x0 := st.slots[a];
        var mark, reply: Reply := st.slots[a].marks[i], *;
        if mark.Clear? {
          continue;
        }
        if !calm && reply.Throttled? {
          allClear := false;
          continue;
        }
        if !calm && reply.Failed? {
          return false;
        }
        var ok := DetachOne(a, i, calm);
        if !ok {
          return false;
        }
        allClear := allClear && st.slots[a].marks[i].Clear?;
        assert forall j :: 0 <= j < n && j != i ==> GroupRely(x0.groups[j], st.slots[a].groups[j]);
      }
    }

    /** handleDisabled: released when the pod is gone, bound again when it is enabled. */
    method HandleDisabled(a: PaId, calm: bool)
      requires Ready(a, Disabled)
      modifies this
      ensures Done(a, old(moves))
      ensures var x, x0 := st.slots[a], old(st.slots[a]);
        && x.boundPod == x0.boundPod && x.boundIP == x0.boundIP
        && (x.phase.Disabled? || x.phase.Binding? || (x.phase.Releasing? && !PodFound(x, st.pods)))
      ensures calm ==> var x, x0, pods := st.slots[a], old(st.slots[a]), old(st.pods);
        if !PodFound(x0, pods) then x.phase.Releasing?
        else if !pods[x0.boundPod.value].disabled then x.phase.Binding?
        else x == x0.At(Idle)
    {
      var ok; ghost var mid;
      Interfere(a, calm);
      var read := Reads(calm);
      if !read {
        Call(a, Stop);
        return;
      }
      SlotIsOk(a);
      Call(a, CheckDisabled);
      if st.slots[a].pc.Moving? {
        ok, mid := Commit(a, WritePhase, calm);
      }
    }

    // -------------------------------------------------------------------------
    // Releasing
    // -------------------------------------------------------------------------

    /**
     handleReleasing.  A calm visit either finishes the release or leaves only backends whose removal the cloud has
     accepted; once those are gone, a calm visit finishes the release.
     */
    method HandleReleasing(a: PaId, calm: bool)
      requires Ready(a, Releasing)
      modifies this
      ensures Done(a, old(moves))
      ensures var x := st.slots[a];
        x.phase.Available? || (x.phase.Releasing? && (x.boundPod == old(st.slots[a].boundPod) || x.boundPod.None?))
      ensures var x := st.slots[a];
        x.phase.Available? ==> x.boundPod.None? && x.boundIP.None? && x.AllMarked(Clear) && AllEmpty(x)
      ensures st.slots[a].phase.Available? && old(st.slots[a].boundPod).Some? ==>
        var p := old(st.slots[a].boundPod).value;
        p in st.pods && (st.pods[p].alive ==> st.pods[p].claim != Some(a))
      ensures st.slots[a].phase.Releasing? ==> Drains(old(st.slots[a]), st.slots[a])
      ensures calm ==> st.slots[a].phase.Available? || AllRequested(st.slots[a])
      ensures calm && !AllRequested(old(st.slots[a])) ==>
        st.slots[a].phase.Available? || RankLower(old(st.slots[a]), st.slots[a])
      ensures calm && AllEmpty(old(st.slots[a])) ==> st.slots[a].phase.Available?
    {
      ghost var x0 := st.slots[a];
      ClearedGroups(a);
      Call(a, Drain);
      var allClear := DrainAll(a, calm);
      if !allClear {
        Call(a, Stop);
        AskingLowers(x0, st.slots[a]);
        return;
      }
      ClearPodClaim(a, calm);
      var ok := ResetToAvailable(a, calm);
      UnmarkedIsEmpty(a);
    }

    lemma ClearedGroups(a: PaId)
      requires Valid() && a in st.slots && st.slots[a].phase.Releasing?
      ensures ClearIsEmpty(st.slots[a])
    {
      SlotIsOk(a);
      forall i | 0 <= i < |st.slots[a].groups| && st.slots[a].marks[i].Clear?
        ensures st.slots[a].groups[i] == map[]
      {
        assert GroupOk(st.slots[a], i);
      }
    }

    lemma UnmarkedIsEmpty(a: PaId)
      requires Valid() && a in st.slots && st.slots[a].AllMarked(Clear) && st.slots[a].pc.Idle?
      ensures AllEmpty(st.slots[a])
    {
      SlotIsOk(a);
      forall i | 0 <= i < |st.slots[a].groups| ensures st.slots[a].groups[i] == map[] {
        assert GroupOk(st.slots[a], i) && st.slots[a].marks[i].Clear?;
      }
    }

    /** Requests the removal of every backend just listed in ServerGroup i, one call each. */
    method RequestRemovals(a: PaId, i: nat, calm: bool)
      requires Valid() && a in st.slots && i < |st.slots[a].groups| && st.slots[a].pc == Draining(Saw(i, true))
      modifies this
      ensures Valid() && old(moves) <= moves && a in st.slots && Tended(old(st.slots[a]), st.slots[a], i)
      ensures var x, x0 := st.slots[a], old(st.slots[a]);
        && x.pc == x0.pc && x.marks == x0.marks
        && (forall b :: b in x.groups[i] ==> b in x0.groups[i] && (x0.groups[i][b] ==> x.groups[i][b]))
        && (calm ==> Requested(x.groups[i]) && (x0.Current() ==> x.Current()))
    {
      var servers := st.slots[a].groups[i].Keys;
      while servers != {}
        invariant Valid() && old(moves) <= moves && a in st.slots && Tended(old(st.slots[a]), st.slots[a], i)
        invariant var x, x0 := st.slots[a], old(st.slots[a]);
          && x.pc == x0.pc && x.marks == x0.marks
          && (forall b :: b in x.groups[i] ==> b in x0.groups[i] && (x0.groups[i][b] ==> x.groups[i][b]))
          && (calm && x0.Current() ==> x.Current())
        invariant calm ==> forall b :: b in st.slots[a].groups[i] && b !in servers ==> st.slots[a].groups[i][b]
        decreases servers
      {
        var b :| b in servers;
        servers := servers - {b};
        var reply: Reply := *;
        if !calm && reply.Throttled? {
          return;
        }
        Pause(a, calm);
        if (calm || !reply.Failed?) && b in st.slots[a].groups[i] {
          Call(a, DrainServer(b));
        }
      }
    }

    /** One ServerGroup of handleReleasing: list it, record it as empty or request the removal of its backends. */
    method DrainOne(a: PaId, i: nat, calm: bool) returns (ok: bool)
      requires Valid() && a in st.slots && i < |st.slots[a].groups| == |st.slots[a].marks|
      requires st.slots[a].pc == Draining(Nothing) && !st.slots[a].marks[i].Clear?
      modifies this
      ensures Valid() && old(moves) <= moves && a in st.slots && Tended(old(st.slots[a]), st.slots[a], i)
      ensures var x, x0 := st.slots[a], old(st.slots[a]);
        && x.pc.Draining? && (ok ==> x.pc == x0.pc)
        && GroupDrains(x0.marks[i], x0.groups[i], x.marks[i], x.groups[i])
        && (calm ==> ok && (x.marks[i].Clear? || Requested(x.groups[i])) && (x0.Current() ==> x.Current()))
        && (calm && x0.groups[i] == map[] ==> x.marks[i].Clear?)
    {
      Pause(a, calm);
      Call(a, Poll(i));
      if st.slots[a].pc.note.found {
        RequestRemovals(a, i, calm);
        Call(a, MarkSeen);
        return true;
      }
      ok := *;
      ok := ok || calm;
      if ok {
        Pause(a, calm);
        Call(a, MarkSeen);
      }
    }

    /** The loop of handleReleasing with its allClear flag, which is false also when the loop returned early. */
    method DrainAll(a: PaId, calm: bool) returns (allClear: bool)
      requires Valid() && a in st.slots && st.slots[a].pc == Draining(Nothing) && st.slots[a].phase.Releasing?
      modifies this
      ensures Valid() && old(moves) <= moves && a in st.slots
      ensures var x, x0 := st.slots[a], old(st.slots[a]);
        && x.boundPod == x0.boundPod && x.boundIP == x0.boundIP && x.phase == x0.phase && x.pc.Draining?
        && (allClear ==> x.pc == Draining(Nothing) && x.AllMarked(Clear))
        && (calm ==> AllRequested(x) && (x0.Current() ==> x.Current()))
        && (calm && AllEmpty(x0) ==> allClear) && Drains(x0, x)
    {
      allClear := true;
      var n := |st.slots[a].marks|;
      ClearedGroups(a);
      for i := 0 to n
        invariant Valid() && old(moves) <= moves && a in st.slots
        invariant var x, x0 := st.slots[a], old(st.slots[a]);
          && |x.groups| == |x.marks| == n && (calm && x0.Current() ==> x.Current())
          && x.boundPod == x0.boundPod && x.boundIP == x0.boundIP && x.phase == x0.phase && x.pc == Draining(Nothing)
        invariant allClear ==> forall j :: 0 <= j < i ==> st.slots[a].marks[j].Clear?
        invariant calm ==> forall j :: 0 <= j < i ==> st.slots[a].marks[j].Clear? || Requested(st.slots[a].groups[j])
        invariant AllEmpty(old(st.slots[a])) ==> AllEmpty(st.slots[a]) && (calm ==> allClear)
        invariant Drains(old(st.slots[a]), st.slots[a])
      {
        ghost var x0 := st.slots[a];
        var reply: Reply := *;
        if st.slots[a].marks[i].Clear? {
          continue;
        }
        if !calm && reply.Throttled? {
          allClear := false;
          continue;
        }
        if !calm && reply.Failed? {
          return false;
        }
        var ok := DrainOne(a, i, calm);
        TendedDrains(old(st.slots[a]), x0, st.slots[a], i);
        if !ok {
          return false;
        }
        allClear := allClear && st.slots[a].marks[i].Clear?;
        assert forall j :: 0 <= j < i ==> GroupRely(x0.groups[j], st.slots[a].groups[j]);
      }
      ClearedGroups(a);
    }

    /** clearPodClaim: drop the annotation of the bound pod if it still names this PA. */
    method ClearPodClaim(a: PaId, calm: bool)
      requires Valid() && a in st.slots && st.slots[a].phase.Releasing? && st.slots[a].AllMarked(Clear)
      requires st.slots[a].pc == Draining(Nothing) || st.slots[a].pc.Freed?
      modifies this
      ensures Valid() && old(moves) <= moves && a in st.slots && st.slots[a].pc.Freed?
      ensures var x, x0 := st.slots[a], old(st.slots[a]);
        && x.boundPod == x0.boundPod && x.boundIP == x0.boundIP && x.phase == x0.phase && x.AllMarked(Clear)
        && (x.boundPod.Some? ==> Unclaimed(a, x, st.pods)) && (calm && x0.Current() ==> x.Current())
        && |x.marks| == |x0.marks| && |x.groups| == |x0.groups|
    {
      Interfere(a, calm);
      Call(a, ReadClaim);
      if st.slots[a].pc.Clearing? {
        Interfere(a, calm);
        Call(a, ClearClaim);
      }
      FreedIsUnclaimed(a);
    }

    /**
     resetToAvailable: the claim, the spec, then the status.  Its removeServers calls find empty ServerGroups and
     change nothing.  A refused status write leaves Releasing with nothing bound, which the next run repairs.
     */
    method ResetToAvailable(a: PaId, calm: bool) returns (ok: bool)
      requires Valid() && a in st.slots && st.slots[a].phase.Releasing? && st.slots[a].AllMarked(Clear)
      requires st.slots[a].pc.Freed?
      modifies this
      ensures Done(a, old(moves))
      ensures var x := st.slots[a];
        if ok then x.phase.Available? && x.boundPod.None? && x.boundIP.None? && x.AllMarked(Clear) && AllEmpty(x)
        else x.phase.Releasing? && (x.boundPod == old(st.slots[a].boundPod) || x.boundPod.None?) && x.AllMarked(Clear)
      ensures |st.slots[a].marks| == |old(st.slots[a].marks)| && |st.slots[a].groups| == |old(st.slots[a].groups)|
      ensures ok && old(st.slots[a].boundPod).Some? ==>
        var p := old(st.slots[a].boundPod).value;
        p in st.pods && (st.pods[p].alive ==> st.pods[p].claim != Some(a))
      ensures calm && old(st.slots[a].Current()) ==> ok
    {
      ghost var mid;
      ClearPodClaim(a, calm);
      ok, mid := Commit(a, Unreserve, calm);
      if ok {
        ok := BecomeAvailable(a, calm);
      }
    }

    /** The status write that ends a release. */
    method BecomeAvailable(a: PaId, calm: bool) returns (ok: bool)
      requires Valid() && a in st.slots && st.slots[a].phase.Releasing? && st.slots[a].AllMarked(Clear)
      requires st.slots[a].pc.Resetting? && Unreserved(st.slots[a])
      modifies this
      ensures Done(a, old(moves)) && st.slots[a].AllMarked(Clear) && Unreserved(st.slots[a])
      ensures if ok then st.slots[a].phase.Available? && AllEmpty(st.slots[a]) else st.slots[a].phase.Releasing?
      ensures |st.slots[a].marks| == |old(st.slots[a].marks)| && |st.slots[a].groups| == |old(st.slots[a].groups)|
      ensures forall p :: p in old(st.pods) ==> p in st.pods && PodRely(a, old(st.pods)[p], st.pods[p])
      ensures calm && old(st.slots[a].Current()) ==> ok
    {
      SlotIsOk(a);
      ghost var checked := st;
      ghost var mid;
      ok, mid := Commit(a, WriteAvailable, calm);
      if ok {
        ClearedEmpty(a, checked, mid);
      }
    }

    /** The cloud finishes every accepted removal of PA a. */
    method FinishRemovals(a: PaId)
      requires Valid() && a in st.slots && AllRequested(st.slots[a])
      modifies this
      ensures Valid() && old(moves) <= moves && a in st.slots
      ensures st.pods == old(st.pods)
      ensures AllEmpty(st.slots[a]) && st.slots[a] == old(st.slots[a]).(groups := st.slots[a].groups)
    {
      var n := |st.slots[a].groups|;
      for i := 0 to n
        invariant Valid() && old(moves) <= moves && a in st.slots && st.pods == old(st.pods)
        invariant AllRequested(st.slots[a])
        invariant |st.slots[a].groups| == n && st.slots[a] == old(st.slots[a]).(groups := st.slots[a].groups)
        invariant forall j :: 0 <= j < i ==> st.slots[a].groups[j] == map[]
      {
        while st.slots[a].groups[i] != map[]
          invariant Valid() && old(moves) <= moves && a in st.slots && st.pods == old(st.pods)
          invariant AllRequested(st.slots[a])
          invariant |st.slots[a].groups| == n && st.slots[a] == old(st.slots[a]).(groups := st.slots[a].groups)
          invariant forall j :: 0 <= j < i ==> st.slots[a].groups[j] == map[]
          decreases st.slots[a].groups[i].Keys
        {
          var b :| b in st.slots[a].groups[i];
          assert Requested(st.slots[a].groups[i]);
          ghost var g := st.slots[a].groups[i];
          Take(FinishRemoval(a, i, b));
          assert st.slots[a].groups[i] == g - {b} && b in g.Keys && b !in st.slots[a].groups[i].Keys;
        }
      }
    }

    /**
     Release terminates: from any state of a Releasing PA, one calm visit, the cloud finishing what it accepted, and a
     second calm visit reach Available.
     */
    method ReleaseCompletes(a: PaId)
      requires Valid() && a in st.slots && st.slots[a].phase.Releasing? && st.slots[a].pc.Idle?
      modifies this
      ensures Done(a, old(moves)) && st.slots[a].phase.Available?
      ensures Unreserved(st.slots[a]) && AllEmpty(st.slots[a]) && st.slots[a].AllMarked(Clear)
    {
      Call(a, Start);
      HandleReleasing(a, true);
      if st.slots[a].phase.Releasing? {
        FinishRemovals(a);
        Call(a, Start);
        HandleReleasing(a, true);
      }
    }

    // -------------------------------------------------------------------------
    // Reconcile
    // -------------------------------------------------------------------------

    /** One reconcile of PA a after provisioning: read the PA, dispatch on its phase. */
    method Reconcile(a: PaId, calm: bool)
      requires Valid() && a in st.slots && st.slots[a].pc.Idle?
      modifies this
      ensures Done(a, old(moves)) && PhaseStep(old(st.slots[a]), st.slots[a])
    {
      Interfere(a, calm);
      var read := Reads(calm);
      if !read {
        return;
      }
      Call(a, Start);
      match st.slots[a].phase {
        case Available => var failed := HandleAvailable(a, calm);
        case Binding => HandleBinding(a, calm);
        case Bound => HandleBound(a, calm);
        case Disabled => HandleDisabled(a, calm);
        case Releasing => HandleReleasing(a, calm);
      }
    }
  }
}
