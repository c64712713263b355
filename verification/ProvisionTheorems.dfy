/** The promises of provisioning, for every run: what is recorded, what is created once, and when a PA can complete. */
module ProvisionTheorems {
  import opened Options
  import opened PortPlan
  import opened ProvisionModel
  import opened ProvisionSafety

  /** st' is the end of some run from st. */
  ghost predicate Reach(c: Config, st: State, st': State)
    requires c.Valid()
  {
    exists ops :: Legal(c, st, ops) && End(c, st, ops) == st'
  }

  lemma ReachSelf(c: Config, st: State)
    requires c.Valid()
    ensures Reach(c, st, st)
  {
    assert Legal(c, st, []);
  }

  lemma ReachStep(c: Config, st: State, mid: State, op: Op)
    requires c.Valid() && Reach(c, st, mid) && Enabled(c, mid, op)
    ensures Reach(c, st, Apply(c, mid, op))
  {
    var ops :| Legal(c, st, ops) && End(c, st, ops) == mid;
    Append(c, st, ops, op);
  }

  lemma ReachSafe(c: Config, st: State, st': State)
    requires c.Valid() && Inv(c, st) && Reach(c, st, st')
    ensures Inv(c, st')
  {
    var ops :| Legal(c, st, ops) && End(c, st, ops) == st';
    RunsAreSafe(c, st, ops);
  }

  lemma ReachableSafe(c: Config, st: State)
    requires c.Valid() && Reach(c, INIT, st)
    ensures Inv(c, st)
  {
    InitIsSafe(c);
    ReachSafe(c, INIT, st);
  }

  // ---------------------------------------------------------------------------
  // What is recorded
  // ---------------------------------------------------------------------------

  /**
   Whatever mix of creation, lost patch, adoption and re-creation led to it: the listener recorded for port p on lane l
   is on the NLB of that lane and the slot's group, at the planned port, and forwards to the PA's own recorded
   ServerGroup for p, which the cloud created for that PA and port.
   */
  lemma ListenerRecordsAccurate(c: Config, st: State, s: nat, i: nat)
    requires c.Valid() && Reach(c, INIT, st) && s in st.pas && i < |st.pas[s].lsns| && st.pas[s].lsns[i].id.Some?
    ensures var p, l, x := i / c.lanes, i % c.lanes, st.pas[s].lsns[i].id.value;
      && p < |st.pas[s].sgs| && x in st.listeners
      && st.listeners[x].place == Place(l, s / c.plan.S, c.plan.min + s % c.plan.S * c.plan.P + p)
      && st.listeners[x].group == st.pas[s].sgs[p].id
      && st.listeners[x].group.Some? && st.listeners[x].group.value in st.groups
      && st.groups[st.listeners[x].group.value] == SgToken(s, p)
  {
    ReachableSafe(c, st);
    var pa := st.pas[s];
    assert PaOk(c, st, s, pa) && ListenerOk(st, s, i, pa.lsns[i]);
    assert MadeOk(c, st, pa.lsns[i].id.value);
    GroupInOk(c, st, s, i);
  }

  /** Exactly once: a ServerGroup exists for a PA's port exactly when it is the recorded one. */
  lemma GroupsCreatedOnce(c: Config, st: State, s: nat, p: nat, g: GroupId)
    requires c.Valid() && Reach(c, INIT, st) && s in st.pas && p < |st.pas[s].sgs| && !st.pas[s].sgs[p].phase.SgPending?
    ensures g in st.groups && st.groups[g] == SgToken(s, p) <==> st.pas[s].sgs[p].id == Some(g)
  {
    ReachableSafe(c, st);
    assert PaOk(c, st, s, st.pas[s]) && GroupOk(st, s, p, st.pas[s].sgs[p]);
  }

  /** Before the record is there, too, the cloud holds at most one ServerGroup per PA and port. */
  lemma OneGroupPerPort(c: Config, st: State, g: GroupId, h: GroupId)
    requires c.Valid() && Reach(c, INIT, st) && g in st.groups && h in st.groups && st.groups[g] == st.groups[h]
    ensures g == h
  {
    ReachableSafe(c, st);
  }

  /** Two PAs, or two ports of one, never share a ServerGroup. */
  lemma GroupsDisjoint(c: Config, st: State, s: nat, p: nat, t: nat, q: nat)
    requires c.Valid() && Reach(c, INIT, st) && s in st.pas && t in st.pas
    requires p < |st.pas[s].sgs| && q < |st.pas[t].sgs|
    requires st.pas[s].sgs[p].id.Some? && st.pas[s].sgs[p].id == st.pas[t].sgs[q].id
    ensures s == t && p == q
  {
    ReachableSafe(c, st);
    assert PaOk(c, st, s, st.pas[s]) && GroupOk(st, s, p, st.pas[s].sgs[p]);
    assert PaOk(c, st, t, st.pas[t]) && GroupOk(st, t, q, st.pas[t].sgs[q]);
  }

  /** No two entries of any PAs record the same listener. */
  lemma ListenersDisjoint(c: Config, st: State, s: nat, i: nat, t: nat, j: nat)
    requires c.Valid() && Reach(c, INIT, st) && s in st.pas && t in st.pas
    requires i < |st.pas[s].lsns| && j < |st.pas[t].lsns|
    requires st.pas[s].lsns[i].id.Some? && st.pas[s].lsns[i].id == st.pas[t].lsns[j].id
    ensures s == t && i == j
  {
    ReachableSafe(c, st);
    assert PaOk(c, st, s, st.pas[s]) && ListenerOk(st, s, i, st.pas[s].lsns[i]);
    assert PaOk(c, st, t, st.pas[t]) && ListenerOk(st, t, j, st.pas[t].lsns[j]);
  }

  /** No listener exists before every ServerGroup of its PA is Active. */
  lemma ListenersAfterGroups(c: Config, st: State, x: ListenerId)
    requires c.Valid() && Reach(c, INIT, st) && x in st.listeners
    ensures st.listeners[x].slot in st.pas
    ensures var pa := st.pas[st.listeners[x].slot];
      |pa.sgs| == c.plan.P && forall p :: 0 <= p < |pa.sgs| ==> pa.sgs[p].phase.SgActive?
  {
    ReachableSafe(c, st);
    assert MadeOk(c, st, x);
  }

  /** The switches of handleProvisioning cover every record: their default branches are dead. */
  lemma RecordsCovered(c: Config, st: State, s: nat)
    requires c.Valid() && Reach(c, INIT, st) && s in st.pas
    ensures forall p :: 0 <= p < |st.pas[s].sgs| ==>
      (st.pas[s].sgs[p].phase.SgPending? <==> st.pas[s].sgs[p].id.None?)
    ensures forall i :: 0 <= i < |st.pas[s].lsns| ==>
      (st.pas[s].lsns[i].phase.LsnPending? <==> st.pas[s].lsns[i].id.None?)
  {
    ReachableSafe(c, st);
    var pa := st.pas[s];
    assert PaOk(c, st, s, pa);
    forall p | 0 <= p < |pa.sgs| ensures pa.sgs[p].phase.SgPending? <==> pa.sgs[p].id.None? {
      assert GroupOk(st, s, p, pa.sgs[p]);
    }
    forall i | 0 <= i < |pa.lsns| ensures pa.lsns[i].phase.LsnPending? <==> pa.lsns[i].id.None? {
      assert ListenerOk(st, s, i, pa.lsns[i]);
    }
  }

  /**
   An available PA is complete, its NLBs have their addresses, and its spec names exactly its recorded ServerGroups and
   listeners.
   */
  lemma AvailableIsComplete(c: Config, st: State, s: nat)
    requires c.Valid() && Reach(c, INIT, st) && s in st.pas && st.pas[s].available
    ensures forall l :: 0 <= l < c.lanes ==> (l, s / c.plan.S) in st.addressed
    ensures var pa := st.pas[s];
      && |pa.sgs| == c.plan.P > 0 && |pa.lsns| == c.Cells() && pa.spec.Some?
      && (forall p :: 0 <= p < |pa.sgs| ==> pa.sgs[p].phase.SgActive?)
      && (forall i :: 0 <= i < |pa.lsns| ==> pa.lsns[i].phase.LsnRunning?)
      && |pa.spec.value.groups| == c.plan.P && |pa.spec.value.listeners| == c.Cells()
      && (forall p :: 0 <= p < c.plan.P ==> pa.spec.value.groups[p] == pa.sgs[p].id && pa.sgs[p].id.Some?)
      && (forall i :: 0 <= i < c.Cells() ==> pa.spec.value.listeners[i] == pa.lsns[i].id && pa.lsns[i].id.Some?)
  {
    ReachableSafe(c, st);
    RecordsCovered(c, st, s);
    assert PaOk(c, st, s, st.pas[s]);
    var ops :| Legal(c, INIT, ops) && End(c, INIT, ops) == st;
    FilledIsAddressed(c, INIT, ops);
    assert AddressedWhenFilled(c, st) && Addressed(c, st, s) && GroupOf(c.plan, s) == s / c.plan.S;
  }

  /** Listeners are only ever created on NLBs that have their load balancer. */
  lemma {:induction false} ListenersOnReadyNlbs(c: Config, st: State, ops: seq<Op>, x: ListenerId)
    requires c.Valid() && Legal(c, st, ops) && x in End(c, st, ops).listeners
    requires forall y :: y in st.listeners ==> (st.listeners[y].place.lane, st.listeners[y].place.group) in st.ready
    ensures var at := End(c, st, ops).listeners[x].place; (at.lane, at.group) in End(c, st, ops).ready
    decreases ops
  {
    if ops != [] {
      ListenersOnReadyNlbs(c, Apply(c, st, ops[0]), ops[1..], x);
    }
  }

  /** A spec is filled only once the NLB of every lane has its address. */
  lemma {:induction false} FilledIsAddressed(c: Config, st: State, ops: seq<Op>)
    requires c.Valid() && Legal(c, st, ops)
    requires AddressedWhenFilled(c, st)
    ensures AddressedWhenFilled(c, End(c, st, ops))
    decreases ops
  {
    if ops != [] {
      StepAddressedWhenFilled(c, st, ops[0]);
      FilledIsAddressed(c, Apply(c, st, ops[0]), ops[1..]);
    }
  }

  ghost predicate AddressedWhenFilled(c: Config, st: State)
    requires c.Valid()
  {
    forall s :: s in st.pas && st.pas[s].spec.Some? ==> Addressed(c, st, s)
  }

  lemma StepAddressedWhenFilled(c: Config, st: State, op: Op)
    requires c.Valid() && AddressedWhenFilled(c, st) && Enabled(c, st, op)
    ensures AddressedWhenFilled(c, Apply(c, st, op))
  {
    var st' := Apply(c, st, op);
    forall s | s in st'.pas && st'.pas[s].spec.Some? ensures Addressed(c, st', s) {
      assert s in st.pas && Addressed(c, st, s);
    }
  }

  /**
   What the two client tokens are for.  Before any listener runs, a repeated create call gets the listener of the first
   one back.  After one runs, the first re-creation of a vanished listener gets a new one.
   */
  lemma CreateAnswers(c: Config, st: State, s: nat, i: nat, x: ListenerId)
    requires c.Valid() && Reach(c, INIT, st) && s in st.pas && WorkEnabled(c, st, s, CreateListener(i, x))
    ensures st.pas[s].pc.Idle? && !AnyRunning(st.pas[s]) && LsnToken(s, false, i) in st.lsnTokens ==>
      x == st.lsnTokens[LsnToken(s, false, i)]
    ensures st.pas[s].pc.Idle? && !AnyRunning(st.pas[s]) && LsnToken(s, false, i) !in st.lsnTokens ==>
      x !in st.listeners
    ensures (st.pas[s].pc.Absent? || AnyRunning(st.pas[s])) && LsnToken(s, true, i) !in st.lsnTokens ==>
      x !in st.listeners
    ensures (st.pas[s].pc.Absent? || AnyRunning(st.pas[s])) && LsnToken(s, true, i) in st.lsnTokens ==>
      x == st.lsnTokens[LsnToken(s, true, i)]
  {
  }

  // ---------------------------------------------------------------------------
  // What never changes
  // ---------------------------------------------------------------------------

  lemma StepForward(c: Config, st: State, op: Op, s: nat)
    requires c.Valid() && Inv(c, st) && Enabled(c, st, op) && s in st.pas
    ensures s in Apply(c, st, op).pas && Forward(st.pas[s], Apply(c, st, op).pas[s])
  {
    if op.Do? && op.slot == s {
      WorkKeepsPa(c, st, s, op.work);
    }
  }

  /**
   Along every run a recorded ServerGroup ID never changes, a running listener keeps its record, and an available PA
   stays as it is.
   */
  lemma {:induction false} RecordsOnlyGrow(c: Config, st: State, ops: seq<Op>, s: nat)
    requires c.Valid() && Inv(c, st) && Legal(c, st, ops) && s in st.pas
    ensures s in End(c, st, ops).pas && Forward(st.pas[s], End(c, st, ops).pas[s])
    decreases ops
  {
    if ops != [] {
      StepKeepsInv(c, st, ops[0]);
      StepForward(c, st, ops[0], s);
      RecordsOnlyGrow(c, Apply(c, st, ops[0]), ops[1..], s);
      ForwardComposes(st.pas[s], Apply(c, st, ops[0]).pas[s], End(c, st, ops).pas[s]);
    }
  }

  lemma ForwardComposes(a: Pa, b: Pa, d: Pa)
    requires Forward(a, b) && Forward(b, d)
    ensures Forward(a, d)
  {
  }
}
