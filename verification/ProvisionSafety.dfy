/** What every step of provisioning keeps, and what follows for every run. */
module ProvisionSafety {
  import opened Options
  import opened PortPlan
  import opened ProvisionModel

  // ---------------------------------------------------------------------------
  // The invariant
  // ---------------------------------------------------------------------------

  /** A token and the ServerGroup it created name each other. */
  ghost predicate TokensOk(st: State) {
    && (forall t :: t in st.sgTokens ==> st.sgTokens[t] in st.groups && st.groups[st.sgTokens[t]] == t)
    && (forall g :: g in st.groups ==> st.groups[g] in st.sgTokens && st.sgTokens[st.groups[g]] == g)
  }

  /** Listener x was created for its entry: at the planned place, with the PA's own ServerGroup for the port. */
  ghost predicate MadeOk(c: Config, st: State, x: ListenerId)
    requires c.Valid() && x in st.listeners
  {
    var m := st.listeners[x];
    && m.i < c.Cells() && m.place == PlaceOf(c, m.slot, m.i)
    && SgToken(m.slot, m.i / c.lanes) in st.sgTokens
    && m.group == Some(st.sgTokens[SgToken(m.slot, m.i / c.lanes)])
    && m.slot in st.pas && Shaped(c, st.pas[m.slot]) && st.pas[m.slot].sgs != [] && AllActive(st.pas[m.slot])
    && (LsnToken(m.slot, false, m.i) in st.lsnTokens || AnyRunning(st.pas[m.slot]))
  }

  ghost predicate ListenersOk(c: Config, st: State)
    requires c.Valid()
  {
    forall x :: x in st.listeners ==> MadeOk(c, st, x)
  }

  /** At most one live listener at each place. */
  ghost predicate LiveOk(st: State) {
    && (forall x :: x in st.live ==> x in st.listeners)
    && (forall x, y :: x in st.live && y in st.live && st.listeners[x].place == st.listeners[y].place ==> x == y)
  }

  ghost predicate AnswersOk(st: State) {
    forall t :: t in st.lsnTokens ==> MadeFor(st, st.lsnTokens[t], t.slot, t.i)
  }

  ghost predicate CloudOk(c: Config, st: State)
    requires c.Valid()
  {
    TokensOk(st) && ListenersOk(c, st) && LiveOk(st) && AnswersOk(st)
  }

  ghost predicate MadeFor(st: State, x: ListenerId, s: nat, i: nat) {
    x in st.listeners && st.listeners[x].slot == s && st.listeners[x].i == i
  }

  ghost predicate Shaped(c: Config, pa: Pa) {
    || pa == NEW
    || (|pa.sgs| == c.plan.P && |pa.lsns| == c.Cells())
  }

  ghost predicate GroupOk(st: State, s: nat, p: nat, sg: ServerGroup) {
    && (sg.id.None? <==> sg.phase.SgPending?)
    && (sg.id.Some? ==> SgToken(s, p) in st.sgTokens && st.sgTokens[SgToken(s, p)] == sg.id.value)
  }

  ghost predicate ListenerOk(st: State, s: nat, i: nat, l: LsnRecord) {
    && (l.id.None? <==> l.phase.LsnPending?)
    && (l.id.Some? ==> MadeFor(st, l.id.value, s, i))
  }

  ghost predicate PcOk(st: State, s: nat, pa: Pa) {
    match pa.pc
    case Idle => true
    case GotGroup(p, g) =>
      && p < |pa.sgs| && pa.sgs[p].phase.SgPending? && SgToken(s, p) in st.sgTokens && st.sgTokens[SgToken(s, p)] == g
    case GotListener(i, x) =>
      i < |pa.lsns| && AllActive(pa) && MadeFor(st, x, s, i) && !pa.lsns[i].phase.LsnRunning?
    case Blocked(i) => i < |pa.lsns| && AllActive(pa) && !pa.lsns[i].phase.LsnRunning?
    case SawGroup(p) => p < |pa.sgs| && pa.sgs[p].phase.SgCreating?
    case SawListener(i) => i < |pa.lsns| && AllActive(pa) && pa.lsns[i].phase.LsnCreating?
    case Missing(i) => i < |pa.lsns| && AllActive(pa) && pa.lsns[i].phase.LsnCreating?
    case Absent(i) => i < |pa.lsns| && AllActive(pa) && pa.lsns[i].phase.LsnCreating?
    case Filled => pa.spec.Some?
  }

  ghost predicate PaOk(c: Config, st: State, s: nat, pa: Pa) {
    && Shaped(c, pa)
    && (forall p :: 0 <= p < |pa.sgs| ==> GroupOk(st, s, p, pa.sgs[p]))
    && (forall i :: 0 <= i < |pa.lsns| ==> ListenerOk(st, s, i, pa.lsns[i]))
    && PcOk(st, s, pa)
    && (pa.spec.Some? ==> Complete(pa) && pa.spec == Some(SpecOf(pa)))
    && (pa.available ==> pa.spec.Some?)
  }

  ghost predicate Inv(c: Config, st: State)
    requires c.Valid()
  {
    CloudOk(c, st) && forall s :: s in st.pas ==> PaOk(c, st, s, st.pas[s])
  }

  // ---------------------------------------------------------------------------
  // Every step keeps it
  // ---------------------------------------------------------------------------

  /** No two entries of any two slots share a place. */
  lemma PlacesApart(c: Config, s: nat, i: nat, t: nat, j: nat)
    requires c.Valid() && i < c.Cells() && j < c.Cells() && PlaceOf(c, s, i) == PlaceOf(c, t, j)
    ensures s == t && i == j
  {
    PortInRange(c, i);
    PortInRange(c, j);
    PlanInjective(c.plan, s, i / c.lanes, t, j / c.lanes);
    assert i == i / c.lanes * c.lanes + i % c.lanes;
    assert j == j / c.lanes * c.lanes + j % c.lanes;
  }

  lemma PortInRange(c: Config, i: nat)
    requires c.Valid() && i < c.Cells()
    ensures i / c.lanes < c.plan.P && i % c.lanes < c.lanes
  {
    Apart(c.plan.P, i / c.lanes, c.lanes);
  }

  /** The cloud's memory only grows, and keeps its answers. */
  ghost predicate Remembers(st: State, st': State) {
    && (forall t :: t in st.sgTokens ==> t in st'.sgTokens && st'.sgTokens[t] == st.sgTokens[t])
    && (forall g :: g in st.groups ==> g in st'.groups && st'.groups[g] == st.groups[g])
    && (forall t :: t in st.lsnTokens ==> t in st'.lsnTokens && st'.lsnTokens[t] == st.lsnTokens[t])
    && (forall x :: x in st.listeners ==> x in st'.listeners && st'.listeners[x] == st.listeners[x])
  }

  /** A PA only moves forward: what is Active or Running stays so with its ID. */
  ghost predicate Forward(pa: Pa, pa': Pa) {
    && (pa.sgs != [] ==> |pa'.sgs| == |pa.sgs| && |pa'.lsns| == |pa.lsns|)
    && (pa.sgs != [] ==> forall p :: 0 <= p < |pa.sgs| ==>
          && (pa.sgs[p].phase.SgActive? ==> pa'.sgs[p].phase.SgActive?)
          && (pa.sgs[p].id.Some? ==> pa'.sgs[p].id == pa.sgs[p].id))
    && (pa.sgs != [] ==> forall i :: 0 <= i < |pa.lsns| ==> pa.lsns[i].phase.LsnRunning? ==> pa'.lsns[i] == pa.lsns[i])
    && (pa.available ==> pa' == pa)
  }

  predicate Creates(w: Work) {
    w.CreateGroup? || w.CreateListener?
  }

  predicate OnGroups(w: Work) {
    w.Init? || w.RecordGroup? || w.ActivateGroup?
  }

  predicate Looks(w: Work) {
    w.ConflictPort? || w.FindByPort? || w.MissListener? || w.SeeGroup? || w.SeeListener?
  }

  predicate OnListeners(w: Work) {
    w.RecordListener? || w.RunListener? || w.ForgetListener?
  }

  lemma CloudRemembers(c: Config, st: State, s: nat, w: Work)
    requires c.Valid() && s in st.pas && WorkEnabled(c, st, s, w)
    ensures Remembers(st, Cloud(c, st, s, w))
  {
  }

  lemma PaKeeps(c: Config, st: State, st': State, s: nat, pa: Pa)
    requires PaOk(c, st, s, pa) && Remembers(st, st')
    ensures PaOk(c, st', s, pa)
  {
  }

  lemma CreatesKeepPa(c: Config, st: State, s: nat, w: Work)
    requires c.Valid() && s in st.pas && PaOk(c, st, s, st.pas[s]) && WorkEnabled(c, st, s, w) && Creates(w)
    requires AnswersOk(st) && LiveOk(st)
    ensures Forward(st.pas[s], Next(c, st, s, w)) && PaOk(c, Cloud(c, st, s, w), s, Next(c, st, s, w))
  {
    CloudRemembers(c, st, s, w);
    PaKeeps(c, st, Cloud(c, st, s, w), s, st.pas[s]);
  }

  lemma GroupsKeepPa(c: Config, st: State, s: nat, w: Work)
    requires c.Valid() && s in st.pas && PaOk(c, st, s, st.pas[s]) && WorkEnabled(c, st, s, w) && OnGroups(w)
    ensures Forward(st.pas[s], Next(c, st, s, w)) && PaOk(c, st, s, Next(c, st, s, w))
  {
  }

  /** Adoption by port never takes another entry's listener: the one found at an entry's place was made for it. */
  lemma FoundIsOwn(c: Config, st: State, s: nat, i: nat, x: ListenerId)
    requires c.Valid() && CloudOk(c, st) && i < c.Cells() && LiveAt(st, x, PlaceOf(c, s, i))
    ensures MadeFor(st, x, s, i)
  {
    assert MadeOk(c, st, x);
    PlacesApart(c, s, i, st.listeners[x].slot, st.listeners[x].i);
  }

  lemma LooksKeepPa(c: Config, st: State, s: nat, w: Work)
    requires c.Valid() && s in st.pas && PaOk(c, st, s, st.pas[s]) && WorkEnabled(c, st, s, w) && Looks(w)
    requires w.FindByPort? && w.found.Some? ==> MadeFor(st, w.found.value, s, st.pas[s].pc.i)
    ensures Forward(st.pas[s], Next(c, st, s, w)) && PaOk(c, st, s, Next(c, st, s, w))
  {
  }

  lemma ListenersKeepPa(c: Config, st: State, s: nat, w: Work)
    requires c.Valid() && s in st.pas && PaOk(c, st, s, st.pas[s]) && WorkEnabled(c, st, s, w) && OnListeners(w)
    ensures Forward(st.pas[s], Next(c, st, s, w)) && PaOk(c, st, s, Next(c, st, s, w))
  {
  }

  lemma RestKeepsPa(c: Config, st: State, s: nat, w: Work)
    requires c.Valid() && s in st.pas && PaOk(c, st, s, st.pas[s]) && WorkEnabled(c, st, s, w)
    requires w.FillSpec? || w.Promote? || w.Drop?
    ensures Forward(st.pas[s], Next(c, st, s, w)) && PaOk(c, st, s, Next(c, st, s, w))
  {
  }

  lemma MadeKeeps(c: Config, st: State, st': State, x: ListenerId)
    requires c.Valid() && x in st.listeners && MadeOk(c, st, x) && Remembers(st, st')
    requires var s := st.listeners[x].slot; s in st'.pas && Forward(st.pas[s], st'.pas[s]) && Shaped(c, st'.pas[s])
    ensures MadeOk(c, st', x)
  {
    var s := st.listeners[x].slot;
    if AnyRunning(st.pas[s]) {
      var i :| 0 <= i < |st.pas[s].lsns| && st.pas[s].lsns[i].phase.LsnRunning?;
      assert st'.pas[s].lsns[i].phase.LsnRunning?;
    }
  }

  lemma WorkKeepsPa(c: Config, st: State, s: nat, w: Work)
    requires c.Valid() && Inv(c, st) && s in st.pas && WorkEnabled(c, st, s, w)
    ensures Forward(st.pas[s], Next(c, st, s, w)) && PaOk(c, Cloud(c, st, s, w), s, Next(c, st, s, w))
  {
    assert PaOk(c, st, s, st.pas[s]);
    if Creates(w) {
      CreatesKeepPa(c, st, s, w);
    } else if OnGroups(w) {
      GroupsKeepPa(c, st, s, w);
    } else if Looks(w) {
      if w.FindByPort? && w.found.Some? {
        FoundIsOwn(c, st, s, st.pas[s].pc.i, w.found.value);
      }
      LooksKeepPa(c, st, s, w);
    } else if OnListeners(w) {
      ListenersKeepPa(c, st, s, w);
    } else {
      RestKeepsPa(c, st, s, w);
    }
  }

  /** The ServerGroup an entry asks for is the one recorded for its port. */
  lemma GroupInOk(c: Config, st: State, s: nat, i: nat)
    requires c.Valid() && s in st.pas && PaOk(c, st, s, st.pas[s]) && i < |st.pas[s].lsns| && AllActive(st.pas[s])
    ensures i < c.Cells() && SgToken(s, i / c.lanes) in st.sgTokens
    ensures GroupIn(st.pas[s], i / c.lanes) == Some(st.sgTokens[SgToken(s, i / c.lanes)]) && st.pas[s].sgs != []
  {
    PortInRange(c, i);
    assert GroupOk(st, s, i / c.lanes, st.pas[s].sgs[i / c.lanes]);
  }

  /** The first creation for an entry uses the plain token, unless a listener of the PA runs already. */
  lemma FirstUse(c: Config, st: State, s: nat, i: nat)
    requires c.Valid() && s in st.pas && PaOk(c, st, s, st.pas[s]) && ListenersOk(c, st) && i < |st.pas[s].lsns|
    requires TokenFor(s, st.pas[s], i).again
    ensures LsnToken(s, false, i) in st.lsnTokens || AnyRunning(st.pas[s])
  {
    var pa := st.pas[s];
    if pa.pc == Absent(i) {
      assert ListenerOk(st, s, i, pa.lsns[i]);
      assert MadeOk(c, st, pa.lsns[i].id.value);
    }
  }

  /** The created listener is the one its entry needs. */
  lemma CreatedOk(c: Config, st: State, s: nat, i: nat, x: ListenerId)
    requires c.Valid() && s in st.pas && PaOk(c, st, s, st.pas[s]) && ListenersOk(c, st)
    requires WorkEnabled(c, st, s, CreateListener(i, x)) && TokenFor(s, st.pas[s], i) !in st.lsnTokens
    ensures var st' := Apply(c, st, Do(s, CreateListener(i, x))); x in st'.listeners && MadeOk(c, st', x)
  {
    GroupInOk(c, st, s, i);
    if TokenFor(s, st.pas[s], i).again {
      FirstUse(c, st, s, i);
    }
  }

  lemma OldListenersOk(c: Config, st: State, st': State)
    requires c.Valid() && ListenersOk(c, st) && Remembers(st, st')
    requires forall s :: s in st.pas ==> s in st'.pas && Forward(st.pas[s], st'.pas[s]) && Shaped(c, st'.pas[s])
    ensures forall x :: x in st.listeners ==> MadeOk(c, st', x)
  {
    forall x | x in st.listeners ensures MadeOk(c, st', x) {
      assert MadeOk(c, st, x);
      MadeKeeps(c, st, st', x);
    }
  }

  lemma DoForward(c: Config, st: State, s: nat, w: Work)
    requires c.Valid() && Inv(c, st) && s in st.pas && WorkEnabled(c, st, s, w)
    ensures var st' := Apply(c, st, Do(s, w));
      forall t :: t in st.pas ==> t in st'.pas && Forward(st.pas[t], st'.pas[t]) && Shaped(c, st'.pas[t])
  {
    WorkKeepsPa(c, st, s, w);
    forall t | t in st.pas && t != s ensures Forward(st.pas[t], st.pas[t]) && Shaped(c, st.pas[t]) {
      assert PaOk(c, st, t, st.pas[t]);
    }
  }

  lemma DoKeepsListeners(c: Config, st: State, s: nat, w: Work)
    requires c.Valid() && Inv(c, st) && s in st.pas && WorkEnabled(c, st, s, w)
    ensures ListenersOk(c, Apply(c, st, Do(s, w)))
  {
    var st' := Apply(c, st, Do(s, w));
    CloudRemembers(c, st, s, w);
    DoForward(c, st, s, w);
    OldListenersOk(c, st, st');
    if w.CreateListener? && TokenFor(s, st.pas[s], w.i) !in st.lsnTokens {
      assert PaOk(c, st, s, st.pas[s]);
      CreatedOk(c, st, s, w.i, w.listener);
    }
  }

  lemma DoKeepsTokens(c: Config, st: State, s: nat, w: Work)
    requires c.Valid() && TokensOk(st) && s in st.pas && WorkEnabled(c, st, s, w)
    ensures TokensOk(Cloud(c, st, s, w))
  {
  }

  lemma DoKeepsLive(c: Config, st: State, s: nat, w: Work)
    requires c.Valid() && LiveOk(st) && AnswersOk(st) && s in st.pas && WorkEnabled(c, st, s, w)
    ensures LiveOk(Cloud(c, st, s, w)) && AnswersOk(Cloud(c, st, s, w))
  {
    if w.CreateListener? && TokenFor(s, st.pas[s], w.i) !in st.lsnTokens {
      assert forall x :: x in st.live ==> !LiveAt(st, x, PlaceOf(c, s, w.i));
    }
  }

  lemma PasKeep(c: Config, st: State, st': State, s: nat)
    requires (forall t :: t in st.pas ==> PaOk(c, st, t, st.pas[t])) && Remembers(st, st')
    requires forall t :: t in st'.pas && t != s ==> t in st.pas && st'.pas[t] == st.pas[t]
    requires s in st'.pas && PaOk(c, st', s, st'.pas[s])
    ensures forall t :: t in st'.pas ==> PaOk(c, st', t, st'.pas[t])
  {
    forall t | t in st'.pas && t != s ensures PaOk(c, st', t, st'.pas[t]) {
      PaKeeps(c, st, st', t, st.pas[t]);
    }
  }

  lemma DoKeepsInv(c: Config, st: State, s: nat, w: Work)
    requires c.Valid() && Inv(c, st) && s in st.pas && WorkEnabled(c, st, s, w)
    ensures Inv(c, Apply(c, st, Do(s, w)))
  {
    var st' := Apply(c, st, Do(s, w));
    DoKeepsListeners(c, st, s, w);
    DoKeepsTokens(c, st, s, w);
    DoKeepsLive(c, st, s, w);
    CloudRemembers(c, st, s, w);
    WorkKeepsPa(c, st, s, w);
    PaKeeps(c, Cloud(c, st, s, w), st', s, st'.pas[s]);
    PasKeep(c, st, st', s);
  }

  lemma NewPaKeepsListeners(c: Config, st: State, s: nat)
    requires c.Valid() && ListenersOk(c, st) && s !in st.pas
    ensures ListenersOk(c, st.(pas := st.pas[s := NEW]))
  {
    var st' := st.(pas := st.pas[s := NEW]);
    forall x | x in st'.listeners ensures MadeOk(c, st', x) {
      assert MadeOk(c, st, x);
    }
  }

  lemma NewPaKeepsInv(c: Config, st: State, s: nat)
    requires c.Valid() && Inv(c, st) && s !in st.pas
    ensures Inv(c, st.(pas := st.pas[s := NEW]))
  {
    var st' := st.(pas := st.pas[s := NEW]);
    NewPaKeepsListeners(c, st, s);
    assert PaOk(c, st', s, NEW);
    assert TokensOk(st') && LiveOk(st');
    PasKeep(c, st, st', s);
  }

  lemma OutsideKeepsInv(c: Config, st: State, ready: set<(nat, nat)>, addressed: set<(nat, nat)>,
                          live: set<ListenerId>)
    requires c.Valid() && Inv(c, st) && live <= st.live
    ensures Inv(c, st.(ready := ready, addressed := addressed, live := live))
  {
    var st' := st.(ready := ready, addressed := addressed, live := live);
    forall x | x in st'.listeners ensures MadeOk(c, st', x) {
      assert MadeOk(c, st, x);
    }
    forall t | t in st'.pas ensures PaOk(c, st', t, st'.pas[t]) {
      PaKeeps(c, st, st', t, st.pas[t]);
    }
  }

  lemma StepKeepsInv(c: Config, st: State, op: Op)
    requires c.Valid() && Inv(c, st) && Enabled(c, st, op)
    ensures Inv(c, Apply(c, st, op))
  {
    match op
    case Do(s, w) => DoKeepsInv(c, st, s, w);
    case NewPa(s) => NewPaKeepsInv(c, st, s);
    case NlbReady(lane, group) => OutsideKeepsInv(c, st, st.ready + {(lane, group)}, st.addressed, st.live);
    case NlbAddressed(lane, group) => OutsideKeepsInv(c, st, st.ready, st.addressed + {(lane, group)}, st.live);
    case Vanish(x) => OutsideKeepsInv(c, st, st.ready, st.addressed, st.live - {x});
  }

  /** Every reachable state is in order. */
  lemma {:induction false} RunsAreSafe(c: Config, st: State, ops: seq<Op>)
    requires c.Valid() && Inv(c, st) && Legal(c, st, ops)
    ensures Inv(c, End(c, st, ops))
    decreases ops
  {
    if ops != [] {
      StepKeepsInv(c, st, ops[0]);
      RunsAreSafe(c, Apply(c, st, ops[0]), ops[1..]);
    }
  }

  lemma InitIsSafe(c: Config)
    requires c.Valid()
    ensures Inv(c, INIT)
  {
  }
}
