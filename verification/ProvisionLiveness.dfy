/**
 When a PA can still become Available.  A vanished listener is created again under the token "lsn-recreate"; once that
 token is used, the cloud answers it with the same listener for ever, even when that one has vanished too.  Exactly then
 the PA is stuck: from every other reachable state some run completes it.
 */
module ProvisionLiveness {
  import opened Options
  import opened PortPlan
  import opened ProvisionModel
  import opened ProvisionSafety
  import opened ProvisionTheorems

  /**
   The entry does not run and was not just seen running, no listener is live at its place, and its re-create token is
   used.
   */
  ghost predicate Doomed(c: Config, st: State, s: nat, i: nat)
    requires c.Valid()
  {
    && s in st.pas && i < |st.pas[s].lsns| && !st.pas[s].lsns[i].phase.LsnRunning?
    && st.pas[s].pc != SawListener(i)
    && NoneLive(st, PlaceOf(c, s, i)) && LsnToken(s, true, i) in st.lsnTokens
  }

  lemma LiveAlike(st: State, st': State, at: Place)
    requires st'.live == st.live && st'.listeners == st.listeners
    ensures NoneLive(st', at) == NoneLive(st, at)
  {
    assert forall x :: LiveAt(st', x, at) == LiveAt(st, x, at);
  }

  // ---------------------------------------------------------------------------
  // Once doomed, always doomed
  // ---------------------------------------------------------------------------

  /** Once the re-create token is used, every create call for the entry repeats an old answer. */
  lemma SpentMeansReplay(c: Config, st: State, s: nat, i: nat)
    requires c.Valid() && Inv(c, st) && s in st.pas && LsnToken(s, true, i) in st.lsnTokens
    ensures TokenFor(s, st.pas[s], i) in st.lsnTokens
  {
    assert MadeFor(st, st.lsnTokens[LsnToken(s, true, i)], s, i);
    assert MadeOk(c, st, st.lsnTokens[LsnToken(s, true, i)]);
  }

  lemma EntriesApart(c: Config, st: State, s: nat, i: nat, t: nat, j: nat)
    requires c.Valid() && Inv(c, st) && s in st.pas && t in st.pas && i < |st.pas[s].lsns| && j < |st.pas[t].lsns|
    requires PlaceOf(c, s, i) == PlaceOf(c, t, j)
    ensures s == t && i == j
  {
    assert PaOk(c, st, s, st.pas[s]) && PaOk(c, st, t, st.pas[t]);
    PlacesApart(c, s, i, t, j);
  }

  lemma DoomedCreates(c: Config, st: State, s: nat, i: nat, t: nat, w: Work)
    requires c.Valid() && Inv(c, st) && Doomed(c, st, s, i)
    requires t in st.pas && WorkEnabled(c, st, t, w) && w.CreateListener?
    ensures NoneLive(Cloud(c, st, t, w), PlaceOf(c, s, i))
  {
    SpentMeansReplay(c, st, s, i);
    if PlaceOf(c, t, w.i) == PlaceOf(c, s, i) {
      EntriesApart(c, st, s, i, t, w.i);
    }
  }

  lemma DoomedRuns(c: Config, st: State, s: nat, i: nat, w: Work)
    requires c.Valid() && Inv(c, st) && Doomed(c, st, s, i) && WorkEnabled(c, st, s, w)
    ensures !Next(c, st, s, w).lsns[i].phase.LsnRunning? && Next(c, st, s, w).pc != SawListener(i)
  {
    assert PaOk(c, st, s, st.pas[s]) && ListenerOk(st, s, i, st.pas[s].lsns[i]);
    if st.pas[s].lsns[i].id.Some? {
      assert MadeOk(c, st, st.pas[s].lsns[i].id.value);
    }
  }

  lemma DoomedDo(c: Config, st: State, t: nat, w: Work, s: nat, i: nat)
    requires c.Valid() && Inv(c, st) && t in st.pas && WorkEnabled(c, st, t, w) && Doomed(c, st, s, i)
    ensures NoneLive(Cloud(c, st, t, w), PlaceOf(c, s, i)) && LsnToken(s, true, i) in Cloud(c, st, t, w).lsnTokens
  {
    CloudRemembers(c, st, t, w);
    if w.CreateListener? {
      DoomedCreates(c, st, s, i, t, w);
    }
  }

  lemma EntriesStay(c: Config, st: State, s: nat, i: nat)
    requires c.Valid() && Inv(c, st) && s in st.pas && i < |st.pas[s].lsns|
    ensures st.pas[s].sgs != []
  {
    assert PaOk(c, st, s, st.pas[s]);
    PortInRange(c, i);
  }

  lemma DoomedOutside(c: Config, st: State, op: Op, s: nat, i: nat)
    requires c.Valid() && Enabled(c, st, op) && !op.Do? && Doomed(c, st, s, i)
    ensures Doomed(c, Apply(c, st, op), s, i)
  {
  }

  lemma DoomedWork(c: Config, st: State, t: nat, w: Work, s: nat, i: nat)
    requires c.Valid() && Inv(c, st) && t in st.pas && WorkEnabled(c, st, t, w) && Doomed(c, st, s, i)
    ensures Doomed(c, Apply(c, st, Do(t, w)), s, i)
  {
    var st' := Apply(c, st, Do(t, w));
    DoomedDo(c, st, t, w, s, i);
    LiveAlike(Cloud(c, st, t, w), st', PlaceOf(c, s, i));
    if t == s {
      EntriesStay(c, st, s, i);
      WorkKeepsPa(c, st, s, w);
      DoomedRuns(c, st, s, i, w);
    }
  }

  lemma DoomedStep(c: Config, st: State, op: Op, s: nat, i: nat)
    requires c.Valid() && Inv(c, st) && Enabled(c, st, op) && Doomed(c, st, s, i)
    ensures Doomed(c, Apply(c, st, op), s, i)
  {
    if op.Do? {
      DoomedWork(c, st, op.slot, op.work, s, i);
    } else {
      DoomedOutside(c, st, op, s, i);
    }
  }

  /** A doomed entry never runs again, so its PA never becomes Available. */
  lemma {:induction false} DoomedForever(c: Config, st: State, ops: seq<Op>, s: nat, i: nat)
    requires c.Valid() && Inv(c, st) && Legal(c, st, ops) && Doomed(c, st, s, i)
    ensures Doomed(c, End(c, st, ops), s, i) && !End(c, st, ops).pas[s].available
    decreases ops
  {
    if ops == [] {
      assert PaOk(c, st, s, st.pas[s]);
    } else {
      StepKeepsInv(c, st, ops[0]);
      DoomedStep(c, st, ops[0], s, i);
      DoomedForever(c, Apply(c, st, ops[0]), ops[1..], s, i);
    }
  }

  // ---------------------------------------------------------------------------
  // A run that completes the PA
  // ---------------------------------------------------------------------------

  lemma FreshId(used: set<nat>) returns (n: nat)
    ensures n !in used
  {
    var rest := used;
    n := 0;
    while rest != {}
      invariant rest <= used && forall k :: k in used && k !in rest ==> k < n
    {
      var k :| k in rest;
      rest := rest - {k};
      n := if k < n then n else k + 1;
    }
  }

  /** The PA is being provisioned, with every lane's NLB ready and addressed, and its worker is between two calls. */
  ghost predicate Settled(c: Config, st: State, s: nat)
    requires c.Valid()
  {
    && Reach(c, INIT, st) && s in st.pas && st.pas[s].pc.Idle? && !st.pas[s].available && st.pas[s].sgs != []
    && (forall l :: 0 <= l < c.lanes ==> (l, GroupOf(c.plan, s)) in st.ready)
    && Addressed(c, st, s)
  }

  /** What steps for entry i of slot s leave alone. */
  ghost predicate CellOnly(st: State, st': State, s: nat, i: nat) {
    && s in st.pas && s in st'.pas && st'.ready == st.ready && st'.addressed == st.addressed
    && st'.pas[s].sgs == st.pas[s].sgs && st'.pas[s].available == st.pas[s].available
    && |st'.pas[s].lsns| == |st.pas[s].lsns|
    && (forall j :: 0 <= j < |st.pas[s].lsns| && j != i ==> st'.pas[s].lsns[j] == st.pas[s].lsns[j])
    && (forall j: nat :: j != i ==> (LsnToken(s, true, j) in st'.lsnTokens <==> LsnToken(s, true, j) in st.lsnTokens))
    && st.live <= st'.live
    && (forall x :: x in st.listeners ==> x in st'.listeners && st'.listeners[x] == st.listeners[x])
  }

  /** st' is a safe state reached from st by steps for entry i of slot s alone. */
  ghost predicate CellRun(c: Config, st: State, st': State, s: nat, i: nat)
    requires c.Valid()
  {
    Reach(c, st, st') && Reach(c, INIT, st') && CellOnly(st, st', s, i)
  }

  predicate ForCell(st: State, s: nat, w: Work, i: nat)
    requires s in st.pas
  {
    match w
    case CreateListener(j, _) => j == i
    case ConflictPort(j) => j == i
    case SeeListener(j) => j == i
    case RunListener => st.pas[s].pc.SawListener? && st.pas[s].pc.i == i
    case MissListener(j) => j == i
    case RecordListener => st.pas[s].pc.GotListener? && st.pas[s].pc.i == i
    case FindByPort(_) => true
    case _ => false
  }

  lemma CellOnlyStep(c: Config, st: State, s: nat, w: Work, i: nat)
    requires c.Valid() && s in st.pas && WorkEnabled(c, st, s, w) && ForCell(st, s, w, i)
    ensures CellOnly(st, Apply(c, st, Do(s, w)), s, i)
  {
  }

  lemma CellOnlyComposes(a: State, b: State, d: State, s: nat, i: nat)
    requires CellOnly(a, b, s, i) && CellOnly(b, d, s, i)
    ensures CellOnly(a, d, s, i)
  {
  }

  lemma CellStep(c: Config, st: State, mid: State, s: nat, w: Work, i: nat) returns (st': State)
    requires c.Valid() && CellRun(c, st, mid, s, i) && WorkEnabled(c, mid, s, w) && ForCell(mid, s, w, i)
    ensures st' == Apply(c, mid, Do(s, w)) && CellRun(c, st, st', s, i)
  {
    st' := Apply(c, mid, Do(s, w));
    ReachStep(c, st, mid, Do(s, w));
    ReachStep(c, INIT, mid, Do(s, w));
    CellOnlyStep(c, mid, s, w, i);
    CellOnlyComposes(st, mid, st', s, i);
  }

  lemma CellSelf(c: Config, st: State, s: nat, i: nat)
    requires c.Valid() && Reach(c, INIT, st) && s in st.pas
    ensures CellRun(c, st, st, s, i)
  {
    ReachSelf(c, st);
  }

  /** Entry i is recorded as Running and the worker is between two calls. */
  predicate Running(st: State, s: nat, i: nat) {
    s in st.pas && st.pas[s].pc.Idle? && i < |st.pas[s].lsns| && st.pas[s].lsns[i].phase.LsnRunning?
  }

  /** The worker holds the ID of a live listener for entry i. */
  predicate Holds(st: State, s: nat, i: nat) {
    && s in st.pas && !st.pas[s].available
    && st.pas[s].pc.GotListener? && st.pas[s].pc.i == i && st.pas[s].pc.listener in st.live
  }

  lemma HeldEntry(c: Config, st: State, s: nat)
    requires c.Valid() && Reach(c, INIT, st) && s in st.pas && st.pas[s].pc.GotListener?
    ensures st.pas[s].pc.i < |st.pas[s].lsns| && AllActive(st.pas[s])
  {
    ReachableSafe(c, st);
    assert PaOk(c, st, s, st.pas[s]);
  }

  lemma PendingHasNone(c: Config, st: State, s: nat, i: nat)
    requires c.Valid() && Reach(c, INIT, st) && s in st.pas
    requires i < |st.pas[s].lsns| && st.pas[s].lsns[i].phase.LsnPending?
    ensures st.pas[s].lsns[i] == LsnRecord(None, LsnPending)
  {
    RecordsCovered(c, st, s);
  }

  lemma Record(c: Config, st: State, mid: State, s: nat, i: nat) returns (st': State)
    requires c.Valid() && CellRun(c, st, mid, s, i)
    requires !mid.pas[s].available && mid.pas[s].pc.GotListener? && mid.pas[s].pc.i == i
    ensures CellRun(c, st, st', s, i) && i < |st'.pas[s].lsns| && AllActive(st'.pas[s]) && !st'.pas[s].available
    ensures st'.pas[s].lsns[i] == LsnRecord(Some(mid.pas[s].pc.listener), LsnCreating) && st'.pas[s].pc.Idle?
    ensures st'.live == mid.live && st'.ready == mid.ready && st'.addressed == mid.addressed
    ensures st'.lsnTokens == mid.lsnTokens
    ensures st'.listeners == mid.listeners && st'.pas[s].sgs == mid.pas[s].sgs
  {
    HeldEntry(c, mid, s);
    st' := CellStep(c, st, mid, s, RecordListener, i);
  }

  /** A live listener in hand is recorded and found running. */
  lemma FinishListener(c: Config, st: State, mid: State, s: nat, i: nat) returns (st': State)
    requires c.Valid() && CellRun(c, st, mid, s, i) && Holds(mid, s, i)
    ensures CellRun(c, st, st', s, i) && Running(st', s, i)
  {
    st' := Record(c, st, mid, s, i);
    st' := CellStep(c, st, st', s, SeeListener(i), i);
    st' := CellStep(c, st, st', s, RunListener, i);
  }

  /** The listener at the place is adopted. */
  lemma Adopt(c: Config, st: State, mid: State, s: nat, i: nat) returns (st': State)
    requires c.Valid() && CellRun(c, st, mid, s, i) && !mid.pas[s].available
    requires mid.pas[s].pc == Missing(i) || mid.pas[s].pc == Blocked(i)
    requires !NoneLive(mid, PlaceOf(c, s, i))
    ensures CellRun(c, st, st', s, i) && Running(st', s, i)
  {
    var x :| x in mid.live && LiveAt(mid, x, PlaceOf(c, s, i));
    st' := CellStep(c, st, mid, s, FindByPort(Some(x)), i);
    assert Holds(st', s, i);
    st' := FinishListener(c, st, st', s, i);
  }

  /** With nothing at the place and an unused token, the cloud creates a listener. */
  lemma Create(c: Config, st: State, mid: State, s: nat, i: nat) returns (st': State)
    requires c.Valid() && CellRun(c, st, mid, s, i) && !mid.pas[s].available && CanCreate(c, mid, s, i)
    requires NoneLive(mid, PlaceOf(c, s, i)) && TokenFor(s, mid.pas[s], i) !in mid.lsnTokens
    ensures CellRun(c, st, st', s, i) && Running(st', s, i)
  {
    var x := FreshId(mid.listeners.Keys + mid.live);
    st' := CellStep(c, st, mid, s, CreateListener(i, x), i);
    assert Holds(st', s, i);
    st' := FinishListener(c, st, st', s, i);
  }

  lemma LaneReady(c: Config, st: State, s: nat, i: nat)
    requires c.Valid() && Settled(c, st, s) && i < |st.pas[s].lsns|
    ensures (i % c.lanes, GroupOf(c.plan, s)) in st.ready
  {
  }

  /** From a Creating entry: look its place up, and re-create when nothing is there. */
  lemma FinishCreating(c: Config, st: State, mid: State, s: nat, i: nat) returns (st': State)
    requires c.Valid() && CellRun(c, st, mid, s, i) && Settled(c, mid, s) && AllActive(mid.pas[s])
    requires i < |mid.pas[s].lsns| && mid.pas[s].lsns[i].phase.LsnCreating? && !Doomed(c, mid, s, i)
    ensures CellRun(c, st, st', s, i) && Running(st', s, i)
  {
    LaneReady(c, mid, s, i);
    st' := CellStep(c, st, mid, s, MissListener(i), i);
    assert NoneLive(st', PlaceOf(c, s, i)) == NoneLive(mid, PlaceOf(c, s, i));
    if NoneLive(st', PlaceOf(c, s, i)) {
      st' := CellStep(c, st, st', s, FindByPort(None), i);
      st' := Create(c, st, st', s, i);
    } else {
      st' := Adopt(c, st, st', s, i);
    }
  }

  /** From a Pending entry: create; adopt what is already there; a vanished answer is recorded and looked up. */
  lemma FinishPending(c: Config, st: State, s: nat, i: nat) returns (st': State)
    requires c.Valid() && Settled(c, st, s) && AllActive(st.pas[s])
    requires i < |st.pas[s].lsns| && st.pas[s].lsns[i].phase.LsnPending? && !Doomed(c, st, s, i)
    ensures CellRun(c, st, st', s, i) && Running(st', s, i)
  {
    CellSelf(c, st, s, i);
    LaneReady(c, st, s, i);
    PendingHasNone(c, st, s, i);
    if !NoneLive(st, PlaceOf(c, s, i)) {
      st' := CellStep(c, st, st, s, ConflictPort(i), i);
      st' := Adopt(c, st, st', s, i);
    } else if TokenFor(s, st.pas[s], i) !in st.lsnTokens {
      st' := Create(c, st, st, s, i);
    } else {
      st' := FinishReplayed(c, st, s, i);
    }
  }

  lemma FinishReplayed(c: Config, st: State, s: nat, i: nat) returns (st': State)
    requires c.Valid() && Settled(c, st, s) && CanCreate(c, st, s, i) && !Doomed(c, st, s, i)
    requires TokenFor(s, st.pas[s], i) in st.lsnTokens && !st.pas[s].lsns[i].phase.LsnRunning?
    ensures CellRun(c, st, st', s, i) && Running(st', s, i)
  {
    CellSelf(c, st, s, i);
    var mid := CellStep(c, st, st, s, CreateListener(i, st.lsnTokens[TokenFor(s, st.pas[s], i)]), i);
    mid := Record(c, st, mid, s, i);
    assert NoneLive(mid, PlaceOf(c, s, i)) == NoneLive(st, PlaceOf(c, s, i));
    st' := FinishCreating(c, st, mid, s, i);
  }

  lemma FinishCell(c: Config, st: State, s: nat, i: nat) returns (st': State)
    requires c.Valid() && Settled(c, st, s) && AllActive(st.pas[s]) && i < |st.pas[s].lsns| && !Doomed(c, st, s, i)
    ensures CellRun(c, st, st', s, i) && Running(st', s, i)
  {
    CellSelf(c, st, s, i);
    match st.pas[s].lsns[i].phase
    case LsnPending => st' := FinishPending(c, st, s, i);
    case LsnCreating => st' := FinishCreating(c, st, st, s, i);
    case LsnRunning => st' := st;
  }

  lemma OthersUndoomed(c: Config, st: State, st': State, s: nat, i: nat, j: nat)
    requires c.Valid() && CellOnly(st, st', s, i) && Running(st', s, i) && !Doomed(c, st, s, j) && st.pas[s].pc.Idle?
    ensures !Doomed(c, st', s, j)
  {
    if j != i && !NoneLive(st, PlaceOf(c, s, j)) {
      var x :| x in st.live && LiveAt(st, x, PlaceOf(c, s, j));
      assert LiveAt(st', x, PlaceOf(c, s, j));
    }
  }

  /** All ServerGroups are Active, the first k listeners Running, and no entry is doomed. */
  ghost predicate Upto(c: Config, st: State, s: nat, k: nat)
    requires c.Valid()
  {
    && Settled(c, st, s) && AllActive(st.pas[s]) && k <= |st.pas[s].lsns|
    && (forall i :: 0 <= i < k ==> st.pas[s].lsns[i].phase.LsnRunning?)
    && forall i :: 0 <= i < |st.pas[s].lsns| ==> !Doomed(c, st, s, i)
  }

  lemma {:induction false} FinishCells(c: Config, st: State, s: nat, k: nat) returns (st': State)
    requires c.Valid() && Upto(c, st, s, k)
    ensures Reach(c, st, st') && Settled(c, st', s) && AllActive(st'.pas[s]) && AllRunning(st'.pas[s])
    decreases |st.pas[s].lsns| - k
  {
    if k == |st.pas[s].lsns| {
      ReachSelf(c, st);
      st' := st;
    } else {
      var mid := FinishCell(c, st, s, k);
      forall i | 0 <= i < |mid.pas[s].lsns| ensures !Doomed(c, mid, s, i) {
        OthersUndoomed(c, st, mid, s, k, i);
      }
      st' := FinishCells(c, mid, s, k + 1);
      ReachTrans(c, st, mid, st');
    }
  }

  lemma {:induction false} Concat(c: Config, st: State, a: seq<Op>, b: seq<Op>)
    requires c.Valid() && Legal(c, st, a) && Legal(c, End(c, st, a), b)
    ensures Legal(c, st, a + b) && End(c, st, a + b) == End(c, End(c, st, a), b)
    decreases a
  {
    if a == [] {
      assert a + b == b;
    } else {
      assert (a + b)[1..] == a[1..] + b;
      Concat(c, Apply(c, st, a[0]), a[1..], b);
    }
  }

  lemma ReachTrans(c: Config, st: State, mid: State, st': State)
    requires c.Valid() && Reach(c, st, mid) && Reach(c, mid, st')
    ensures Reach(c, st, st')
  {
    var a :| Legal(c, st, a) && End(c, st, a) == mid;
    var b :| Legal(c, mid, b) && End(c, mid, b) == st';
    Concat(c, st, a, b);
  }

  // ServerGroups

  ghost predicate SameListeners(st: State, st': State, s: nat) {
    && s in st.pas && s in st'.pas && st'.ready == st.ready && st'.addressed == st.addressed
    && st'.pas[s].lsns == st.pas[s].lsns && st'.pas[s].available == st.pas[s].available
    && st'.lsnTokens == st.lsnTokens && st'.live == st.live && st'.listeners == st.listeners
  }

  ghost predicate GroupRun(c: Config, st: State, st': State, s: nat, p: nat)
    requires c.Valid()
  {
    && Reach(c, st, st') && Reach(c, INIT, st') && SameListeners(st, st', s)
    && |st'.pas[s].sgs| == |st.pas[s].sgs|
    && forall q :: 0 <= q < |st.pas[s].sgs| && q != p ==> st'.pas[s].sgs[q] == st.pas[s].sgs[q]
  }

  lemma GroupStep(c: Config, st: State, mid: State, s: nat, w: Work, p: nat) returns (st': State)
    requires c.Valid() && GroupRun(c, st, mid, s, p) && WorkEnabled(c, mid, s, w)
    requires (w.CreateGroup? && w.p == p) || ((w.RecordGroup? || w.ActivateGroup?) && mid.pas[s].pc.p == p)
      || w == SeeGroup(p)
    ensures st' == Apply(c, mid, Do(s, w)) && GroupRun(c, st, st', s, p)
  {
    st' := Apply(c, mid, Do(s, w));
    ReachStep(c, st, mid, Do(s, w));
    ReachStep(c, INIT, mid, Do(s, w));
  }

  lemma FinishGroup(c: Config, st: State, s: nat, p: nat) returns (st': State)
    requires c.Valid() && Settled(c, st, s) && p < |st.pas[s].sgs|
    ensures GroupRun(c, st, st', s, p) && st'.pas[s].pc.Idle? && st'.pas[s].sgs[p].phase.SgActive?
  {
    ReachSelf(c, st);
    st' := st;
    if st.pas[s].sgs[p].phase.SgPending? {
      RecordsCovered(c, st, s);
      var g := FreshId(st.groups.Keys);
      g := if SgToken(s, p) in st.sgTokens then st.sgTokens[SgToken(s, p)] else g;
      st' := GroupStep(c, st, st', s, CreateGroup(p, g), p);
      st' := GroupStep(c, st, st', s, RecordGroup, p);
    }
    if st'.pas[s].sgs[p].phase.SgCreating? {
      st' := GroupStep(c, st, st', s, SeeGroup(p), p);
      st' := GroupStep(c, st, st', s, ActivateGroup, p);
    }
  }

  lemma {:induction false} FinishGroups(c: Config, st: State, s: nat, k: nat) returns (st': State)
    requires c.Valid() && Settled(c, st, s) && k <= |st.pas[s].sgs|
    requires forall p :: 0 <= p < k ==> st.pas[s].sgs[p].phase.SgActive?
    ensures Reach(c, st, st') && Settled(c, st', s) && AllActive(st'.pas[s]) && SameListeners(st, st', s)
    decreases |st.pas[s].sgs| - k
  {
    if k == |st.pas[s].sgs| {
      ReachSelf(c, st);
      st' := st;
    } else {
      var mid := FinishGroup(c, st, s, k);
      st' := FinishGroups(c, mid, s, k + 1);
      ReachTrans(c, st, mid, st');
    }
  }

  // Before and after

  lemma {:induction false} ReadyLanes(c: Config, st: State, s: nat, n: nat) returns (st': State)
    requires c.Valid() && Reach(c, INIT, st) && n <= c.lanes
    ensures Reach(c, st, st') && Reach(c, INIT, st') && st' == st.(ready := st'.ready, addressed := st'.addressed)
    ensures forall l :: 0 <= l < n ==> (l, GroupOf(c.plan, s)) in st'.ready && (l, GroupOf(c.plan, s)) in st'.addressed
  {
    if n == 0 {
      ReachSelf(c, st);
      st' := st;
    } else {
      var mid := ReadyLanes(c, st, s, n - 1);
      var at := GroupOf(c.plan, s);
      ReachStep(c, st, mid, NlbReady(n - 1, at));
      ReachStep(c, INIT, mid, NlbReady(n - 1, at));
      mid := Apply(c, mid, NlbReady(n - 1, at));
      ReachStep(c, st, mid, NlbAddressed(n - 1, at));
      ReachStep(c, INIT, mid, NlbAddressed(n - 1, at));
      st' := Apply(c, mid, NlbAddressed(n - 1, at));
    }
  }

  lemma TokensNeedGroups(c: Config, st: State, s: nat, i: nat)
    requires c.Valid() && Reach(c, INIT, st) && s in st.pas
    ensures LsnToken(s, true, i) in st.lsnTokens ==> st.pas[s].sgs != []
  {
    ReachableSafe(c, st);
    if LsnToken(s, true, i) in st.lsnTokens {
      assert MadeFor(st, st.lsnTokens[LsnToken(s, true, i)], s, i);
      assert MadeOk(c, st, st.lsnTokens[LsnToken(s, true, i)]);
    }
  }

  lemma SeenInRange(c: Config, st: State, s: nat)
    requires c.Valid() && Reach(c, INIT, st) && s in st.pas && st.pas[s].pc.SawListener?
    ensures st.pas[s].pc.i < |st.pas[s].lsns| && st.pas[s].sgs != []
  {
    ReachableSafe(c, st);
    assert PaOk(c, st, s, st.pas[s]);
  }

  lemma SettledUndoomed(c: Config, st: State, b: State, st': State, s: nat, i: nat)
    requires c.Valid() && Reach(c, INIT, st) && s in st.pas && s in b.pas && s in st'.pas && st'.pas == b.pas
    requires st'.live == b.live && st'.listeners == b.listeners && st'.lsnTokens == b.lsnTokens
    requires b.live == st.live && b.listeners == st.listeners && b.lsnTokens == st.lsnTokens
    requires i < |b.pas[s].lsns|
    requires st.pas[s].sgs == [] ||
      (i < |st.pas[s].lsns| && !Doomed(c, st, s, i)
       && (b.pas[s].lsns[i] == st.pas[s].lsns[i] || b.pas[s].lsns[i].phase.LsnRunning?)
       && (st.pas[s].pc == SawListener(i) ==> b.pas[s].lsns[i].phase.LsnRunning?))
    ensures !Doomed(c, st', s, i)
  {
    TokensNeedGroups(c, st, s, i);
    LiveAlike(st, st', PlaceOf(c, s, i));
  }

  /** The worker ends its reconcile; a listener just seen running is recorded first. */
  lemma BackToIdle(c: Config, st: State, s: nat) returns (a: State)
    requires c.Valid() && Reach(c, INIT, st) && s in st.pas && !st.pas[s].available
    ensures Reach(c, st, a) && Reach(c, INIT, a) && s in a.pas && a.pas[s].pc.Idle? && !a.pas[s].available
    ensures a.live == st.live && a.listeners == st.listeners && a.lsnTokens == st.lsnTokens
    ensures a.pas[s].sgs == st.pas[s].sgs && |a.pas[s].lsns| == |st.pas[s].lsns|
    ensures forall i :: 0 <= i < |st.pas[s].lsns| ==>
      a.pas[s].lsns[i].phase.LsnRunning? || (a.pas[s].lsns[i] == st.pas[s].lsns[i] && st.pas[s].pc != SawListener(i))
  {
    if st.pas[s].pc.SawListener? {
      SeenInRange(c, st, s);
    }
    var next := Do(s, if st.pas[s].pc.SawListener? then RunListener else Drop);
    a := Apply(c, st, next);
    ReachSelf(c, st);
    ReachStep(c, st, st, next);
    ReachStep(c, INIT, st, next);
  }

  /** Any PA that is not yet Available gets to a settled state without dooming an entry. */
  lemma Settle(c: Config, st: State, s: nat) returns (st': State)
    requires c.Valid() && c.plan.P > 0 && Reach(c, INIT, st) && s in st.pas && !st.pas[s].available
    requires forall i :: 0 <= i < |st.pas[s].lsns| ==> !Doomed(c, st, s, i)
    ensures Reach(c, st, st') && Settled(c, st', s)
    ensures forall i :: 0 <= i < |st'.pas[s].lsns| ==> !Doomed(c, st', s, i)
  {
    var a := BackToIdle(c, st, s);
    var b := a;
    if a.pas[s].sgs == [] {
      b := Apply(c, a, Do(s, Init));
      ReachStep(c, st, a, Do(s, Init));
      ReachStep(c, INIT, a, Do(s, Init));
    }
    st' := ReadyLanes(c, b, s, c.lanes);
    ReachTrans(c, st, b, st');
    forall i | 0 <= i < |st'.pas[s].lsns| ensures !Doomed(c, st', s, i) {
      SettledUndoomed(c, st, b, st', s, i);
    }
  }

  /** The spec is filled and the PA promoted. */
  lemma Publish(c: Config, st: State, s: nat) returns (st': State)
    requires c.Valid() && Settled(c, st, s) && AllActive(st.pas[s]) && AllRunning(st.pas[s])
    ensures Reach(c, st, st') && s in st'.pas && st'.pas[s].available
  {
    var mid := Apply(c, st, Do(s, FillSpec));
    ReachSelf(c, st);
    ReachStep(c, st, st, Do(s, FillSpec));
    st' := Apply(c, mid, Do(s, Promote));
    ReachStep(c, st, mid, Do(s, Promote));
  }

  /** From every reachable state without a doomed entry, some run makes the PA Available. */
  lemma Completes(c: Config, st: State, s: nat) returns (st': State)
    requires c.Valid() && c.plan.P > 0 && Reach(c, INIT, st) && s in st.pas && !st.pas[s].available
    requires forall i :: 0 <= i < |st.pas[s].lsns| ==> !Doomed(c, st, s, i)
    ensures Reach(c, st, st') && s in st'.pas && st'.pas[s].available
  {
    var a := Settle(c, st, s);
    var b := FinishGroups(c, a, s, 0);
    forall i | 0 <= i < |b.pas[s].lsns| ensures !Doomed(c, b, s, i) {
      SameUndoomed(c, a, b, s, i);
    }
    var d := FinishCells(c, b, s, 0);
    st' := Publish(c, d, s);
    ReachTrans(c, st, a, b);
    ReachTrans(c, st, b, d);
    ReachTrans(c, st, d, st');
  }

  lemma SameUndoomed(c: Config, st: State, st': State, s: nat, i: nat)
    requires c.Valid() && SameListeners(st, st', s) && !Doomed(c, st, s, i) && st.pas[s].pc.Idle?
    ensures !Doomed(c, st', s, i)
  {
    LiveAlike(st, st', PlaceOf(c, s, i));
  }

  /** The exact condition: a PA can still become Available if and only if none of its entries is doomed. */
  lemma CompletableIff(c: Config, st: State, s: nat)
    requires c.Valid() && c.plan.P > 0 && Reach(c, INIT, st) && s in st.pas
    ensures (exists st' :: Reach(c, st, st') && s in st'.pas && st'.pas[s].available)
       <==> forall i :: 0 <= i < |st.pas[s].lsns| ==> !Doomed(c, st, s, i)
  {
    ReachableSafe(c, st);
    forall i | 0 <= i < |st.pas[s].lsns| && Doomed(c, st, s, i)
      ensures forall st' :: Reach(c, st, st') && s in st'.pas ==> !st'.pas[s].available
    {
      forall st' | Reach(c, st, st') && s in st'.pas ensures !st'.pas[s].available {
        var ops :| Legal(c, st, ops) && End(c, st, ops) == st';
        DoomedForever(c, st, ops, s, i);
      }
    }
    if st.pas[s].available {
      ReachSelf(c, st);
      AvailableIsComplete(c, st, s);
    } else if forall i :: 0 <= i < |st.pas[s].lsns| ==> !Doomed(c, st, s, i) {
      var st' := Completes(c, st, s);
    }
  }

  // ---------------------------------------------------------------------------
  // Without losses, and with two
  // ---------------------------------------------------------------------------

  /** Every listener ever created is still live. */
  predicate NothingLost(st: State) {
    forall x :: x in st.listeners ==> x in st.live
  }

  lemma NothingLostStep(c: Config, st: State, op: Op)
    requires c.Valid() && NothingLost(st) && Enabled(c, st, op) && !op.Vanish?
    ensures NothingLost(Apply(c, st, op))
  {
  }

  lemma {:induction false} NothingLostRun(c: Config, st: State, ops: seq<Op>)
    requires c.Valid() && NothingLost(st) && Legal(c, st, ops) && forall k :: 0 <= k < |ops| ==> !ops[k].Vanish?
    ensures NothingLost(End(c, st, ops))
    decreases ops
  {
    if ops != [] {
      NothingLostStep(c, st, ops[0]);
      NothingLostRun(c, Apply(c, st, ops[0]), ops[1..]);
    }
  }

  /** As long as no listener vanishes, no lost patch, conflict or restart keeps any PA from completing. */
  lemma LossFreeCompletes(c: Config, ops: seq<Op>, s: nat) returns (st': State)
    requires c.Valid() && c.plan.P > 0 && Legal(c, INIT, ops) && s in End(c, INIT, ops).pas
    requires forall k :: 0 <= k < |ops| ==> !ops[k].Vanish?
    ensures Reach(c, End(c, INIT, ops), st') && s in st'.pas && st'.pas[s].available
  {
    var st := End(c, INIT, ops);
    assert Reach(c, INIT, st);
    NothingLostRun(c, INIT, ops);
    forall i | 0 <= i < |st.pas[s].lsns| ensures !Doomed(c, st, s, i) {
      LiveNotDoomed(c, st, s, i);
    }
    CompletableIff(c, st, s);
    st' :| Reach(c, st, st') && s in st'.pas && st'.pas[s].available;
  }

  lemma LiveNotDoomed(c: Config, st: State, s: nat, i: nat)
    requires c.Valid() && Reach(c, INIT, st) && NothingLost(st)
    ensures !Doomed(c, st, s, i)
  {
    ReachableSafe(c, st);
    var t := LsnToken(s, true, i);
    if t in st.lsnTokens {
      assert MadeFor(st, st.lsnTokens[t], s, i);
      assert MadeOk(c, st, st.lsnTokens[t]);
      assert LiveAt(st, st.lsnTokens[t], PlaceOf(c, s, i));
    }
  }

  const ONE := Config(Plan(1, 1, 1000), 1)

  /** The PA of slot 0 with its ServerGroups Active, one listener record, and nothing live in the cloud. */
  ghost predicate Dark(st: State, l: LsnRecord) {
    && Reach(ONE, INIT, st) && 0 in st.pas && st.pas[0].pc.Idle? && !st.pas[0].available && AllActive(st.pas[0])
    && st.pas[0].lsns == [l] && (0, 0) in st.ready && st.live == {}
  }

  lemma Begins() returns (st: State)
    ensures Dark(st, LsnRecord(None, LsnPending)) && st.lsnTokens == map[] && st.listeners == map[]
  {
    ReachSelf(ONE, INIT);
    st := Play(INIT, NewPa(0));
    st := Play(st, Do(0, Init));
    assert st.pas[0].sgs == [ServerGroup(None, SgPending)];
    assert st.pas[0].lsns == [LsnRecord(None, LsnPending)];
    st := Play(st, Do(0, CreateGroup(0, 7)));
    st := Play(st, Do(0, RecordGroup));
    st := Play(st, Do(0, SeeGroup(0)));
    st := Play(st, Do(0, ActivateGroup));
    st := Play(st, NlbReady(0, 0));
  }

  lemma Play(st: State, op: Op) returns (st': State)
    requires Reach(ONE, INIT, st) && Enabled(ONE, st, op)
    ensures st' == Apply(ONE, st, op) && Reach(ONE, INIT, st')
  {
    ReachStep(ONE, INIT, st, op);
    st' := Apply(ONE, st, op);
  }

  lemma LosesOnce() returns (st: State)
    ensures Dark(st, LsnRecord(Some(1), LsnCreating))
    ensures LsnToken(0, true, 0) !in st.lsnTokens && st.listeners.Keys == {1}
  {
    st := Begins();
    st := Play(st, Do(0, CreateListener(0, 1)));
    st := Play(st, Do(0, RecordListener));
    st := Play(st, Vanish(1));
  }

  lemma FindsNothing() returns (st: State)
    ensures Reach(ONE, INIT, st) && 0 in st.pas && st.pas[0].pc == Absent(0) && !st.pas[0].available
    ensures AllActive(st.pas[0]) && st.pas[0].lsns == [LsnRecord(Some(1), LsnCreating)] && (0, 0) in st.ready
    ensures st.live == {} && LsnToken(0, true, 0) !in st.lsnTokens && st.listeners.Keys == {1}
  {
    st := LosesOnce();
    st := Play(st, Do(0, MissListener(0)));
    st := Play(st, Do(0, FindByPort(None)));
  }

  lemma LosesTwice() returns (st: State)
    ensures Dark(st, LsnRecord(Some(2), LsnCreating)) && LsnToken(0, true, 0) in st.lsnTokens
  {
    st := FindsNothing();
    st := Play(st, Do(0, CreateListener(0, 2)));
    st := Play(st, Do(0, RecordListener));
    st := Play(st, Vanish(2));
  }

  /**
   One port on one lane: the listener vanishes before it runs, and so does its replacement.  No later run makes the PA
   Available.
   */
  lemma LosingTwiceSticks()
    ensures exists st ::
      && Reach(ONE, INIT, st) && 0 in st.pas
      && forall st' :: Reach(ONE, st, st') && 0 in st'.pas ==> !st'.pas[0].available
  {
    var st := LosesTwice();
    assert Doomed(ONE, st, 0, 0);
    CompletableIff(ONE, st, 0);
  }
}
