/** What every interleaving of AddPort, RemovePort and the routines they control keeps. */
module PortManagerProofs {
  import opened Prelude
  import opened Ports
  import opened PortManager

  type ValidIP = string -> bool

  // ---------------------------------------------------------------- the mutex

  predicate HoldsMu(pc: CallPc) {
    pc.AddPutPort? || pc.AddPutStopper? || pc.RemoveStop? || pc.RemoveWait? || pc.RemoveStopper? || pc.RemovePort?
  }

  predicate MuRight(s: State) {
    && (forall c | c in s.calls :: HoldsMu(s.calls[c]) <==> s.mu == Some(c))
    && (s.mu.Some? ==> s.mu.value in s.calls)
  }

  // ---------------------------------------------------------------- routines and who owns them

  function Pending(pc: CallPc): Option<Rid> {
    match pc
    case AddLock(_, rid) => Some(rid)
    case AddPutPort(_, rid) => Some(rid)
    case AddPutStopper(_, rid) => Some(rid)
    case _ => None
  }

  /** An AddPort call between its run and its registration owns the routine it started. */
  predicate PendingRight(s: State, c: Call)
    requires c in s.calls
  {
    Pending(s.calls[c]).Some? ==>
      var rid := Pending(s.calls[c]).value;
      && rid in s.routines && s.routines[rid].owner == OfCall(c)
      && s.routines[rid].spec == s.calls[c].spec
  }

  /** The removal a call is at is that of an entry of stoppers. */
  predicate RemovalRight(s: State, pc: CallPc) {
    match pc
    case RemoveStop(id, rid) => id in s.stoppers && s.stoppers[id] == rid
    case RemoveWait(id, rid) => id in s.stoppers && s.stoppers[id] == rid
    case RemoveStopper(id, rid, _) => id in s.stoppers && s.stoppers[id] == rid
    case RemovePort(id, _, _) => id !in s.stoppers && id < s.nextID
    case _ => true
  }

  predicate OwnersRight(s: State) {
    && (forall c | c in s.calls :: PendingRight(s, c) && (HoldsMu(s.calls[c]) ==> RemovalRight(s, s.calls[c])))
    && (forall id | id in s.stoppers :: s.stoppers[id] in s.routines && s.routines[s.stoppers[id]].owner == OfId(id))
    && (forall r | r in s.routines && s.routines[r].owner.OfId? ::
          s.routines[r].owner.id in s.stoppers && s.stoppers[s.routines[r].owner.id] == r)
    && (forall id | id in s.stoppers :: id < s.nextID)
  }

  // ---------------------------------------------------------------- ports and stoppers

  /** The one ID in ports but not in stoppers, while the holder of `mu` is half way. */
  function Half(s: State): set<int> {
    if s.mu == None || s.mu.value !in s.calls then {}
    else
      match s.calls[s.mu.value]
      case AddPutStopper(_, _) => {s.nextID}
      case RemovePort(id, _, _) => {id}
      case _ => {}
  }

  predicate KeysRight(s: State) {
    && s.ports.Keys == s.stoppers.Keys + Half(s)
    && (forall id | id in s.ports :: s.ports[id].id == id)
    && (forall id | id in s.ports :: id in s.issued)
    && (forall i | 0 <= i < |s.issued| :: 1 <= s.issued[i] <= s.nextID)
    && (forall i | 0 <= i < |s.issued| && s.issued[i] == s.nextID :: s.mu.Some? && s.mu.value in s.calls && s.calls[s.mu.value].AddPutStopper?)
    && (forall i, j | 0 <= i < j < |s.issued| :: s.issued[i] < s.issued[j])
    && s.nextID >= 1
  }

  predicate SpecsRight(s: State) {
    && (forall id | id in s.stoppers && id in s.ports && s.stoppers[id] in s.routines ::
          s.ports[id].spec == s.routines[s.stoppers[id]].spec)
    && (s.mu.Some? && s.mu.value in s.calls && s.calls[s.mu.value].AddPutStopper? && s.nextID in s.ports ==>
          s.ports[s.nextID].spec == s.calls[s.mu.value].spec)
  }

  // ---------------------------------------------------------------- the stop protocol

  predicate RoutineRight(r: Routine) {
    && r.stopCloses <= 1 && r.reports <= 1
    && (r.reports == 1 <==> r.stopper == ClosingChannel || r.stopper == StopperDone)
    && (r.channelClosed <==> r.stopper == StopperDone)
    && (r.reports == 1 ==> r.stopCloses == 1)
    && (r.listening <==> r.stopper == Selecting || r.stopper == ClosingListener)
    && (r.connsClosed <==> r.acceptor == AcceptorDone)
    && r.accepted == r.dispatched + (if r.acceptor == HandingOver then 1 else 0)
  }

  /** A routine is told to stop, and reports, only while its entry is being removed. */
  predicate StopsRight(s: State, r: Rid)
    requires r in s.routines
  {
    match s.routines[r].owner
    case OfCall(_) => s.routines[r].stopCloses == 0
    case OfId(id) =>
      s.routines[r].stopCloses == 0
      || (s.mu.Some? && s.mu.value in s.calls && match s.calls[s.mu.value]
                                                 case RemoveWait(i, _) => i == id && s.routines[r].reports == 0
                                                 case RemoveStopper(i, _, _) => i == id
                                                 case _ => false)
    case Released => s.routines[r].stopCloses == 1
  }

  /** What a removal returns is whether the routine's report was received; it never finds the channel closed instead. */
  predicate ResultRight(s: State, rid: Rid, result: RemoveResult) {
    && rid in s.routines && s.routines[rid].stopCloses == 1
    && result == if s.routines[rid].reports == 1 then Reported else TimedOut
  }

  /** A waiting call has closed the stop channel of its routine; then it has a result. */
  predicate WaitRight(s: State, pc: CallPc) {
    match pc
    case RemoveWait(_, rid) => rid in s.routines && s.routines[rid].stopCloses == 1
    case RemoveStopper(_, rid, result) => ResultRight(s, rid, result)
    case RemovePort(_, rid, result) => ResultRight(s, rid, result) && s.routines[rid].owner == Released
    case Removed(_, rid, result) => ResultRight(s, rid, result) && s.routines[rid].owner == Released
    case _ => true
  }

  predicate StopProtocol(s: State) {
    && (forall r | r in s.routines :: RoutineRight(s.routines[r]) && StopsRight(s, r))
    && (forall c | c in s.calls && s.calls[c].Removed? :: WaitRight(s, s.calls[c]))
    && (s.mu.Some? && s.mu.value in s.calls ==> WaitRight(s, s.calls[s.mu.value]))
  }

  predicate Inv(s: State) {
    MuRight(s) && OwnersRight(s) && KeysRight(s) && SpecsRight(s) && StopProtocol(s)
  }

  // ---------------------------------------------------------------- steps of AddPort

  lemma AddMu(v: ValidIP, s: State, c: Call, a: CallAction)
    requires MuRight(s)
    requires c in s.calls && AddStep(v, s, c, s.calls[c], a).Some?
    ensures MuRight(AddStep(v, s, c, s.calls[c], a).value)
  {
  }

  lemma AddOwners(v: ValidIP, s: State, c: Call, a: CallAction)
    requires MuRight(s) && OwnersRight(s)
    requires c in s.calls && AddStep(v, s, c, s.calls[c], a).Some?
    ensures OwnersRight(AddStep(v, s, c, s.calls[c], a).value)
  {
  }

  lemma AddKeys(v: ValidIP, s: State, c: Call, a: CallAction)
    requires MuRight(s) && OwnersRight(s) && KeysRight(s)
    requires c in s.calls && AddStep(v, s, c, s.calls[c], a).Some?
    ensures KeysRight(AddStep(v, s, c, s.calls[c], a).value)
  {
    AddHalf(v, s, c, a);
    hide Half, PendingRight, RemovalRight, WellFormed, Conflicts;
  }

  lemma AddHalf(v: ValidIP, s: State, c: Call, a: CallAction)
    requires MuRight(s)
    requires c in s.calls && AddStep(v, s, c, s.calls[c], a).Some?
    ensures Half(AddStep(v, s, c, s.calls[c], a).value) == if a == PutPort then {s.nextID} else if a == PutStopper then {} else Half(s)
    ensures a == PutPort ==> Half(s) == {}
    ensures a == PutStopper ==> Half(s) == {s.nextID}
  {
    hide WellFormed, Conflicts;
  }

  lemma AddSpecs(v: ValidIP, s: State, c: Call, a: CallAction)
    requires MuRight(s) && OwnersRight(s) && KeysRight(s) && SpecsRight(s)
    requires c in s.calls && AddStep(v, s, c, s.calls[c], a).Some?
    ensures SpecsRight(AddStep(v, s, c, s.calls[c], a).value)
  {
  }

  lemma AddStops(v: ValidIP, s: State, c: Call, a: CallAction)
    requires MuRight(s) && OwnersRight(s) && StopProtocol(s)
    requires c in s.calls && AddStep(v, s, c, s.calls[c], a).Some?
    ensures StopProtocol(AddStep(v, s, c, s.calls[c], a).value)
  {
    var s' := AddStep(v, s, c, s.calls[c], a).value;
    forall r | r in s'.routines
      ensures RoutineRight(s'.routines[r]) && StopsRight(s', r)
    {
      AddStopsOne(v, s, c, a, r);
    }
    AddCallsRight(v, s, c, a);
    hide RoutineRight, StopsRight, RemovalRight, PendingRight, WellFormed, Conflicts, WaitRight, AddStep;
  }

  lemma AddCallsRight(v: ValidIP, s: State, c: Call, a: CallAction)
    requires MuRight(s) && OwnersRight(s) && StopProtocol(s)
    requires c in s.calls && AddStep(v, s, c, s.calls[c], a).Some?
    ensures var s' := AddStep(v, s, c, s.calls[c], a).value;
            && (forall d | d in s'.calls && s'.calls[d].Removed? :: WaitRight(s', s'.calls[d]))
            && (s'.mu.Some? && s'.mu.value in s'.calls ==> WaitRight(s', s'.calls[s'.mu.value]))
  {
    hide RoutineRight, StopsRight, RemovalRight, WellFormed, Conflicts;
    var s' := AddStep(v, s, c, s.calls[c], a).value;
    assert !s'.calls[c].Removed? && forall d | d in s.calls && d != c :: s'.calls[d] == s.calls[d];
    assert forall r | r in s.routines && s.routines[r].owner == Released :: s'.routines[r] == s.routines[r];
  }

  lemma AddStopsOne(v: ValidIP, s: State, c: Call, a: CallAction, r: Rid)
    requires MuRight(s) && OwnersRight(s) && StopProtocol(s)
    requires c in s.calls && AddStep(v, s, c, s.calls[c], a).Some? && r in AddStep(v, s, c, s.calls[c], a).value.routines
    ensures var s' := AddStep(v, s, c, s.calls[c], a).value; RoutineRight(s'.routines[r]) && StopsRight(s', r)
  {
    assert r in s.routines ==> RoutineRight(s.routines[r]) && StopsRight(s, r);
    assert PendingRight(s, c);
    hide RemovalRight, WaitRight, Conflicts, WellFormed;
  }

  // ---------------------------------------------------------------- steps of RemovePort

  lemma RemoveMu(s: State, c: Call, a: CallAction)
    requires MuRight(s)
    requires c in s.calls && RemoveStep(s, c, s.calls[c], a).Some?
    ensures MuRight(RemoveStep(s, c, s.calls[c], a).value)
  {
  }

  lemma RemoveOwners(s: State, c: Call, a: CallAction)
    requires MuRight(s) && OwnersRight(s)
    requires c in s.calls && RemoveStep(s, c, s.calls[c], a).Some?
    ensures OwnersRight(RemoveStep(s, c, s.calls[c], a).value)
  {
  }

  lemma RemoveKeys(s: State, c: Call, a: CallAction)
    requires MuRight(s) && OwnersRight(s) && KeysRight(s)
    requires c in s.calls && RemoveStep(s, c, s.calls[c], a).Some?
    ensures KeysRight(RemoveStep(s, c, s.calls[c], a).value)
  {
  }

  lemma RemoveSpecs(s: State, c: Call, a: CallAction)
    requires MuRight(s) && OwnersRight(s) && KeysRight(s) && SpecsRight(s)
    requires c in s.calls && RemoveStep(s, c, s.calls[c], a).Some?
    ensures SpecsRight(RemoveStep(s, c, s.calls[c], a).value)
  {
  }

  lemma RemoveStops(s: State, c: Call, a: CallAction)
    requires MuRight(s) && OwnersRight(s) && StopProtocol(s)
    requires c in s.calls && RemoveStep(s, c, s.calls[c], a).Some?
    ensures StopProtocol(RemoveStep(s, c, s.calls[c], a).value)
  {
  }

  // ---------------------------------------------------------------- steps of the stop function

  predicate AtStop(s: State, c: Call, id: int, rid: Rid) {
    c in s.calls && (s.calls[c] == RemoveStop(id, rid) || s.calls[c] == RemoveWait(id, rid))
  }

  lemma StopMu(s: State, c: Call, id: int, rid: Rid, a: CallAction)
    requires MuRight(s)
    requires AtStop(s, c, id, rid) && StopStep(s, c, id, rid, a).Some?
    ensures MuRight(StopStep(s, c, id, rid, a).value)
  {
  }

  lemma StopOwners(s: State, c: Call, id: int, rid: Rid, a: CallAction)
    requires MuRight(s) && OwnersRight(s)
    requires AtStop(s, c, id, rid) && StopStep(s, c, id, rid, a).Some?
    ensures OwnersRight(StopStep(s, c, id, rid, a).value)
  {
  }

  lemma StopKeys(s: State, c: Call, id: int, rid: Rid, a: CallAction)
    requires MuRight(s) && OwnersRight(s) && KeysRight(s)
    requires AtStop(s, c, id, rid) && StopStep(s, c, id, rid, a).Some?
    ensures KeysRight(StopStep(s, c, id, rid, a).value)
  {
  }

  lemma StopSpecs(s: State, c: Call, id: int, rid: Rid, a: CallAction)
    requires MuRight(s) && OwnersRight(s) && KeysRight(s) && SpecsRight(s)
    requires AtStop(s, c, id, rid) && StopStep(s, c, id, rid, a).Some?
    ensures SpecsRight(StopStep(s, c, id, rid, a).value)
  {
  }

  lemma StopStops(s: State, c: Call, id: int, rid: Rid, a: CallAction)
    requires MuRight(s) && OwnersRight(s) && StopProtocol(s)
    requires AtStop(s, c, id, rid) && StopStep(s, c, id, rid, a).Some?
    ensures StopProtocol(StopStep(s, c, id, rid, a).value)
  {
    var s' := StopStep(s, c, id, rid, a).value;
    StopWaits(s, c, id, rid, a);
    StopRoutine(s, c, id, rid, a);
    forall r | r in s'.routines && r != rid
      ensures s'.routines[r] == s.routines[r] && StopsRight(s', r)
    {
      StopOther(s, c, id, rid, a, r);
    }
    hide StopStep, RoutineRight, StopsRight, RemovalRight, PendingRight;
    StopCalls(s, c, id, rid, a);
  }

  /** The routine being stopped is that of the entry being removed. */
  lemma StopRoutine(s: State, c: Call, id: int, rid: Rid, a: CallAction)
    requires MuRight(s) && OwnersRight(s) && StopProtocol(s)
    requires AtStop(s, c, id, rid) && StopStep(s, c, id, rid, a).Some?
    ensures var s' := StopStep(s, c, id, rid, a).value;
            s'.routines.Keys == s.routines.Keys && rid in s.routines && RoutineRight(s'.routines[rid]) && StopsRight(s', rid)
  {
    assert RoutineRight(s.routines[rid]) && StopsRight(s, rid);
  }

  lemma StopOther(s: State, c: Call, id: int, rid: Rid, a: CallAction, r: Rid)
    requires MuRight(s) && OwnersRight(s) && StopProtocol(s)
    requires AtStop(s, c, id, rid) && StopStep(s, c, id, rid, a).Some? && r in s.routines && r != rid
    ensures var s' := StopStep(s, c, id, rid, a).value;
            r in s'.routines && s'.routines[r] == s.routines[r] && StopsRight(s', r)
  {
  }

  lemma StopCalls(s: State, c: Call, id: int, rid: Rid, a: CallAction)
    requires AtStop(s, c, id, rid) && StopStep(s, c, id, rid, a).Some?
    ensures var s' := StopStep(s, c, id, rid, a).value;
            s'.calls.Keys == s.calls.Keys && !s'.calls[c].Removed? && forall d | d in s.calls && d != c :: s'.calls[d] == s.calls[d]
  {
  }

  lemma StopWaits(s: State, c: Call, id: int, rid: Rid, a: CallAction)
    requires MuRight(s) && OwnersRight(s) && StopProtocol(s)
    requires AtStop(s, c, id, rid) && StopStep(s, c, id, rid, a).Some?
    ensures var s' := StopStep(s, c, id, rid, a).value; s'.mu == Some(c) && WaitRight(s', s'.calls[c])
  {
  }

  // ---------------------------------------------------------------- the start of a call, and steps of a routine

  lemma StartInv(s: State, c: Call, pc: CallPc)
    requires Inv(s) && c !in s.calls && (pc.AddCheck? || pc.RemoveLock?)
    ensures Inv(At(s, c, pc))
  {
    StartStops(s, c, pc);
    StartOwners(s, c, pc);
    hide StopProtocol, OwnersRight;
  }

  lemma StartOwners(s: State, c: Call, pc: CallPc)
    requires MuRight(s) && OwnersRight(s) && c !in s.calls && (pc.AddCheck? || pc.RemoveLock?)
    ensures OwnersRight(At(s, c, pc))
  {
    var s' := At(s, c, pc);
    assert forall d | d in s.calls :: s'.calls[d] == s.calls[d];
    assert forall d | d in s.calls :: PendingRight(s, d) ==> PendingRight(s', d);
    assert forall p :: RemovalRight(s, p) ==> RemovalRight(s', p);
  }

  lemma StartStops(s: State, c: Call, pc: CallPc)
    requires MuRight(s) && StopProtocol(s) && c !in s.calls && (pc.AddCheck? || pc.RemoveLock?)
    ensures StopProtocol(At(s, c, pc))
  {
    var s' := At(s, c, pc);
    hide RoutineRight;
    assert forall d | d in s.calls :: s'.calls[d] == s.calls[d];
    assert forall r | r in s.routines :: StopsRight(s, r) ==> StopsRight(s', r);
    assert forall p :: WaitRight(s, p) ==> WaitRight(s', p);
  }

  lemma OneRoutineStep(r: Routine, a: RoutineAction)
    requires RoutineRight(r) && RoutineStep(r, a).Some?
    ensures var r' := RoutineStep(r, a).value;
            && RoutineRight(r') && r'.owner == r.owner && r'.spec == r.spec
            && r'.stopCloses == r.stopCloses && r'.reports == r.reports
            && (r'.listening ==> r.listening)
  {
  }

  lemma RoutineInv(s: State, rid: Rid, a: RoutineAction)
    requires Inv(s) && rid in s.routines && RoutineStep(s.routines[rid], a).Some?
    ensures Inv(s.(routines := s.routines[rid := RoutineStep(s.routines[rid], a).value]))
  {
    OneRoutineStep(s.routines[rid], a);
    hide RoutineStep;
    var s' := s.(routines := s.routines[rid := RoutineStep(s.routines[rid], a).value]);
    assert StopProtocol(s') by { RoutineStops(s, s', rid); }
    hide StopProtocol, RoutineRight;
    assert KeysRight(s') by { KeysDepend(s, s'); }
    hide KeysRight;
    assert forall d | d in s.calls :: PendingRight(s, d) ==> PendingRight(s', d);
    assert forall p :: RemovalRight(s, p) ==> RemovalRight(s', p);
  }

  lemma RoutineStops(s: State, s': State, rid: Rid)
    requires StopProtocol(s) && rid in s.routines && rid in s'.routines
    requires s' == s.(routines := s.routines[rid := s'.routines[rid]]) && RoutineRight(s'.routines[rid])
    requires s'.routines[rid].owner == s.routines[rid].owner
    requires s'.routines[rid].stopCloses == s.routines[rid].stopCloses && s'.routines[rid].reports == s.routines[rid].reports
    ensures StopProtocol(s')
  {
  }

  lemma KeysDepend(s: State, s': State)
    requires KeysRight(s) && s' == s.(routines := s'.routines)
    ensures KeysRight(s')
  {
  }

  // ---------------------------------------------------------------- whole runs

  lemma CallInv(v: ValidIP, s: State, c: Call, a: CallAction)
    requires Inv(s) && CallStep(v, s, c, a).Some?
    ensures Inv(CallStep(v, s, c, a).value)
  {
    if a.Start? {
      hide Inv;
      StartInv(s, c, a.pc);
    } else if s.calls[c].RemoveStop? || s.calls[c].RemoveWait? {
      StopInv(s, c, s.calls[c].id, s.calls[c].rid, a);
      hide Inv, StopStep;
    } else {
      AddOrRemoveInv(v, s, c, a);
      hide Inv, AddStep, RemoveStep;
    }
  }

  lemma StopInv(s: State, c: Call, id: int, rid: Rid, a: CallAction)
    requires Inv(s) && AtStop(s, c, id, rid) && StopStep(s, c, id, rid, a).Some?
    ensures Inv(StopStep(s, c, id, rid, a).value)
  {
    hide MuRight, OwnersRight, KeysRight, SpecsRight, StopProtocol, StopStep;
    StopMu(s, c, id, rid, a);
    StopOwners(s, c, id, rid, a);
    StopKeys(s, c, id, rid, a);
    StopSpecs(s, c, id, rid, a);
    StopStops(s, c, id, rid, a);
  }

  lemma AddOrRemoveInv(v: ValidIP, s: State, c: Call, a: CallAction)
    requires Inv(s) && c in s.calls
    ensures AddStep(v, s, c, s.calls[c], a).Some? ==> Inv(AddStep(v, s, c, s.calls[c], a).value)
    ensures RemoveStep(s, c, s.calls[c], a).Some? ==> Inv(RemoveStep(s, c, s.calls[c], a).value)
  {
    hide MuRight, OwnersRight, KeysRight, SpecsRight, StopProtocol, AddStep, RemoveStep;
    if AddStep(v, s, c, s.calls[c], a).Some? {
      AddMu(v, s, c, a);
      AddOwners(v, s, c, a);
      AddKeys(v, s, c, a);
      AddSpecs(v, s, c, a);
      AddStops(v, s, c, a);
    }
    if RemoveStep(s, c, s.calls[c], a).Some? {
      RemoveMu(s, c, a);
      RemoveOwners(s, c, a);
      RemoveKeys(s, c, a);
      RemoveSpecs(s, c, a);
      RemoveStops(s, c, a);
    }
  }

  lemma StepInv(v: ValidIP, s: State, a: Action)
    requires Inv(s) && Step(v, s, a).Some?
    ensures Inv(Step(v, s, a).value)
  {
    hide Inv, CallStep, RoutineStep;
    match a
    case InCall(c, ca) => CallInv(v, s, c, ca);
    case InRoutine(rid, ra) => RoutineInv(s, rid, ra);
  }

  lemma {:induction false} RunInv(v: ValidIP, actions: seq<Action>)
    requires Run(v, actions).Some?
    ensures Inv(Run(v, actions).value)
  {
    if actions != [] {
      var front := actions[..|actions| - 1];
      RunInv(v, front);
      StepInv(v, Run(v, front).value, actions[|actions| - 1]);
      hide Inv, Step;
    }
  }

  // ---------------------------------------------------------------- no conflicts

  predicate Breaks(a: Action) {
    a.InRoutine? && a.ra == AcceptBreaks
  }

  /** Accept fails on a closed listener only, so a routine that was not told to stop is listening. */
  predicate Steady(r: Routine) {
    (r.connsClosed ==> !r.listening) && (r.stopCloses == 0 ==> r.stopper == Selecting)
  }

  predicate AllSteady(s: State) {
    forall r | r in s.routines :: Steady(s.routines[r])
  }

  /** The kernel's exclusive binds. */
  predicate Exclusive(s: State) {
    forall r, q | r in s.routines && q in s.routines && r != q && s.routines[r].listening && s.routines[q].listening ::
      !SameParent(s.routines[r].spec, s.routines[q].spec)
  }

  predicate NoConflict(ports: map<int, Status>) {
    forall i, j | i in ports && j in ports && i != j :: !SameParent(ports[i].spec, ports[j].spec)
  }

  predicate Claimed(s: State) {
    AllSteady(s) && Exclusive(s) && NoConflict(s.ports)
  }

  /** While a call is about to put its port, the bound socket of every registered port keeps the new one out. */
  lemma PutPortNoConflict(s: State, c: Call, spec: Spec, rid: Rid)
    requires Inv(s) && Claimed(s) && c in s.calls && s.calls[c] == AddPutPort(spec, rid)
    ensures s.nextID !in s.ports && !Conflicts(spec, s.ports)
  {
    assert s.mu == Some(c) && Half(s) == {};
    assert PendingRight(s, c) && StopsRight(s, rid) && RoutineRight(s.routines[rid]);
    assert Steady(s.routines[rid]) && s.routines[rid].listening;
    forall id | id in s.ports
      ensures !SameParent(s.ports[id].spec, spec)
    {
      var q := s.stoppers[id];
      assert s.routines[q].owner == OfId(id) && StopsRight(s, q) && RoutineRight(s.routines[q]);
      assert Steady(s.routines[q]) && s.routines[q].listening;
    }
  }

  lemma AddClaimed(v: ValidIP, s: State, c: Call, a: CallAction)
    requires Inv(s) && Claimed(s) && c in s.calls && AddStep(v, s, c, s.calls[c], a).Some?
    ensures Claimed(AddStep(v, s, c, s.calls[c], a).value)
  {
    if a == PutPort {
      PutPortNoConflict(s, c, s.calls[c].spec, s.calls[c].rid);
    }
    hide Inv;
  }

  lemma RemoveClaimed(s: State, c: Call, a: CallAction)
    requires Claimed(s) && c in s.calls && RemoveStep(s, c, s.calls[c], a).Some?
    ensures Claimed(RemoveStep(s, c, s.calls[c], a).value)
  {
  }

  lemma StopClaimed(s: State, c: Call, id: int, rid: Rid, a: CallAction)
    requires Inv(s) && Claimed(s) && AtStop(s, c, id, rid) && StopStep(s, c, id, rid, a).Some?
    ensures Claimed(StopStep(s, c, id, rid, a).value)
  {
    if a == ReceiveReport {
      assert WaitRight(s, s.calls[c]);
    }
    hide Inv;
  }

  lemma CallClaimed(v: ValidIP, s: State, c: Call, a: CallAction)
    requires Inv(s) && Claimed(s) && CallStep(v, s, c, a).Some?
    ensures Claimed(CallStep(v, s, c, a).value)
  {
    if a.Start? {
    } else if s.calls[c].RemoveStop? || s.calls[c].RemoveWait? {
      StopClaimed(s, c, s.calls[c].id, s.calls[c].rid, a);
      hide Inv, Claimed, StopStep;
    } else if AddStep(v, s, c, s.calls[c], a).Some? && CallStep(v, s, c, a) == AddStep(v, s, c, s.calls[c], a) {
      AddClaimed(v, s, c, a);
      hide Inv, Claimed, AddStep;
    } else {
      RemoveClaimed(s, c, a);
      hide Inv, Claimed, RemoveStep;
    }
  }

  lemma RoutineClaimed(s: State, rid: Rid, a: RoutineAction)
    requires Inv(s) && Claimed(s) && rid in s.routines && RoutineStep(s.routines[rid], a).Some? && a != AcceptBreaks
    ensures Claimed(s.(routines := s.routines[rid := RoutineStep(s.routines[rid], a).value]))
  {
  }

  predicate NeverBreaks(actions: seq<Action>) {
    forall i | 0 <= i < |actions| :: !Breaks(actions[i])
  }

  lemma {:induction false} RunClaimed(v: ValidIP, actions: seq<Action>)
    requires Run(v, actions).Some? && NeverBreaks(actions)
    ensures Claimed(Run(v, actions).value)
  {
    if actions != [] {
      var front, a := actions[..|actions| - 1], actions[|actions| - 1];
      RunClaimed(v, front);
      RunInv(v, front);
      var s := Run(v, front).value;
      assert !Breaks(a);
      hide Inv, Claimed, CallStep, RoutineStep;
      match a
      case InCall(c, ca) => CallClaimed(v, s, c, ca);
      case InRoutine(rid, ra) => RoutineClaimed(s, rid, ra);
    }
  }

  /**
   * In every interleaving no two registered ports share protocol, parent IP and parent port, although
   * the check and the registration are separate critical sections, if Accept fails only on a closed listener.
   */
  lemma NoTwoPortsConflict(v: ValidIP, actions: seq<Action>)
    requires Run(v, actions).Some? && NeverBreaks(actions)
    ensures var ports := Run(v, actions).value.ports;
            forall i, j | i in ports && j in ports && i != j ::
              var a, b := ports[i].spec, ports[j].spec;
              a.proto != b.proto || a.parentIP != b.parentIP || a.parentPort != b.parentPort
  {
    RunClaimed(v, actions);
  }

  // ---------------------------------------------------------------- main results on IDs and stops

  /**
   * Whenever `mu` is free, ports and stoppers have the same keys, every key is its status's ID and is
   * below nextID; and IDs are given out in increasing order, so none is ever used again.
   */
  lemma TablesAgree(v: ValidIP, actions: seq<Action>)
    requires Run(v, actions).Some?
    ensures var s := Run(v, actions).value;
            && (s.mu == None ==> s.ports.Keys == s.stoppers.Keys)
            && (forall id | id in s.ports :: s.ports[id].id == id && id in s.issued)
            && (s.mu == None ==> forall id | id in s.ports :: 1 <= id < s.nextID)
            && (forall i, j | 0 <= i < j < |s.issued| :: s.issued[i] < s.issued[j])
  {
    RunInv(v, actions);
    var s := Run(v, actions).value;
    forall id | id in s.ports && s.mu == None
      ensures 1 <= id < s.nextID
    {
      assert id in s.stoppers && id in s.issued;
    }
  }

  /** Each entry's spec is that of the routine that serves it. */
  lemma EntriesServed(v: ValidIP, actions: seq<Action>)
    requires Run(v, actions).Some? && Run(v, actions).value.mu == None
    ensures var s := Run(v, actions).value;
            forall id | id in s.ports ::
              && id in s.stoppers && s.stoppers[id] in s.routines
              && s.routines[s.stoppers[id]].spec == s.ports[id].spec
              && s.routines[s.stoppers[id]].stopCloses == 0
              && (NeverBreaks(actions) ==> s.routines[s.stoppers[id]].listening)
  {
    RunInv(v, actions);
    if NeverBreaks(actions) {
      RunClaimed(v, actions);
    }
    var s := Run(v, actions).value;
    forall id | id in s.ports
      ensures
        && id in s.stoppers && s.stoppers[id] in s.routines
        && s.routines[s.stoppers[id]].spec == s.ports[id].spec
        && s.routines[s.stoppers[id]].stopCloses == 0
        && (NeverBreaks(actions) ==> s.routines[s.stoppers[id]].listening)
    {
      assert id in s.stoppers;
      var r := s.stoppers[id];
      assert StopsRight(s, r) && RoutineRight(s.routines[r]);
      if NeverBreaks(actions) {
        assert Steady(s.routines[r]);
      }
    }
  }

  /**
   * Over all runs, a stop channel is closed at most once, a stoppedCh carries at most one value and
   * is closed only after it, no RemovePort finds it closed without a value, and at most one accepted
   * connection of a listener is left undispatched.
   */
  lemma StopsOnce(v: ValidIP, actions: seq<Action>)
    requires Run(v, actions).Some?
    ensures var s := Run(v, actions).value;
            && (forall r | r in s.routines ::
                  var x := s.routines[r];
                  && x.stopCloses <= 1 && x.reports <= 1
                  && (x.channelClosed ==> x.reports == 1)
                  && x.dispatched <= x.accepted <= x.dispatched + 1)
            && (forall c | c in s.calls && s.calls[c].Removed? :: s.calls[c].result != ClosedWithoutSending)
  {
    RunInv(v, actions);
    var s := Run(v, actions).value;
    forall r | r in s.routines
      ensures RoutineRight(s.routines[r])
    {
    }
    forall c | c in s.calls && s.calls[c].Removed?
      ensures WaitRight(s, s.calls[c])
    {
    }
  }

  function StepsToReport(p: Stopper): nat {
    match p
    case Selecting => 2
    case ClosingListener => 1
    case _ => 0
  }

  /**
   * A RemovePort that waits with `mu` held is never stuck: its routine can go on without `mu`, each
   * such step brings the report nearer, and then the call receives it.
   */
  lemma WaitingIsNotStuck(v: ValidIP, actions: seq<Action>, c: Call) returns (a: Action)
    requires Run(v, actions).Some? && c in Run(v, actions).value.calls && Run(v, actions).value.calls[c].RemoveWait?
    ensures var s := Run(v, actions).value;
            var rid := s.calls[c].rid;
            && Step(v, s, a).Some? && rid in s.routines
            && (a == InCall(c, ReceiveReport)
                || (a.InRoutine? && a.rid == rid
                    && StepsToReport(Step(v, s, a).value.routines[rid].stopper) < StepsToReport(s.routines[rid].stopper)))
  {
    RunInv(v, actions);
    var s := Run(v, actions).value;
    var rid := s.calls[c].rid;
    assert s.mu == Some(c) && WaitRight(s, s.calls[c]) && StopsRight(s, rid) && RoutineRight(s.routines[rid]);
    a := match s.routines[rid].stopper
         case Selecting => InRoutine(rid, SelectStop)
         case ClosingListener => InRoutine(rid, CloseListener)
         case _ => InCall(c, ReceiveReport);
    hide Inv;
  }

  // ---------------------------------------------------------------- refinement

  /** Which steps change the ports, and how. */
  lemma CallPorts(v: ValidIP, s: State, c: Call, a: CallAction)
    requires CallStep(v, s, c, a).Some?
    ensures var ports := CallStep(v, s, c, a).value.ports;
            || ports == s.ports
            || (c in s.calls && s.calls[c].AddPutPort? && ports == s.ports[s.nextID := Status(s.nextID, s.calls[c].spec)])
            || (c in s.calls && s.calls[c].RemovePort? && ports == s.ports - {s.calls[c].id})
  {
  }

  lemma PutPortIsNew(v: ValidIP, actions: seq<Action>, c: Call)
    requires Run(v, actions).Some? && NeverBreaks(actions)
    requires c in Run(v, actions).value.calls && Run(v, actions).value.calls[c].AddPutPort?
    ensures var s := Run(v, actions).value;
            s.nextID !in s.ports && s.nextID !in s.issued && !Conflicts(s.calls[c].spec, s.ports)
  {
    RunInv(v, actions);
    RunClaimed(v, actions);
    var s := Run(v, actions).value;
    PutPortNoConflict(s, c, s.calls[c].spec, s.calls[c].rid);
    assert s.mu == Some(c);
  }

  /** Every step leaves the ports alone, adds one as the interface says, or removes one. */
  lemma {:induction false} StepRefines(v: ValidIP, actions: seq<Action>, a: Action)
    requires Run(v, actions).Some? && NeverBreaks(actions) && Step(v, Run(v, actions).value, a).Some?
    ensures var s, s' := Run(v, actions).value, Step(v, Run(v, actions).value, a).value;
            || s'.ports == s.ports
            || (a.InCall? && a.call in s.calls && s.calls[a.call].AddPutPort?
                && AddsPort(s.ports, s'.ports, Status(s.nextID, s.calls[a.call].spec)) && s.nextID !in s.issued)
            || (a.InCall? && a.call in s.calls && s.calls[a.call].RemovePort?
                && RemovesPort(s.ports, s'.ports, s.calls[a.call].id))
  {
    hide CallStep, RoutineStep, Conflicts, NeverBreaks;
    var s := Run(v, actions).value;
    if a.InCall? {
      CallPorts(v, s, a.call, a.ca);
      if a.call in s.calls && s.calls[a.call].AddPutPort? {
        PutPortIsNew(v, actions, a.call);
      }
    }
  }

  // ---------------------------------------------------------------- why Accept must not break

  lemma TakeStep(v: ValidIP, actions: seq<Action>, a: Action) returns (more: seq<Action>)
    requires Run(v, actions).Some? && Step(v, Run(v, actions).value, a).Some?
    ensures Run(v, more) == Step(v, Run(v, actions).value, a)
  {
    more := actions + [a];
    assert more[..|more| - 1] == actions;
  }

  /** Both calls have passed the check and neither has bound yet. */
  lemma BothChecked(v: ValidIP, spec: Spec) returns (actions: seq<Action>)
    requires WellFormed(spec, v)
    ensures Run(v, actions) == Some(INIT.(calls := map[0 := AddRun(spec), 1 := AddRun(spec)]))
  {
    hide WellFormed;
    actions := [];
    actions := TakeStep(v, actions, InCall(0, Start(AddCheck(spec))));
    actions := TakeStep(v, actions, InCall(1, Start(AddCheck(spec))));
    actions := TakeStep(v, actions, InCall(0, Check));
    actions := TakeStep(v, actions, InCall(1, Check));
    assert Run(v, actions).value.calls == map[0 := AddRun(spec), 1 := AddRun(spec)];
  }

  /** The first one binds, its Accept breaks, and its listener is closed. */
  lemma FirstBreaks(v: ValidIP, spec: Spec, before: seq<Action>) returns (actions: seq<Action>)
    requires IsTCP(spec) && Run(v, before) == Some(INIT.(calls := map[0 := AddRun(spec), 1 := AddRun(spec)]))
    ensures Run(v, actions).Some?
    ensures var s := Run(v, actions).value;
            && s == INIT.(calls := map[0 := AddLock(spec, 0), 1 := AddRun(spec)], routines := s.routines)
            && s.routines.Keys == {0} && !s.routines[0].listening
  {
    hide IsTCP;
    actions := TakeStep(v, before, InCall(0, Bind(0)));
    assert Run(v, actions).value.routines == map[0 := Started(spec, 0)];
    actions := TakeStep(v, actions, InRoutine(0, AcceptBreaks));
    actions := TakeStep(v, actions, InRoutine(0, SelectClosed));
    actions := TakeStep(v, actions, InRoutine(0, CloseListener));
    assert Run(v, actions).value.calls == map[0 := AddLock(spec, 0), 1 := AddRun(spec)];
  }

  /** The first one's socket is closed, so the second one binds the same port. */
  lemma BothBound(v: ValidIP, spec: Spec, before: seq<Action>) returns (actions: seq<Action>)
    requires IsTCP(spec) && Run(v, before) == Some(INIT.(calls := map[0 := AddRun(spec), 1 := AddRun(spec)]))
    ensures Run(v, actions).Some?
    ensures var s := Run(v, actions).value;
            && s == INIT.(calls := map[0 := AddLock(spec, 0), 1 := AddLock(spec, 1)], routines := s.routines)
            && 0 in s.routines && 1 in s.routines
  {
    actions := FirstBreaks(v, spec, before);
    hide IsTCP;
    actions := TakeStep(v, actions, InCall(1, Bind(1)));
    assert Run(v, actions).value.calls == map[0 := AddLock(spec, 0), 1 := AddLock(spec, 1)];
  }

  /**
   * Two AddPort calls of one spec that both passed the check: if Accept fails on the first one's open
   * listener, its socket is closed, the second one binds as well, and both are registered.
   */
  lemma BrokenAcceptConflicts(v: ValidIP, spec: Spec) returns (actions: seq<Action>)
    requires WellFormed(spec, v) && IsTCP(spec)
    ensures Run(v, actions).Some?
    ensures var ports := Run(v, actions).value.ports;
            1 in ports && 2 in ports && ports[1].spec == spec && ports[2].spec == spec
  {
    actions := BothChecked(v, spec);
    actions := BothBound(v, spec, actions);
    hide WellFormed, IsTCP;
    actions := TakeStep(v, actions, InCall(0, Lock));
    actions := TakeStep(v, actions, InCall(0, PutPort));
    actions := TakeStep(v, actions, InCall(0, PutStopper));
    assert 1 in Run(v, actions).value.ports;
    actions := TakeStep(v, actions, InCall(1, Lock));
    actions := TakeStep(v, actions, InCall(1, PutPort));
  }
}
