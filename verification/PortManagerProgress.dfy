/** What each call of the builtin driver answers, and that it gets to its answer. */
module PortManagerProgress {
  import opened Prelude
  import opened Ports
  import opened PortManager
  import opened PortManagerProofs

  /** The protocols the driver serves: all that are known but SCTP. */
  lemma ServedIs(spec: Spec)
    ensures IsTCP(spec) <==> spec.proto in {"tcp", "tcp4", "tcp6"}
    ensures IsUDP(spec) <==> spec.proto in {"udp", "udp4", "udp6"}
    ensures KnownProto(spec.proto) <==> IsTCP(spec) || IsUDP(spec) || spec.proto in {"sctp", "sctp4", "sctp6"}
  {
  }

  // ---------------------------------------------------------------- answers

  /** A call that answers that an ID is unknown. */
  predicate Unknown(s: State, c: Call) {
    c in s.calls && s.calls[c].UnknownId?
  }

  /** A step of RemovePort that looks its ID up, and what it found. */
  lemma TakeAnswers(v: ValidIP, s: State, c: Call)
    requires Inv(s) && c in s.calls && s.calls[c].RemoveLock? && CallStep(v, s, c, TakeStopper).Some?
    ensures s.mu == None
    ensures Unknown(CallStep(v, s, c, TakeStopper).value, c) <==> s.calls[c].id !in s.ports
  {
    assert Half(s) == {};
  }

  lemma OnlyTakeRefuses(v: ValidIP, s: State, c: Call, a: CallAction, d: Call)
    requires CallStep(v, s, c, a).Some? && !Unknown(s, d) && Unknown(CallStep(v, s, c, a).value, d)
    ensures d == c && c in s.calls && s.calls[c].RemoveLock? && a == TakeStopper
  {
    hide WellFormed, Conflicts;
  }

  /**
   * RemovePort answers that an ID is unknown exactly when, at the step that decides it and with `mu`
   * free, no port of that ID is registered.
   */
  lemma {:induction false} UnknownExactly(v: ValidIP, actions: seq<Action>, a: Action, c: Call)
    requires Run(v, actions).Some? && Step(v, Run(v, actions).value, a).Some?
    requires !Unknown(Run(v, actions).value, c)
    ensures var s := Run(v, actions).value;
            && (Unknown(Step(v, s, a).value, c) <==>
                  && a == InCall(c, TakeStopper) && c in s.calls && s.calls[c].RemoveLock?
                  && s.mu == None && s.calls[c].id !in s.ports)
            && (Unknown(Step(v, s, a).value, c) ==> Step(v, s, a).value.calls[c].id == s.calls[c].id)
  {
    RunInv(v, actions);
    var s := Run(v, actions).value;
    hide Inv, CallStep, RoutineStep;
    if a == InCall(c, TakeStopper) && c in s.calls && s.calls[c].RemoveLock? {
      TakeAnswers(v, s, c);
      TakeKeepsId(v, s, c);
    } else if a.InCall? && Unknown(Step(v, s, a).value, c) {
      OnlyTakeRefuses(v, s, a.call, a.ca, c);
    }
  }

  lemma TakeKeepsId(v: ValidIP, s: State, c: Call)
    requires c in s.calls && s.calls[c].RemoveLock? && CallStep(v, s, c, TakeStopper).Some?
    ensures var pc := CallStep(v, s, c, TakeStopper).value.calls[c]; (pc.UnknownId? || pc.RemoveStop?) && pc.id == s.calls[c].id
  {
  }

  /** A call that has been refused. */
  predicate Refused(s: State, c: Call) {
    c in s.calls && s.calls[c] == AddFailed
  }

  /** AddPort is refused by its check, which is exact, or because nothing could be started. */
  lemma {:induction false} RefusedExactly(v: ValidIP, s: State, a: Action, c: Call)
    requires Step(v, s, a).Some? && !Refused(s, c)
    ensures Refused(Step(v, s, a).value, c) <==>
              && a.InCall? && a.call == c && c in s.calls
              && ((s.calls[c].AddCheck? && a.ca == Check && s.mu == None
                   && !(WellFormed(s.calls[c].spec, v)
                        && forall id | id in s.ports :: !SameParent(s.ports[id].spec, s.calls[c].spec)))
                  || (s.calls[c].AddRun? && a.ca == BindFails))
  {
    hide RoutineStep, WellFormed, SameParent;
  }

  // ---------------------------------------------------------------- what a removal's result means

  /** The ports that were removed are gone for good. */
  predicate Gone(s: State) {
    forall c | c in s.calls && s.calls[c].Removed? :: s.calls[c].id !in s.ports && s.calls[c].id < s.nextID
  }

  /** Which steps of calls register, which finish a removal, and what they leave. */
  lemma GoneSteps(v: ValidIP, s: State, c: Call, a: CallAction)
    requires CallStep(v, s, c, a).Some?
    ensures var s' := CallStep(v, s, c, a).value;
            && c in s'.calls && s.nextID <= s'.nextID
            && (forall d | d in s.calls && d != c :: d in s'.calls && s'.calls[d] == s.calls[d])
            && (forall d | d in s'.calls && d != c :: d in s.calls)
            && s'.ports.Keys <= s.ports.Keys + {s.nextID}
            && (s'.calls[c].Removed? ==>
                  c in s.calls && s.calls[c].RemovePort? && s'.calls[c].id == s.calls[c].id && s'.ports == s.ports - {s.calls[c].id})
  {
    hide WellFormed, Conflicts;
  }

  lemma CallGone(v: ValidIP, s: State, c: Call, a: CallAction)
    requires MuRight(s) && OwnersRight(s) && Gone(s) && CallStep(v, s, c, a).Some?
    ensures Gone(CallStep(v, s, c, a).value)
  {
    GoneSteps(v, s, c, a);
    assert c in s.calls && s.calls[c].RemovePort? ==> HoldsMu(s.calls[c]) && RemovalRight(s, s.calls[c]);
    hide CallStep, PendingRight;
  }

  lemma {:induction false} RunGone(v: ValidIP, actions: seq<Action>)
    requires Run(v, actions).Some?
    ensures Gone(Run(v, actions).value)
  {
    if actions != [] {
      var front, a := actions[..|actions| - 1], actions[|actions| - 1];
      RunGone(v, front);
      RunInv(v, front);
      hide MuRight, OwnersRight, KeysRight, SpecsRight, StopProtocol, CallStep, RoutineStep;
      match a
      case InCall(c, ca) => CallGone(v, Run(v, front).value, c, ca);
      case InRoutine(_, _) =>
    }
  }

  /**
   * After every removal the port is not registered, and never will be again under that ID. The result
   * is whether the routine's report was received: then its socket is closed; after a timeout nobody
   * will ever receive it, and the routine cannot end.
   */
  lemma {:induction false} RemovedMeans(v: ValidIP, actions: seq<Action>, c: Call)
    requires Run(v, actions).Some? && c in Run(v, actions).value.calls && Run(v, actions).value.calls[c].Removed?
    ensures var s := Run(v, actions).value;
            var rid, result := s.calls[c].rid, s.calls[c].result;
            && s.calls[c].id !in s.ports && rid in s.routines && s.routines[rid].stopCloses == 1
            && (result == Reported <==> s.routines[rid].reports == 1)
            && (result == TimedOut <==> s.routines[rid].reports == 0)
            && (result == Reported ==> !s.routines[rid].listening)
            && (result == TimedOut ==> s.routines[rid].stopper != StopperDone && !s.routines[rid].channelClosed)
  {
    RunInv(v, actions);
    RunGone(v, actions);
    var s := Run(v, actions).value;
    assert WaitRight(s, s.calls[c]);
    assert RoutineRight(s.routines[s.calls[c].rid]);
  }

  // ---------------------------------------------------------------- a removal comes to its end

  /** With `mu` held by a waiting removal, its routine comes to report. */
  lemma {:induction false} Reports(v: ValidIP, actions: seq<Action>, c: Call) returns (more: seq<Action>)
    requires Run(v, actions).Some? && c in Run(v, actions).value.calls && Run(v, actions).value.calls[c].RemoveWait?
    ensures Run(v, more).Some?
    ensures var s, s' := Run(v, actions).value, Run(v, more).value;
            var rid := s.calls[c].rid;
            && s' == s.(calls := s.calls[c := RemoveStopper(s.calls[c].id, rid, Reported)], routines := s'.routines)
            && rid in s'.routines && !s'.routines[rid].listening
    decreases var s := Run(v, actions).value;
              if s.calls[c].rid in s.routines then StepsToReport(s.routines[s.calls[c].rid].stopper) else 0
  {
    var a := WaitingIsNotStuck(v, actions, c);
    var s := Run(v, actions).value;
    var next := TakeStep(v, actions, a);
    if a.InRoutine? {
      var s1 := Run(v, next).value;
      assert s1 == s.(routines := s1.routines);
      hide Run, Step;
      more := Reports(v, next, c);
    } else {
      ReportIs(v, actions, c);
      more := next;
    }
  }

  lemma ReportIs(v: ValidIP, actions: seq<Action>, c: Call)
    requires Run(v, actions).Some? && c in Run(v, actions).value.calls && Run(v, actions).value.calls[c].RemoveWait?
    requires Step(v, Run(v, actions).value, InCall(c, ReceiveReport)).Some?
    ensures var s, s' := Run(v, actions).value, Step(v, Run(v, actions).value, InCall(c, ReceiveReport)).value;
            var rid := s.calls[c].rid;
            && s' == s.(calls := s.calls[c := RemoveStopper(s.calls[c].id, rid, Reported)], routines := s'.routines)
            && rid in s'.routines && !s'.routines[rid].listening
  {
    RunInv(v, actions);
    var s := Run(v, actions).value;
    assert RoutineRight(s.routines[s.calls[c].rid]);
  }

  /** A registered port can be removed: the call closes its stop channel, receives the report and deletes its entry. */
  lemma {:induction false} RemoveCompletes(v: ValidIP, actions: seq<Action>, c: Call) returns (more: seq<Action>)
    requires Run(v, actions).Some? && c in Run(v, actions).value.calls && Run(v, actions).value.calls[c].RemoveLock?
    requires Run(v, actions).value.mu == None && Run(v, actions).value.calls[c].id in Run(v, actions).value.ports
    ensures Run(v, more).Some?
    ensures var s, s' := Run(v, actions).value, Run(v, more).value;
            var id := s.calls[c].id;
            && s'.mu == None && s'.ports == s.ports - {id} && s'.stoppers == s.stoppers - {id} && s'.nextID == s.nextID
            && id in s.stoppers && s'.calls == s.calls[c := Removed(id, s.stoppers[id], Reported)]
            && s.stoppers[id] in s'.routines && !s'.routines[s.stoppers[id]].listening
  {
    var s := Run(v, actions).value;
    var id := s.calls[c].id;
    RunInv(v, actions);
    assert Half(s) == {} && id in s.stoppers && s.stoppers[id] in s.routines;
    var rid := s.stoppers[id];
    hide Inv;
    more := TakeStep(v, actions, InCall(c, TakeStopper));
    more := TakeStep(v, more, InCall(c, CloseStop));
    var s1 := Run(v, more).value;
    assert s1 == s.(mu := Some(c), calls := s.calls[c := RemoveWait(id, rid)], routines := s1.routines);
    more := Reports(v, more, c);
    more := RemoveEnds(v, more, c);
  }

  lemma RemoveEnds(v: ValidIP, actions: seq<Action>, c: Call) returns (more: seq<Action>)
    requires Run(v, actions).Some? && c in Run(v, actions).value.calls && Run(v, actions).value.calls[c].RemoveStopper?
    requires Run(v, actions).value.calls[c].rid in Run(v, actions).value.routines
    ensures Run(v, more).Some?
    ensures var s, s' := Run(v, actions).value, Run(v, more).value;
            var pc := s.calls[c];
            && s'.mu == None && s'.ports == s.ports - {pc.id} && s'.stoppers == s.stoppers - {pc.id} && s'.nextID == s.nextID
            && s'.calls == s.calls[c := Removed(pc.id, pc.rid, pc.result)]
            && pc.rid in s'.routines && s'.routines[pc.rid].listening == s.routines[pc.rid].listening
  {
    more := TakeStep(v, actions, InCall(c, DeleteStopper));
    more := TakeStep(v, more, InCall(c, DeletePort));
  }

  /** A removal that waits may time out instead: then its entry is deleted all the same. */
  lemma {:induction false} RemoveTimesOut(v: ValidIP, actions: seq<Action>, c: Call) returns (more: seq<Action>)
    requires Run(v, actions).Some? && c in Run(v, actions).value.calls && Run(v, actions).value.calls[c].RemoveWait?
    ensures Run(v, more).Some?
    ensures var s, s' := Run(v, actions).value, Run(v, more).value;
            var pc := s.calls[c];
            && s'.mu == None && s'.ports == s.ports - {pc.id} && s'.stoppers == s.stoppers - {pc.id}
            && s'.calls == s.calls[c := Removed(pc.id, pc.rid, TimedOut)]
  {
    var s := Run(v, actions).value;
    WaitHasRoutine(v, actions, c);
    more := TakeStep(v, actions, InCall(c, TimeOut));
    assert Run(v, more).value == s.(calls := s.calls[c := RemoveStopper(s.calls[c].id, s.calls[c].rid, TimedOut)]);
    more := RemoveEnds(v, more, c);
  }

  lemma WaitHasRoutine(v: ValidIP, actions: seq<Action>, c: Call)
    requires Run(v, actions).Some? && c in Run(v, actions).value.calls && Run(v, actions).value.calls[c].RemoveWait?
    ensures Run(v, actions).value.calls[c].rid in Run(v, actions).value.routines
  {
    RunInv(v, actions);
  }

  predicate Finished(pc: CallPc) {
    pc.Added? || pc == AddFailed || pc.Removed? || pc.UnknownId?
  }

  /** No call is ever stuck for another reason than waiting for `mu`: one that has not finished has a step when it is free. */
  lemma {:induction false} CallGoesOn(v: ValidIP, actions: seq<Action>, c: Call) returns (a: CallAction)
    requires Run(v, actions).Some? && c in Run(v, actions).value.calls && Run(v, actions).value.mu == None
    requires !Finished(Run(v, actions).value.calls[c])
    ensures CallStep(v, Run(v, actions).value, c, a).Some? && !a.Start?
  {
    RunInv(v, actions);
    var s := Run(v, actions).value;
    assert !HoldsMu(s.calls[c]);
    hide Inv;
    a := match s.calls[c]
         case AddCheck(_) => Check
         case AddRun(_) => BindFails
         case AddLock(_, _) => Lock
         case _ => TakeStopper;
  }

  // ---------------------------------------------------------------- an addition comes to its end

  /** A valid spec that conflicts with nothing and can be bound is registered under the next ID, and its socket listens. */
  lemma {:induction false} AddCompletes(v: ValidIP, actions: seq<Action>, c: Call, rid: Rid) returns (more: seq<Action>)
    requires Run(v, actions).Some? && c in Run(v, actions).value.calls && Run(v, actions).value.calls[c].AddCheck?
    requires var s := Run(v, actions).value;
             var spec := s.calls[c].spec;
             && s.mu == None && rid !in s.routines
             && WellFormed(spec, v) && spec.proto in {"tcp", "tcp4", "tcp6", "udp", "udp4", "udp6"}
             && !Conflicts(spec, s.ports) && Bindable(s, spec)
    ensures Run(v, more).Some?
    ensures var s, s' := Run(v, actions).value, Run(v, more).value;
            var spec := s.calls[c].spec;
            && s'.mu == None && s'.calls == s.calls[c := Added(s.nextID)]
            && s'.ports == s.ports[s.nextID := Status(s.nextID, spec)]
            && s'.stoppers == s.stoppers[s.nextID := rid] && s'.nextID == s.nextID + 1
            && rid in s'.routines && s'.routines[rid].spec == spec && s'.routines[rid].listening
            && s'.routines[rid].stopper == Selecting
            && s'.routines[rid].acceptor == if spec.proto in {"tcp", "tcp4", "tcp6"} then Accepting else NoAcceptor
  {
    ServedIs(Run(v, actions).value.calls[c].spec);
    more := AddBinds(v, actions, c, rid);
    hide WellFormed, Conflicts, IsTCP, IsUDP;
    more := TakeStep(v, more, InCall(c, Lock));
    more := TakeStep(v, more, InCall(c, PutPort));
    more := TakeStep(v, more, InCall(c, PutStopper));
  }

  lemma AddBinds(v: ValidIP, actions: seq<Action>, c: Call, rid: Rid) returns (more: seq<Action>)
    requires Run(v, actions).Some? && c in Run(v, actions).value.calls && Run(v, actions).value.calls[c].AddCheck?
    requires var s := Run(v, actions).value;
             var spec := s.calls[c].spec;
             && s.mu == None && rid !in s.routines && WellFormed(spec, v) && (IsTCP(spec) || IsUDP(spec))
             && !Conflicts(spec, s.ports) && Bindable(s, spec)
    ensures Run(v, more).Some?
    ensures var s, s' := Run(v, actions).value, Run(v, more).value;
            var spec := s.calls[c].spec;
            && rid in s'.routines
            && s' == s.(calls := s.calls[c := AddLock(spec, rid)], routines := s.routines[rid := s'.routines[rid]])
            && s'.routines[rid].spec == spec && s'.routines[rid].listening
            && s'.routines[rid].stopper == Selecting
            && s'.routines[rid].acceptor == if IsTCP(spec) then Accepting else NoAcceptor
  {
    hide WellFormed, Conflicts, IsTCP, IsUDP, SameParent;
    more := TakeStep(v, actions, InCall(c, Check));
    var s, s1 := Run(v, actions).value, Run(v, more).value;
    assert s1 == s.(calls := s.calls[c := AddRun(s.calls[c].spec)]);
    more := TakeStep(v, more, InCall(c, Bind(rid)));
    assert Run(v, more).value.calls == s.calls[c := AddLock(s.calls[c].spec, rid)];
  }

  /** SCTP passes the check and is then refused, whatever is bound. */
  lemma SCTPIsRefused(v: ValidIP, s: State, c: Call, a: CallAction)
    requires c in s.calls && s.calls[c].AddRun? && s.calls[c].spec.proto in {"sctp", "sctp4", "sctp6"}
    ensures CallStep(v, s, c, a).Some? <==> a == BindFails
  {
    ServedIs(s.calls[c].spec);
    hide IsTCP, IsUDP, Bindable;
  }

  // ---------------------------------------------------------------- routines

  /** While a listener is open and not told to stop, a connection that comes is dispatched. */
  lemma {:induction false} Dispatches(v: ValidIP, actions: seq<Action>, rid: Rid) returns (more: seq<Action>)
    requires Run(v, actions).Some? && rid in Run(v, actions).value.routines
    requires var r := Run(v, actions).value.routines[rid]; r.acceptor == Accepting && r.stopper == Selecting
    ensures Run(v, more).Some?
    ensures var s, s' := Run(v, actions).value, Run(v, more).value;
            var r := s.routines[rid];
            s' == s.(routines := s.routines[rid := r.(accepted := r.accepted + 1, dispatched := r.dispatched + 1)])
  {
    ListensWhileSelecting(v, actions, rid);
    more := TakeStep(v, actions, InRoutine(rid, Accept));
    more := TakeStep(v, more, InRoutine(rid, HandOver));
  }

  lemma ListensWhileSelecting(v: ValidIP, actions: seq<Action>, rid: Rid)
    requires Run(v, actions).Some? && rid in Run(v, actions).value.routines
    ensures Run(v, actions).value.routines[rid].stopper == Selecting ==> Run(v, actions).value.routines[rid].listening
  {
    RunInv(v, actions);
    assert RoutineRight(Run(v, actions).value.routines[rid]);
  }

  /** A closed listener accepts nothing more, and once the select loop has ended nothing more is dispatched. */
  lemma NothingAfterStop(r: Routine, a: RoutineAction)
    requires RoutineRight(r) && RoutineStep(r, a).Some?
    ensures !r.listening ==> RoutineStep(r, a).value.accepted == r.accepted && a != AcceptBreaks
    ensures r.stopper != Selecting ==> RoutineStep(r, a).value.dispatched == r.dispatched
    ensures a == AcceptFails ==> !r.listening
  {
  }

  predicate Ended(r: Routine) {
    r.channelClosed && r.stopper == StopperDone && !r.listening && r.acceptor in {AcceptorDone, NoAcceptor}
  }

  /** A routine whose report was received ends altogether, unless it holds an accepted connection nobody takes any more. */
  lemma {:induction false} RoutineEnds(v: ValidIP, actions: seq<Action>, rid: Rid) returns (more: seq<Action>)
    requires Run(v, actions).Some? && rid in Run(v, actions).value.routines
    requires Run(v, actions).value.routines[rid].reports == 1
    requires Run(v, actions).value.routines[rid].acceptor != HandingOver
    ensures Run(v, more).Some? && rid in Run(v, more).value.routines && Ended(Run(v, more).value.routines[rid])
  {
    RunInv(v, actions);
    assert RoutineRight(Run(v, actions).value.routines[rid]);
    hide Inv;
    more := actions;
    if Run(v, more).value.routines[rid].acceptor == Accepting {
      more := TakeStep(v, more, InRoutine(rid, AcceptFails));
    }
    if Run(v, more).value.routines[rid].stopper == ClosingChannel {
      more := TakeStep(v, more, InRoutine(rid, CloseChannel));
    }
  }
}
