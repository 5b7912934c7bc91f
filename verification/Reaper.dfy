/** The child's reaper: SIGCHLD notifications that may coalesce or be dropped, and the loop that waits for children. */
module Reaper {
  import opened Prelude
  import opened ExitStatus

  // ---------------------------------------------------------------- one call of reap

  /** The children of this process that have ended and have not been waited for. */
  class Zombies {
    var statuses: map<int, WaitStatus>

    constructor (statuses: map<int, WaitStatus>)
      ensures this.statuses == statuses
    {
      this.statuses := statuses;
    }

    /** wait4(-1, WNOHANG): some child that has ended, or none. */
    method Wait4() returns (r: Option<(int, WaitStatus)>)
      modifies this
      ensures r == None <==> old(statuses) == map[]
      ensures r == None ==> statuses == old(statuses)
      ensures r.Some? ==>
                && r.value.0 in old(statuses) && r.value.1 == old(statuses)[r.value.0]
                && statuses == old(statuses) - {r.value.0}
    {
      if statuses == map[] {
        return None;
      }
      ghost var some := AnElement(statuses.Keys);
      var pid :| pid in statuses.Keys;
      r := Some((pid, statuses[pid]));
      statuses := statuses - {pid};
    }
  }

  /** Leaves no child that had ended, and returns the status of `myPid` exactly if it was among them. */
  method Reap(z: Zombies, myPid: int) returns (res: Option<WaitStatus>)
    modifies z
    ensures z.statuses == map[]
    ensures res == if myPid in old(z.statuses) then Some(old(z.statuses)[myPid]) else None
  {
    res := None;
    while true
      invariant z.statuses.Keys <= old(z.statuses).Keys
      invariant forall p | p in z.statuses :: z.statuses[p] == old(z.statuses)[p]
      invariant res == if myPid in old(z.statuses) && myPid !in z.statuses then Some(old(z.statuses)[myPid]) else None
      decreases |z.statuses|
    {
      ghost var before := z.statuses;
      var r := z.Wait4();
      if r == None {
        break;
      }
      assert |before| == |z.statuses| + 1 by {
        assert before.Keys == z.statuses.Keys + {r.value.0};
      }
      if r.value.0 == myPid {
        res := Some(r.value.1);
      }
    }
  }

  // ---------------------------------------------------------------- the step system

  /** The reaper goroutine: receiving, inside reap with the result so far, or sending the target's status. */
  datatype Goroutine = Receiving | Reaping(res: Option<WaitStatus>) | Sending(ws: WaitStatus)

  /** runAndReap, which receives one result and returns it. */
  datatype Caller = Waiting | Returned(err: Option<Error>)

  /**
   * `live` are running children, `ended` those not waited for yet, `status` the status every child
   * ended with; `pending` is the pending SIGCHLD and `queued` what is in the channel.
   */
  datatype State = State(
    target: int,
    live: set<int>,
    ended: map<int, WaitStatus>,
    status: map<int, WaitStatus>,
    pending: bool,
    queued: nat,
    reaper: Goroutine,
    caller: Caller)

  const CHANNEL_SIZE := 32

  function Init(target: int): State {
    State(target, {target}, map[], map[], false, 0, Receiving, Waiting)
  }

  /**
   * Adopt, AdoptEnded, Exit and Spurious come from outside: a descendant becomes a child, running or
   * ended, a child ends, or SIGCHLD comes for another reason. The others are the process's own.
   */
  datatype Action =
    | Adopt(pid: int)
    | AdoptEnded(pid: int, ws: WaitStatus)
    | Exit(pid: int, ws: WaitStatus)
    | Spurious
    | Notify
    | Receive
    | Wait(pid: int)
    | EndReap
    | Deliver

  predicate Own(a: Action) {
    a.Notify? || a.Receive? || a.Wait? || a.EndReap? || a.Deliver?
  }

  /** The process ID of a child is not used for another one: the kernel hands IDs out in a long cycle. */
  predicate Fresh(s: State, pid: int) {
    pid !in s.live && pid !in s.status
  }

  function Step(s: State, a: Action): Option<State> {
    match a
    case Adopt(pid) => if Fresh(s, pid) then Some(s.(live := s.live + {pid})) else None
    case AdoptEnded(pid, ws) =>
      if Fresh(s, pid) && Terminated(ws) then
        Some(s.(ended := s.ended[pid := ws], status := s.status[pid := ws], pending := true))
      else None
    case Exit(pid, ws) =>
      if pid in s.live && Terminated(ws) then
        Some(s.(live := s.live - {pid}, ended := s.ended[pid := ws], status := s.status[pid := ws], pending := true))
      else None
    case Spurious => Some(s.(pending := true))
    case Notify =>
      // a full channel drops the notification
      if s.pending then
        Some(s.(pending := false, queued := if s.queued < CHANNEL_SIZE then s.queued + 1 else s.queued))
      else None
    case Receive =>
      if s.reaper == Receiving && s.queued > 0 then Some(s.(queued := s.queued - 1, reaper := Reaping(None))) else None
    case Wait(pid) =>
      if s.reaper.Reaping? && pid in s.ended then
        var res := if pid == s.target then Some(s.ended[pid]) else s.reaper.res;
        Some(s.(ended := s.ended - {pid}, reaper := Reaping(res)))
      else None
    case EndReap =>
      if s.reaper.Reaping? && s.ended == map[] then
        Some(s.(reaper := if s.reaper.res == None then Receiving else Sending(s.reaper.res.value)))
      else None
    case Deliver =>
      // an unbuffered channel: both sides go on together
      if s.reaper.Sending? && s.caller == Waiting then
        Some(s.(reaper := Receiving, caller := Returned(Reaped(s.reaper.ws))))
      else None
  }

  function RunFrom(s: State, actions: seq<Action>): Option<State> {
    if actions == [] then Some(s)
    else
      match RunFrom(s, actions[..|actions| - 1])
      case None => None
      case Some(s') => Step(s', actions[|actions| - 1])
  }

  /** Where the target's status is, from its end until runAndReap has returned it. */
  predicate Tracked(s: State) {
    var t := s.target;
    if t !in s.status then
      t in s.live && s.caller == Waiting && (s.reaper == Receiving || s.reaper == Reaping(None))
    else if t in s.ended then
      s.caller == Waiting && (s.reaper == Receiving || s.reaper == Reaping(None))
    else
      || (s.caller == Waiting && s.reaper == Reaping(Some(s.status[t])))
      || (s.caller == Waiting && s.reaper == Sending(s.status[t]))
      || (s.caller == Returned(Reaped(s.status[t])) && (s.reaper == Receiving || s.reaper == Reaping(None)))
  }

  predicate Inv(s: State) {
    && s.queued <= CHANNEL_SIZE
    && s.ended.Keys <= s.status.Keys
    && (forall p | p in s.ended :: s.ended[p] == s.status[p])
    && s.live !! s.status.Keys
    && (forall p | p in s.status :: Terminated(s.status[p]))
    && (s.ended != map[] ==> s.pending || s.queued > 0 || s.reaper.Reaping?)
    && Tracked(s)
  }

  lemma StepInv(s: State, a: Action)
    requires Inv(s) && Step(s, a).Some?
    ensures Inv(Step(s, a).value)
  {
  }

  lemma {:induction false} RunInv(s: State, actions: seq<Action>)
    requires Inv(s) && RunFrom(s, actions).Some?
    ensures Inv(RunFrom(s, actions).value) && RunFrom(s, actions).value.target == s.target
  {
    if actions != [] {
      var front := actions[..|actions| - 1];
      RunInv(s, front);
      StepInv(RunFrom(s, front).value, actions[|actions| - 1]);
    }
  }

  /**
   * No child that has ended is forgotten: there is a notification for it, pending or queued, or a
   * reap in progress, although notifications coalesce and a full channel drops them.
   */
  lemma {:induction false} NoneForgotten(target: int, actions: seq<Action>)
    requires RunFrom(Init(target), actions).Some?
    ensures var s := RunFrom(Init(target), actions).value;
            s.ended != map[] ==> s.pending || s.queued > 0 || s.reaper.Reaping?
  {
    RunInv(Init(target), actions);
  }

  /** What runAndReap returns is the target's own status; the reaper never sends without a receiver. */
  lemma ReturnsOwnStatus(target: int, actions: seq<Action>)
    requires RunFrom(Init(target), actions).Some?
    ensures var s := RunFrom(Init(target), actions).value;
            && (s.caller.Returned? ==> target in s.status && s.caller.err == Reaped(s.status[target]))
            && (s.reaper.Sending? ==> s.caller == Waiting)
  {
    RunInv(Init(target), actions);
  }

  /** Once it has returned, nothing that happens later is delivered to it again. */
  lemma ReturnsOnce(s: State, a: Action)
    requires Inv(s) && s.caller.Returned? && Step(s, a).Some?
    ensures a != Deliver && Step(s, a).value.caller == s.caller
  {
  }

  // ---------------------------------------------------------------- liveness

  function Measure(s: State): nat {
    |s.ended| + (if s.pending then 4 else 0) + 3 * s.queued
    + match s.reaper
      case Receiving => 0
      case Reaping(_) => 2
      case Sending(_) => 1
  }

  lemma OwnStepDecreases(s: State, a: Action)
    requires Own(a) && Step(s, a).Some?
    ensures Measure(Step(s, a).value) < Measure(s) && Step(s, a).value.status == s.status
  {
  }

  lemma CanGoOn(s: State) returns (a: Action)
    requires Inv(s) && s.target in s.status && s.caller == Waiting
    ensures Own(a) && Step(s, a).Some?
  {
    match s.reaper
    case Sending(_) => a := Deliver;
    case Reaping(_) =>
      if s.ended == map[] {
        a := EndReap;
      } else {
        var pid := AnElement(s.ended.Keys);
        a := Wait(pid);
      }
    case Receiving => a := if s.queued > 0 then Receive else Notify;
  }

  predicate OwnRun(s: State, actions: seq<Action>) {
    RunFrom(s, actions).Some? && forall i | 0 <= i < |actions| :: Own(actions[i])
  }

  lemma {:induction false} OwnRunDecreases(s: State, actions: seq<Action>)
    requires Inv(s) && OwnRun(s, actions)
    ensures Measure(RunFrom(s, actions).value) + |actions| <= Measure(s)
    ensures RunFrom(s, actions).value.status == s.status
  {
    if actions != [] {
      var front := actions[..|actions| - 1];
      OwnRunDecreases(s, front);
      OwnStepDecreases(RunFrom(s, front).value, actions[|actions| - 1]);
    }
  }

  /**
   * Once the target has ended, the process's own steps, in any order, return its status: there are
   * at most Measure(s) of them, and until the return another one is possible.
   */
  lemma {:induction false} TargetIsDelivered(target: int, before: seq<Action>, actions: seq<Action>)
    requires RunFrom(Init(target), before).Some?
    requires target in RunFrom(Init(target), before).value.status
    requires OwnRun(RunFrom(Init(target), before).value, actions)
    ensures var s := RunFrom(Init(target), before).value;
            var s' := RunFrom(s, actions).value;
            && |actions| <= Measure(s)
            && (s'.caller == Returned(Reaped(s.status[target])) || exists a :: OwnRun(s, actions + [a]))
  {
    var s := RunFrom(Init(target), before).value;
    var s' := RunFrom(s, actions).value;
    RunInv(Init(target), before);
    OwnRunDecreases(s, actions);
    RunInv(s, actions);
    if s'.caller == Waiting {
      var a := CanGoOn(s');
      assert (actions + [a])[..|actions + [a]| - 1] == actions;
      assert OwnRun(s, actions + [a]);
    }
  }

  /** What it returns makes the outer process exit with the target's own code, unless that is 0 and a port driver fails. */
  lemma ReapedExitCode(target: int, actions: seq<Action>, childDriver: Option<Error>, parentDriver: Option<Error>)
    requires RunFrom(Init(target), actions).Some?
    requires RunFrom(Init(target), actions).value.caller.Returned?
    ensures var s := RunFrom(Init(target), actions).value;
            && target in s.status
            && var code := Code(Return(ExitStatus.Wait(ProcessStatus(Return(s.caller.err, childDriver))), parentDriver));
            (code == Expected(s.status[target]) <==>
               Expected(s.status[target]) != 0 || (Code(childDriver) == 0 && Code(parentDriver) == 0))
  {
    RunInv(Init(target), actions);
    ExitCodePropagates(RunFrom(Init(target), actions).value.status[target], true, childDriver, parentDriver);
  }

  /** A run with an orphan that ends here, and one that had ended before it came. */
  function Example(target: int, p: int, wp: WaitStatus, q: int, wq: WaitStatus, ws: WaitStatus): seq<Action> {
    [Adopt(p), AdoptEnded(q, wq), Exit(p, wp), Exit(target, ws)]
  }

  lemma ExampleRuns(target: int, p: int, wp: WaitStatus, q: int, wq: WaitStatus, ws: WaitStatus)
    requires target != p && target != q && p != q && Terminated(wp) && Terminated(wq) && Terminated(ws)
    ensures RunFrom(Init(target), Example(target, p, wp, q, wq, ws)).Some?
    ensures var s := RunFrom(Init(target), Example(target, p, wp, q, wq, ws)).value;
            s.ended == map[p := wp, q := wq, target := ws] && s.live == {} && s.pending && s.status == s.ended && s.caller == Waiting
  {
    var all := Example(target, p, wp, q, wq, ws);
    var s := Init(target);
    assert all[..3][..2] == all[..2] && all[..2][..1] == all[..1] && all[..1][..0] == [];
    assert RunFrom(s, all[..1]) == Step(s, all[0]);
    assert RunFrom(s, all[..2]) == Step(RunFrom(s, all[..1]).value, all[1]);
    assert RunFrom(s, all[..3]) == Step(RunFrom(s, all[..2]).value, all[2]);
  }

  /** Up to 32 notifications are queued; one more is dropped. */
  lemma NotifyQueues(s: State)
    ensures s.pending ==> Step(s, Notify) == Some(s.(pending := false, queued := if s.queued < 32 then s.queued + 1 else s.queued))
  {
  }

  /** SIGCHLD for another reason is taken like any other, and its reap finds nothing. */
  lemma SpuriousIsHarmless(s: State)
    requires Inv(s) && s.ended == map[] && s.reaper == Receiving && s.queued == 0 && !s.pending
    ensures var s1 := Step(s, Spurious);
            && s1.Some? && var s2 := Step(s1.value, Notify);
            && s2.Some? && var s3 := Step(s2.value, Receive);
            && s3.Some? && Step(s3.value, EndReap) == Some(s)
  {
  }

  /** Whatever the target's status and whatever else ends, runAndReap comes to return that status. */
  lemma {:induction false} Returns(target: int, before: seq<Action>) returns (more: seq<Action>)
    requires RunFrom(Init(target), before).Some? && target in RunFrom(Init(target), before).value.status
    ensures var s := RunFrom(Init(target), before).value;
            OwnRun(s, more) && RunFrom(s, more).value.caller == Returned(Reaped(s.status[target]))
  {
    more := ReturnsFrom(target, before, []);
  }

  lemma {:induction false} ReturnsFrom(target: int, before: seq<Action>, sofar: seq<Action>) returns (more: seq<Action>)
    requires RunFrom(Init(target), before).Some? && target in RunFrom(Init(target), before).value.status
    requires OwnRun(RunFrom(Init(target), before).value, sofar)
    ensures var s := RunFrom(Init(target), before).value;
            OwnRun(s, more) && RunFrom(s, more).value.caller == Returned(Reaped(s.status[target]))
    decreases Measure(RunFrom(Init(target), before).value) - |sofar|
  {
    var s := RunFrom(Init(target), before).value;
    TargetIsDelivered(target, before, sofar);
    if RunFrom(s, sofar).value.caller == Returned(Reaped(s.status[target])) {
      more := sofar;
    } else {
      var a :| OwnRun(s, sofar + [a]);
      TargetIsDelivered(target, before, sofar + [a]);
      more := ReturnsFrom(target, before, sofar + [a]);
    }
  }
}
