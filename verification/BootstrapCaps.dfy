/** Without the capability assumption the start-up never completes. */
module BootstrapCaps {
  import opened Prelude
  import opened Framing
  import opened Messages
  import opened Channel
  import opened Endpoint
  import opened Bootstrap
  import opened BootstrapSafety

  /** A reader that has taken every message begun finds an empty pipe. */
  lemma AllTaken(c: Chan)
    requires Inv(c) && |c.rcvd| == |c.sent|
    ensures c.buf == [] && c.pend == []
  {
  }

  // ---------------------------------------------------------------- no capabilities after the re-execution

  /** The child is re-executed once and then waits for a ParentHello that is never sent again. */
  ghost predicate Stranded(cfg: Config, s: State) {
    && DownInOrder(cfg, s) && UpInOrder(cfg, s)
    && s.parent.pc <= 4 && s.child.pc <= 4 && s.execs <= 1 && !s.caps
    && (s.execs == 1 ==> s.child.pc <= 1)
  }

  lemma ParentStranded(cfg: Config, s: State, a: ProcAction)
    requires Usable(cfg) && Stranded(cfg, s) && ParentStep(cfg, s, a).Some?
    ensures Stranded(cfg, ParentStep(cfg, s, a).value)
  {
    hide Inv, Carries, DownMsgs, UpMsgs;
    match a
    case Begin => SendBegins(cfg.codec, s.parent, s.down, DownMsgs(cfg)); DownNames(cfg, 0);
    case Flush(k) => SendFlushes(cfg.codec, s.parent, s.down, DownMsgs(cfg), k);
    case Read(n) => ParentReadStranded(cfg, s, n);
    case Do => ParentDoIs(cfg, s);
    case Abort =>
    case End =>
  }

  lemma ParentReadStranded(cfg: Config, s: State, n: nat)
    requires Usable(cfg) && Stranded(cfg, s) && ParentRead(cfg, s, n).Some?
    ensures Stranded(cfg, ParentRead(cfg, s, n).value)
  {
    var name := ParentOp(s.parent.pc).name;
    if s.parent.pc == 4 {
      // only ChildHello was sent, and it has been taken
      assert |s.up.rcvd| <= |s.up.sent|;
      AllTaken(s.up);
    } else {
      UpNames(0);
      AwaitedReads(cfg.codec, s.parent, s.up, UpMsgs(), name, n);
      hide Inv, Carries, UpMsgs;
    }
  }

  lemma ChildStranded(cfg: Config, s: State, a: ProcAction)
    requires Usable(cfg) && !cfg.reexecCaps && Stranded(cfg, s) && ChildStep(cfg, s, a).Some?
    ensures Stranded(cfg, ChildStep(cfg, s, a).value)
  {
    hide Inv, Carries, DownMsgs, UpMsgs;
    match a
    case Begin => SendBegins(cfg.codec, s.child, s.up, UpMsgs()); UpNames(0);
    case Flush(k) => SendFlushes(cfg.codec, s.child, s.up, UpMsgs(), k);
    case Read(n) => ChildReadStranded(cfg, s, n);
    case Do => ChildDoIs(cfg, s);
    case End =>
    case Abort =>
  }

  lemma ChildReadStranded(cfg: Config, s: State, n: nat)
    requires Usable(cfg) && Stranded(cfg, s) && ChildRead(cfg, s, n).Some?
    ensures Stranded(cfg, ChildRead(cfg, s, n).value)
  {
    var name := ChildOp(s.child.pc).name;
    if s.execs == 1 {
      // only two messages were sent, and both have been taken
      assert |s.down.rcvd| <= |s.down.sent|;
      AllTaken(s.down);
    } else {
      ChildReadsFirst(cfg, s, n);
    }
  }

  lemma ChildReadsFirst(cfg: Config, s: State, n: nat)
    requires Usable(cfg) && Stranded(cfg, s) && ChildRead(cfg, s, n).Some? && s.execs == 0
    ensures Stranded(cfg, ChildRead(cfg, s, n).value)
  {
    hide Inv, Carries, DownMsgs, UpMsgs;
    DownNames(cfg, |s.down.rcvd|);
    AwaitedReads(cfg.codec, s.child, s.down, DownMsgs(cfg), ChildOp(s.child.pc).name, n);
  }

  // ---------------------------------------------------------------- capabilities from the start

  /** The child skips the first half of the handshake, so the parent's first message is the wrong one. */
  ghost predicate Skipped(cfg: Config, s: State) {
    && s.caps && s.execs == 0 && s.parent.pc <= 1
    && (s.child.pc == 0 || s.child.pc >= 5)
    && Carries(cfg.codec, s.up, [UpMsgs()[1]])
    && (s.up.pend != [] ==> ChildOp(s.child.pc).Send?)
    && |s.up.sent| == (if s.child.pc >= 7 then 1 else 0) + Busy(s.up)
    && (s.down.pend != [] ==> ParentOp(s.parent.pc).Send?)
    && (s.parent.fail == None ==> |s.up.rcvd| == 0)
  }

  /** A message of another name is refused, not taken for the expected one. */
  lemma OtherNameRefused(codec: Codec, p: Proc, c: Chan, m: Message, name: Name, n: nat)
    requires AllUsable(codec, [m]) && Carries(codec, c, [m]) && CanRead(c, n) && |c.rcvd| == 0
    requires Named(m).name != name && p.fail == None
    ensures var (p', c') := ReadAwaited(codec, p, c, name, n);
            && Carries(codec, c', [m]) && p'.pc == p.pc && c'.sent == c.sent && c'.pend == c.pend
            && (p' == p ==> |c'.rcvd| == 0) && (p' != p ==> p'.fail.Some?)
  {
    ReadInv(c, n);
    if Channel.Read(c, n).Delivered? {
      assert codec.CanSend([m][0]);
      assert codec.unmarshal(codec.marshal(Named(m))) == Some(Named(m));
      assert c.sent[0] == codec.Payload([m][0]);
    }
  }

  lemma ParentSkipped(cfg: Config, s: State, a: ProcAction)
    requires Usable(cfg) && Skipped(cfg, s) && ParentStep(cfg, s, a).Some?
    ensures Skipped(cfg, ParentStep(cfg, s, a).value)
  {
    UpNames(1);
    var m := UpMsgs()[1];
    assert AllUsable(cfg.codec, [m]) by { assert cfg.codec.CanSend(UpMsgs()[1]); }
    hide Inv, Carries, DownMsgs, UpMsgs, AllUsable;
    match a
    case Read(n) => OtherNameRefused(cfg.codec, s.parent, s.up, m, ParentOp(s.parent.pc).name, n);
    case _ =>
  }

  lemma ChildBeginSkipped(cfg: Config, s: State)
    requires Usable(cfg) && Skipped(cfg, s) && ChildBegin(cfg, s).Some?
    ensures Skipped(cfg, ChildBegin(cfg, s).value)
  {
    var m := UpMsgs()[1];
    assert AllUsable(cfg.codec, [m]) by { assert cfg.codec.CanSend(UpMsgs()[1]); }
    assert [m][0] == m;
    hide Inv, Carries, DownMsgs, UpMsgs, AllUsable;
    SendBegins(cfg.codec, s.child, s.up, [m]);
  }

  lemma ChildFlushSkipped(cfg: Config, s: State, k: nat)
    requires Skipped(cfg, s) && ChildFlush(s, k).Some?
    ensures Skipped(cfg, ChildFlush(s, k).value)
  {
  }

  lemma ChildSkipped(cfg: Config, s: State, a: ProcAction)
    requires Usable(cfg) && Skipped(cfg, s) && ChildStep(cfg, s, a).Some?
    ensures Skipped(cfg, ChildStep(cfg, s, a).value)
  {
    hide Inv, Carries, DownMsgs, UpMsgs, AllUsable;
    match a
    case Begin => ChildBeginSkipped(cfg, s);
    case Flush(k) => ChildFlushSkipped(cfg, s, k);
    case Read(n) =>
    case Do => ChildDoIs(cfg, s);
    case End =>
    case Abort =>
  }

  // ---------------------------------------------------------------- both

  ghost predicate Blocked(cfg: Config, s: State) {
    if cfg.firstCaps then Skipped(cfg, s) else Stranded(cfg, s)
  }

  lemma DriversBlocked(cfg: Config, s: State, a: DriverAction)
    requires Blocked(cfg, s) && DriversStep(s, a).Some?
    ensures Blocked(cfg, DriversStep(s, a).value)
  {
  }

  lemma {:induction false} RunBlocked(cfg: Config, actions: seq<Action>)
    requires Usable(cfg) && !CapsAsExpected(cfg) && Run(cfg, actions).Some?
    ensures Blocked(cfg, Run(cfg, actions).value)
  {
    if actions != [] {
      var front, a := actions[..|actions| - 1], actions[|actions| - 1];
      RunBlocked(cfg, front);
      var s := Run(cfg, front).value;
      hide Skipped, Stranded, ParentStep, ChildStep, DriversStep;
      match a
      case ByParent(pa) => if cfg.firstCaps { ParentSkipped(cfg, s, pa); } else { ParentStranded(cfg, s, pa); }
      case ByChild(ca) => if cfg.firstCaps { ChildSkipped(cfg, s, ca); } else { ChildStranded(cfg, s, ca); }
      case ByDriver(da) => DriversBlocked(cfg, s, da);
    }
  }

  /** If the capabilities come at any other time, no run at all gets the parent past its ChildInitUserNSCompleted. */
  lemma CompletionNeedsCaps(cfg: Config, actions: seq<Action>)
    requires Usable(cfg) && Run(cfg, actions).Some?
    ensures Run(cfg, actions).value.parent.pc > 4 || Final(cfg, Run(cfg, actions).value) ==> CapsAsExpected(cfg)
  {
    if !CapsAsExpected(cfg) {
      RunBlocked(cfg, actions);
    }
  }

  /**
   * Whenever the kernel gives the capabilities, the child is re-executed at most once: the retries
   * that gainCaps counts cannot happen, because the message they would wait for is not sent again.
   */
  lemma AtMostOneReexec(cfg: Config, actions: seq<Action>)
    requires Usable(cfg) && Run(cfg, actions).Some?
    ensures Run(cfg, actions).value.execs <= 1
  {
    if CapsAsExpected(cfg) {
      HandshakeSafe(cfg, actions);
    } else {
      RunBlocked(cfg, actions);
    }
  }
}
