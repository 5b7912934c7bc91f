/** Safety of the start-up handshake over every run: partial writes, short reads and failures included. */
module BootstrapSafety {
  import opened Prelude
  import opened Framing
  import opened Messages
  import opened Channel
  import opened Endpoint
  import opened Bootstrap

  // ---------------------------------------------------------------- every configuration

  lemma BeginKeepsInv(codec: Codec, p: Proc, c: Chan, m: Message)
    requires Inv(c) && c.pend == []
    ensures Inv(BeginSend(codec, p, c, m).1)
  {
    if codec.CanSend(m) && |codec.Payload(m)| >= 1 {
      BeginInv(c, codec.Payload(m));
    }
  }

  lemma ReadKeepsInv(codec: Codec, p: Proc, c: Chan, name: Name, n: nat)
    requires Inv(c) && CanRead(c, n)
    ensures Inv(ReadAwaited(codec, p, c, name, n).1)
  {
    ReadInv(c, n);
  }

  ghost predicate BothInv(s: State) {
    Inv(s.down) && Inv(s.up)
  }

  lemma ParentKeepsInv(cfg: Config, s: State, a: ProcAction)
    requires BothInv(s) && ParentStep(cfg, s, a).Some?
    ensures BothInv(ParentStep(cfg, s, a).value)
  {
    match a
    case Begin => BeginKeepsInv(cfg.codec, s.parent, s.down, DownMsgs(cfg)[ParentOp(s.parent.pc).k]);
    case Flush(k) => FlushInv(s.down, k);
    case Read(n) => ReadKeepsInv(cfg.codec, s.parent, s.up, ParentOp(s.parent.pc).name, n);
    case Do => ParentDoIs(cfg, s);
    case _ =>
  }

  lemma ChildKeepsInv(cfg: Config, s: State, a: ProcAction)
    requires BothInv(s) && ChildStep(cfg, s, a).Some?
    ensures BothInv(ChildStep(cfg, s, a).value)
  {
    match a
    case Begin => BeginKeepsInv(cfg.codec, s.child, s.up, UpMsgs()[ChildOp(s.child.pc).k]);
    case Flush(k) => FlushInv(s.up, k);
    case Read(n) => ReadKeepsInv(cfg.codec, s.child, s.down, ChildOp(s.child.pc).name, n);
    case Do => ChildDoIs(cfg, s);
    case _ =>
  }

  /** One step keeps both pipes' invariants, whatever the codec and the capabilities. */
  lemma StepKeepsInv(cfg: Config, s: State, a: Action)
    requires BothInv(s) && Step(cfg, s, a).Some?
    ensures BothInv(Step(cfg, s, a).value)
  {
    match a
    case ByParent(pa) => ParentKeepsInv(cfg, s, pa);
    case ByChild(ca) => ChildKeepsInv(cfg, s, ca);
    case ByDriver(da) =>
  }

  /**
   * In every reachable state, what each process has received is the first so many messages the other
   * began to send, whatever writes and reads came in pieces and across every re-execution of the child.
   */
  lemma {:induction false} ReceivedIsPrefix(cfg: Config, actions: seq<Action>)
    requires Run(cfg, actions).Some?
    ensures var s := Run(cfg, actions).value;
            BothInv(s) && s.down.rcvd <= s.down.sent && s.up.rcvd <= s.up.sent
  {
    if actions != [] {
      var front := actions[..|actions| - 1];
      ReceivedIsPrefix(cfg, front);
      StepKeepsInv(cfg, Run(cfg, front).value, actions[|actions| - 1]);
    }
  }

  /** A process that comes to a message it cannot send fails there, whatever else is going on. */
  lemma UnsendableFails(cfg: Config, s: State)
    ensures s.parent.fail == None && ParentOp(s.parent.pc).Send? && s.down.pend == [] ==>
              ParentBegin(cfg, s).Some?
              && var s' := ParentBegin(cfg, s).value;
              var m := DownMsgs(cfg)[ParentOp(s.parent.pc).k];
              if cfg.codec.CanSend(m) && cfg.codec.Payload(m) != [] then s'.parent == s.parent && s'.down.pend != []
              else s' == s.(parent := Fail(s.parent, CannotSend))
    ensures s.child.fail == None && ChildOp(s.child.pc).Send? && s.up.pend == [] ==>
              ChildBegin(cfg, s).Some?
              && var s' := ChildBegin(cfg, s).value;
              var m := UpMsgs()[ChildOp(s.child.pc).k];
              if cfg.codec.CanSend(m) && cfg.codec.Payload(m) != [] then s'.child == s.child && s'.up.pend != []
              else s' == s.(child := Fail(s.child, CannotSend))
  {
    OpIndex(s.parent.pc, s.child.pc);
    hide ParentOp, ChildOp;
  }

  lemma OpIndex(ppc: nat, cpc: nat)
    ensures ParentOp(ppc).Send? ==> ParentOp(ppc).k < 4
    ensures ChildOp(cpc).Send? ==> ChildOp(cpc).k < 2
  {
  }

  // ---------------------------------------------------------------- the expected order

  function DownBegun(ppc: nat): nat {
    if ppc == 0 then 0 else if ppc <= 3 then 1 else if ppc <= 6 then 2 else if ppc <= 8 then 3 else 4
  }

  function UpBegun(execs: nat, cpc: nat): nat {
    if execs == 0 then (if cpc <= 2 then 0 else 1) else if cpc <= 6 then 1 else 2
  }

  function DownTaken(execs: nat, cpc: nat): nat {
    if execs == 0 then (if cpc <= 1 then 0 else if cpc <= 3 then 1 else 2)
    else if cpc <= 7 then 2 else if cpc == 8 then 3 else 4
  }

  function UpTaken(ppc: nat): nat {
    if ppc <= 1 then 0 else if ppc <= 4 then 1 else 2
  }

  /** The failures that would mean a misunderstanding rather than a fault. */
  predicate Misunderstood(f: Option<Failure>) {
    f.Some? && (f.value.WrongName? || f.value.BadPayload? || f.value.CannotSend? || f.value.TooManyReexecs?
                || (f.value.StreamFailure? && f.value.error != ShortRead))
  }

  /** The pipes carry the documented messages, and how many follows from where the processes are. */
  ghost predicate DownInOrder(cfg: Config, s: State) {
    && Carries(cfg.codec, s.down, DownMsgs(cfg))
    && |s.down.sent| == DownBegun(s.parent.pc) + Busy(s.down)
    && |s.down.rcvd| == DownTaken(s.execs, s.child.pc)
    && (s.down.pend != [] ==> ParentOp(s.parent.pc).Send?)
    && (s.down.want != None ==> ChildOp(s.child.pc).Await?)
  }

  ghost predicate UpInOrder(cfg: Config, s: State) {
    && Carries(cfg.codec, s.up, UpMsgs())
    && |s.up.sent| == UpBegun(s.execs, s.child.pc) + Busy(s.up)
    && |s.up.rcvd| == UpTaken(s.parent.pc)
    && (s.up.pend != [] ==> ChildOp(s.child.pc).Send?)
    && (s.up.want != None ==> ParentOp(s.parent.pc).Await?)
  }

  /** Where both processes are, and what the kernel knows. */
  predicate Placed(s: State) {
    && s.parent.pc <= PARENT_DONE && s.child.pc <= CHILD_DONE && s.execs <= 1
    && (s.execs == 0 ==> s.child.pc <= 4)
    && (s.execs == 1 ==> s.child.pc == 0 || s.child.pc >= 5)
    && (s.caps <==> s.execs == 1)
    && (s.w.deeds.idmapped <==> s.parent.pc >= 3)
    && (s.execs == 1 ==> s.w.deeds.idmapped)
    && (s.w.deeds.procMounted ==> s.child.pc >= 6)
    && !Misunderstood(s.parent.fail) && !Misunderstood(s.child.fail)
  }

  ghost predicate Ordered(cfg: Config, s: State) {
    DownInOrder(cfg, s) && UpInOrder(cfg, s) && Placed(s)
  }

  /** The name Send gives each message. */
  lemma DownNames(cfg: Config, k: nat)
    requires k < 4
    ensures |DownMsgs(cfg)| == 4
    ensures Named(DownMsgs(cfg)[k]).name ==
            match k
            case 0 => ParentHello
            case 1 => ParentInitIdmapCompleted
            case 2 => ParentInitNetworkDriverCompleted
            case _ => ParentInitPortDriverCompleted
  {
    NameIdentifiesField(DownMsgs(cfg)[k].u, if k == 0 then 0 else k + [0, 1, 2, 2][k]);
  }

  lemma UpNames(k: nat)
    requires k < 2
    ensures |UpMsgs()| == 2
    ensures Named(UpMsgs()[k]).name == if k == 0 then ChildHello else ChildInitUserNSCompleted
  {
  }

  lemma ParentBeginOrdered(cfg: Config, s: State)
    requires Usable(cfg) && Ordered(cfg, s) && ParentBegin(cfg, s).Some?
    ensures Ordered(cfg, ParentBegin(cfg, s).value)
  {
    hide Inv, Carries, DownMsgs, UpMsgs;
    SendBegins(cfg.codec, s.parent, s.down, DownMsgs(cfg));
  }

  lemma ChildBeginOrdered(cfg: Config, s: State)
    requires Usable(cfg) && Ordered(cfg, s) && ChildBegin(cfg, s).Some?
    ensures Ordered(cfg, ChildBegin(cfg, s).value)
  {
    hide Inv, Carries, DownMsgs, UpMsgs;
    SendBegins(cfg.codec, s.child, s.up, UpMsgs());
  }

  lemma ParentFlushOrdered(cfg: Config, s: State, k: nat)
    requires Ordered(cfg, s) && ParentFlush(s, k).Some?
    ensures Ordered(cfg, ParentFlush(s, k).value)
  {
    hide Inv, Carries, DownMsgs, UpMsgs;
    SendFlushes(cfg.codec, s.parent, s.down, DownMsgs(cfg), k);
  }

  lemma ChildFlushOrdered(cfg: Config, s: State, k: nat)
    requires Ordered(cfg, s) && ChildFlush(s, k).Some?
    ensures Ordered(cfg, ChildFlush(s, k).value)
  {
    hide Inv, Carries, DownMsgs, UpMsgs;
    SendFlushes(cfg.codec, s.child, s.up, UpMsgs(), k);
  }

  lemma ParentReadOrdered(cfg: Config, s: State, n: nat)
    requires Usable(cfg) && Ordered(cfg, s) && ParentRead(cfg, s, n).Some?
    ensures Ordered(cfg, ParentRead(cfg, s, n).value)
  {
    hide Inv, Carries, DownMsgs, UpMsgs;
    UpNames(|s.up.rcvd|);
    AwaitedReads(cfg.codec, s.parent, s.up, UpMsgs(), ParentOp(s.parent.pc).name, n);
  }

  lemma ChildReadOrdered(cfg: Config, s: State, n: nat)
    requires Usable(cfg) && Ordered(cfg, s) && ChildRead(cfg, s, n).Some?
    ensures Ordered(cfg, ChildRead(cfg, s, n).value)
  {
    hide Inv, Carries, DownMsgs, UpMsgs;
    var name := ChildOp(s.child.pc).name;
    AwaitPosition(s);
    DownNames(cfg, |s.down.rcvd|);
    AwaitedReads(cfg.codec, s.child, s.down, DownMsgs(cfg), name, n);
    var (p, c) := ReadAwaited(cfg.codec, s.child, s.down, name, n);
    AwaitMoves(s.execs, s.child.pc, name);
    assert DownInOrder(cfg, s.(child := p, down := c));
  }

  /** At the child's four Await operations, the message it is about to take has the name it waits for. */
  lemma AwaitPosition(s: State)
    requires Placed(s) && ChildOp(s.child.pc).Await?
    ensures DownTaken(s.execs, s.child.pc) < 4
    ensures ChildOp(s.child.pc).name ==
            match DownTaken(s.execs, s.child.pc)
            case 0 => ParentHello
            case 1 => ParentInitIdmapCompleted
            case 2 => ParentInitNetworkDriverCompleted
            case _ => ParentInitPortDriverCompleted
  {
  }

  lemma AwaitMoves(execs: nat, pc: nat, name: Name)
    requires ChildOp(pc) == Await(name) && (execs == 0 ==> pc <= 4) && (execs == 1 ==> pc == 0 || pc >= 5) && execs <= 1
    ensures DownTaken(execs, pc + 1) == DownTaken(execs, pc) + 1
    ensures UpBegun(execs, pc + 1) == UpBegun(execs, pc)
    ensures pc + 1 <= CHILD_DONE && (execs == 0 ==> pc + 1 <= 4) && (execs == 1 ==> pc + 1 >= 5)
  {
  }

  /** The parent's other operations: one place on, or a failed driver, or one more port published. */
  lemma ParentDoIs(cfg: Config, s: State)
    requires ParentDo(cfg, s).Some?
    ensures var s' := ParentDo(cfg, s).value;
            && s' == s.(parent := s'.parent, w := s'.w)
            && s'.w.deeds.procMounted == s.w.deeds.procMounted
            && !ParentOp(s.parent.pc).Send? && !ParentOp(s.parent.pc).Await? && s.parent.pc < PARENT_DONE
            && (s'.parent == Fail(s.parent, DriverFailure) || s'.parent == s.parent || s'.parent == Advance(s.parent))
            && (s'.w.deeds.idmapped <==> s.w.deeds.idmapped || s.parent.pc == 2)
            && (s.parent.pc == 2 ==> s'.parent == Advance(s.parent))
  {
    EffectIs(cfg, s.parent.pc, s.w);
    hide ParentEffect;
  }

  lemma EffectIs(cfg: Config, ppc: nat, w: World)
    ensures ParentEffect(cfg, ParentOp(ppc), w) != Blocks ==> !ParentOp(ppc).Send? && !ParentOp(ppc).Await? && ppc < PARENT_DONE
    ensures match ParentEffect(cfg, ParentOp(ppc), w)
            case Moves(w') => w'.deeds.procMounted == w.deeds.procMounted && (w'.deeds.idmapped <==> w.deeds.idmapped || ppc == 2)
            case Stays(w') => w'.deeds == w.deeds && ppc != 2
            case Fails(f) => f == DriverFailure && ppc != 2
            case Blocks => true
  {
  }

  lemma ParentDoOrdered(cfg: Config, s: State)
    requires Ordered(cfg, s) && ParentDo(cfg, s).Some?
    ensures Ordered(cfg, ParentDo(cfg, s).value)
  {
    hide Inv, Carries, DownMsgs, UpMsgs;
    ParentDoIs(cfg, s);
    ParentMoves(s.parent.pc);
    var s' := ParentDo(cfg, s).value;
    assert DownInOrder(cfg, s') && UpInOrder(cfg, s');
  }

  lemma ParentMoves(pc: nat)
    requires !ParentOp(pc).Send? && !ParentOp(pc).Await? && pc < PARENT_DONE
    ensures DownBegun(pc + 1) == DownBegun(pc) && UpTaken(pc + 1) == UpTaken(pc)
  {
  }

  /** At GainCaps the child has taken ParentInitIdmapCompleted, so the maps are written. */
  lemma MapsBeforeReexec(cfg: Config, s: State)
    requires Ordered(cfg, s) && s.child.pc == 4
    ensures s.w.deeds.idmapped
  {
  }

  /** The child's other operations: one place on, past the handshake's first half, or into a re-execution. */
  lemma ChildDoIs(cfg: Config, s: State)
    requires ChildDo(cfg, s).Some?
    ensures var s' := ChildDo(cfg, s).value;
            && s' == s.(child := s'.child, w := s'.w, caps := s'.caps, execs := s'.execs)
            && s'.w.deeds.idmapped == s.w.deeds.idmapped
            && !ChildOp(s.child.pc).Send? && !ChildOp(s.child.pc).Await?
            && s'.child.fail == (if s.child.pc == 4 && s.execs > 10 then Some(TooManyReexecs) else None)
            && match s.child.pc
               case 0 => s'.child.pc == (if s.caps then 5 else 1) && s'.execs == s.execs && s'.caps == s.caps && s'.w == s.w
               case 4 => s.execs > 10 || s' == s.(child := Proc(0, None), execs := s.execs + 1, caps := cfg.reexecCaps && s.w.deeds.idmapped)
               case _ => s'.child.pc == s.child.pc + 1 <= CHILD_DONE && s'.execs == s.execs && s'.caps == s.caps
                         && (s'.w.deeds.procMounted ==> s.w.deeds.procMounted || s.child.pc == 5)
  {
  }

  lemma ChildDoOrdered(cfg: Config, s: State)
    requires CapsAsExpected(cfg) && Ordered(cfg, s) && ChildDo(cfg, s).Some?
    ensures Ordered(cfg, ChildDo(cfg, s).value)
  {
    hide Inv, Carries, DownMsgs, UpMsgs;
    ChildDoIs(cfg, s);
    if s.child.pc == 4 {
      MapsBeforeReexec(cfg, s);
    }
    var s' := ChildDo(cfg, s).value;
    ChildMoves(s.execs, s.child.pc);
    assert DownInOrder(cfg, s') && UpInOrder(cfg, s');
  }

  lemma ChildMoves(execs: nat, pc: nat)
    requires (execs == 0 ==> pc <= 4) && (execs == 1 ==> pc == 0 || pc >= 5) && execs <= 1
    requires !ChildOp(pc).Send? && !ChildOp(pc).Await?
    ensures pc != 0 && pc != 4 ==> DownTaken(execs, pc + 1) == DownTaken(execs, pc) && UpBegun(execs, pc + 1) == UpBegun(execs, pc)
    ensures pc == 4 ==> DownTaken(1, 0) == DownTaken(0, 4) && UpBegun(1, 0) == UpBegun(0, 4)
    ensures pc == 0 ==> DownTaken(0, 1) == DownTaken(0, 0) && UpBegun(0, 1) == UpBegun(0, 0)
    ensures pc == 0 ==> DownTaken(1, 5) == DownTaken(1, 0) && UpBegun(1, 5) == UpBegun(1, 0)
  {
  }

  /** The driver goroutines, the aborts and the end of a pipe leave the pipes and the places alone. */
  lemma OthersOrdered(cfg: Config, s: State, s': State)
    requires Ordered(cfg, s)
    requires s' == s.(parent := s'.parent, child := s'.child, w := s'.w)
    requires s'.parent.pc == s.parent.pc && s'.child.pc == s.child.pc
    requires s'.w.deeds.idmapped == s.w.deeds.idmapped && s'.w.deeds.procMounted == s.w.deeds.procMounted
    requires s'.parent.fail == s.parent.fail || s'.parent.fail == Some(Aborted)
    requires s'.child.fail == s.child.fail || s'.child.fail == Some(Aborted) || s'.child.fail == Some(EndOfPipe)
    ensures Ordered(cfg, s')
  {
  }

  lemma ParentOrdered(cfg: Config, s: State, a: ProcAction)
    requires Usable(cfg) && Ordered(cfg, s) && ParentStep(cfg, s, a).Some?
    ensures Ordered(cfg, ParentStep(cfg, s, a).value)
  {
    hide Inv, Carries, DownMsgs, UpMsgs, Placed, DownInOrder, UpInOrder;
    match a
    case Begin => ParentBeginOrdered(cfg, s);
    case Flush(k) => ParentFlushOrdered(cfg, s, k);
    case Read(n) => ParentReadOrdered(cfg, s, n);
    case Do => ParentDoOrdered(cfg, s);
    case Abort => OthersOrdered(cfg, s, s.(parent := Fail(s.parent, Aborted)));
    case End =>
  }

  lemma ChildOrdered(cfg: Config, s: State, a: ProcAction)
    requires Usable(cfg) && CapsAsExpected(cfg) && Ordered(cfg, s) && ChildStep(cfg, s, a).Some?
    ensures Ordered(cfg, ChildStep(cfg, s, a).value)
  {
    hide Inv, Carries, DownMsgs, UpMsgs, Placed, DownInOrder, UpInOrder;
    match a
    case Begin => ChildBeginOrdered(cfg, s);
    case Flush(k) => ChildFlushOrdered(cfg, s, k);
    case Read(n) => ChildReadOrdered(cfg, s, n);
    case Do => ChildDoOrdered(cfg, s);
    case End => OthersOrdered(cfg, s, ChildEnd(s).value);
    case Abort => OthersOrdered(cfg, s, ChildAbort(s).value);
  }

  lemma StepOrdered(cfg: Config, s: State, a: Action)
    requires Usable(cfg) && CapsAsExpected(cfg) && Ordered(cfg, s) && Step(cfg, s, a).Some?
    ensures Ordered(cfg, Step(cfg, s, a).value)
  {
    hide Ordered, Usable, ParentStep, ChildStep, DriversStep;
    match a
    case ByParent(pa) => ParentOrdered(cfg, s, pa);
    case ByChild(ca) => ChildOrdered(cfg, s, ca);
    case ByDriver(da) => DriversOrdered(cfg, s, da);
  }

  lemma DriversOrdered(cfg: Config, s: State, a: DriverAction)
    requires Ordered(cfg, s) && DriversStep(s, a).Some?
    ensures Ordered(cfg, DriversStep(s, a).value)
  {
    hide Ordered;
    DriversIs(s, a);
    hide DriversStep;
    OthersOrdered(cfg, s, DriversStep(s, a).value);
  }

  lemma DriversIs(s: State, a: DriverAction)
    requires DriversStep(s, a).Some?
    ensures var s' := DriversStep(s, a).value;
            s' == s.(w := s'.w) && s'.w.deeds.idmapped == s.w.deeds.idmapped && s'.w.deeds.procMounted == s.w.deeds.procMounted
  {
  }

  lemma {:induction false} RunOrdered(cfg: Config, actions: seq<Action>)
    requires Usable(cfg) && CapsAsExpected(cfg) && Run(cfg, actions).Some?
    ensures Ordered(cfg, Run(cfg, actions).value)
  {
    if actions != [] {
      var front := actions[..|actions| - 1];
      RunOrdered(cfg, front);
      StepOrdered(cfg, Run(cfg, front).value, actions[|actions| - 1]);
    }
  }

  /**
   * Under the capability assumption no run refuses a message: a process fails by a short read, the
   * end of its pipe, its driver or an opaque operation, never because it got something unexpected.
   * The child is re-executed at most once, and passes mountProcfs only after the ID maps are written.
   */
  lemma HandshakeSafe(cfg: Config, actions: seq<Action>)
    requires Usable(cfg) && CapsAsExpected(cfg) && Run(cfg, actions).Some?
    ensures var s := Run(cfg, actions).value;
            && !Misunderstood(s.parent.fail) && !Misunderstood(s.child.fail)
            && s.execs <= 1
            && (s.w.deeds.procMounted || s.child.pc >= 5 ==> s.w.deeds.idmapped)
  {
    RunOrdered(cfg, actions);
  }
}
