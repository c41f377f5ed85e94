/**
 * The boot-time setup of the A10 TCON channel-1 clock. The routine runs a
 * fixed sequence of fallible steps (format the stage-2 name, map the
 * register, allocate the stage-2 mux, gate and divider, register stage 2,
 * allocate the stage-1 divider and gate, register stage 1, add the
 * provider) and on a failure falls through a ladder of release labels.
 *
 * Which steps fail is an oracle: the set `fails` of steps that fail when
 * reached. `Trace` is the reference behaviour (the resources gained before
 * the first failure, then the rollback stack released top first); `Setup`
 * is the routine itself, proved to produce exactly that trace.
 */
module TconCh1 {
  import opened Layout
  import opened Clk
  import opened Ledger

  /** The routine's fallible steps, in the order it attempts them. */
  datatype Step =
    | BuildName
    | MapRegister
    | AllocSclk2Mux
    | AllocSclk2Gate
    | AllocSclk2Div
    | RegisterSclk2
    | AllocSclk1Div
    | AllocSclk1Gate
    | RegisterSclk1
    | AddProvider
  {
    /** Position of the step in the routine, counted from 0. */
    function Index(): nat
    {
      match this
      case BuildName => 0
      case MapRegister => 1
      case AllocSclk2Mux => 2
      case AllocSclk2Gate => 3
      case AllocSclk2Div => 4
      case RegisterSclk2 => 5
      case AllocSclk1Div => 6
      case AllocSclk1Gate => 7
      case RegisterSclk1 => 8
      case AddProvider => 9
    }
  }

  /** The step at which the routine stops: the earliest failing one, if any. */
  function FirstFailure(fails: set<Step>): (first: Option<Step>)
    ensures first.None? <==> fails == {}
    ensures first.Some? ==> first.value in fails
    ensures first.Some? ==> forall s :: s in fails ==> first.value.Index() <= s.Index()
  {
    if BuildName in fails then Some(BuildName)
    else if MapRegister in fails then Some(MapRegister)
    else if AllocSclk2Mux in fails then Some(AllocSclk2Mux)
    else if AllocSclk2Gate in fails then Some(AllocSclk2Gate)
    else if AllocSclk2Div in fails then Some(AllocSclk2Div)
    else if RegisterSclk2 in fails then Some(RegisterSclk2)
    else if AllocSclk1Div in fails then Some(AllocSclk1Div)
    else if AllocSclk1Gate in fails then Some(AllocSclk1Gate)
    else if RegisterSclk1 in fails then Some(RegisterSclk1)
    else if AddProvider in fails then Some(AddProvider)
    else
      assert forall s: Step :: s.Index() <= 9 ==> s !in fails;
      None
  }

  /** The labels of the error ladder, top to bottom. */
  datatype Label =
    | FreeSclk1
    | FreeSclk1Gate
    | FreeSclk1Mux
    | FreeSclk2
    | FreeSclk2Div
    | FreeSclk2Gate
    | FreeSclk2Mux
  {
    /** How many release statements run when control enters at this label. */
    function Rungs(): nat
    {
      match this
      case FreeSclk1 => 7
      case FreeSclk1Gate => 6
      case FreeSclk1Mux => 5
      case FreeSclk2 => 4
      case FreeSclk2Div => 3
      case FreeSclk2Gate => 2
      case FreeSclk2Mux => 1
    }
  }

  /** The stage-2 parent names, looked up by index 0 .. 3. */
  function Sclk2Parents(node: Node): (parents: seq<Option<string>>)
    ensures |parents| == SCLK2_PARENTS
    ensures forall i :: 0 <= i < SCLK2_PARENTS ==> parents[i] == ParentName(node, i)
  {
    [ParentName(node, 0), ParentName(node, 1), ParentName(node, 2), ParentName(node, 3)]
  }

  /** The stage-2 registration: 4 parents, a mux, a divider and a gate over the register. */
  function Sclk2Clock(node: Node, reg: Addr): Composite
  {
    Composite(
      Stage2Name(OutputName(node)),
      Sclk2Parents(node),
      Some(ClkMux(Some(reg), SCLK2_MUX_SHIFT, SCLK2_MUX_MASK, Some(TCON_CH1_LOCK))),
      Some(ClkDivider(Some(reg), SCLK2_DIV_SHIFT, SCLK2_DIV_WIDTH, Some(TCON_CH1_LOCK))),
      Some(ClkGate(Some(reg), SCLK2_GATE_BIT, Some(TCON_CH1_LOCK))),
      0)
  }

  /** The stage-1 registration: no mux, its only parent stage 2, a divider and a gate. */
  function Sclk1Clock(node: Node, reg: Addr): Composite
  {
    Composite(
      OutputName(node),
      [Some(Stage2Name(OutputName(node)))],
      None,
      Some(ClkDivider(Some(reg), SCLK1_DIV_SHIFT, SCLK1_DIV_WIDTH, Some(TCON_CH1_LOCK))),
      Some(ClkGate(Some(reg), SCLK1_GATE_BIT, Some(TCON_CH1_LOCK))),
      0)
  }

  /** The resource the step at position i gains when it succeeds. */
  function Gain(node: Node, reg: Addr, i: nat): Resource
    requires i < 10
  {
    if i == 0 then NameBuf(Stage2Name(OutputName(node)))
    else if i == 1 then RegWindow(reg)
    else if i == 2 then Descriptor(Sclk2Mux)
    else if i == 3 then Descriptor(Sclk2Gate)
    else if i == 4 then Descriptor(Sclk2Div)
    else if i == 5 then Clock(Stage2, Sclk2Clock(node, reg))
    else if i == 6 then Descriptor(Sclk1Div)
    else if i == 7 then Descriptor(Sclk1Gate)
    else if i == 8 then Clock(Stage1, Sclk1Clock(node, reg))
    else ProviderEntry(Sclk1Clock(node, reg))
  }

  /** The resources gained by the first k steps, in order. */
  function Gained(node: Node, reg: Addr, k: nat): (g: seq<Resource>)
    requires k <= 10
    ensures |g| == k
  {
    if k == 0 then [] else Gained(node, reg, k - 1) + [Gain(node, reg, k - 1)]
  }

  /**
   * Reference behaviour of the routine: the resources gained by every step
   * before the first failure, then, on a failure, the rollback stack of
   * those resources released top first.
   */
  function Trace(node: Node, reg: Addr, fails: set<Step>): seq<Event>
  {
    match FirstFailure(fails)
    case None => Acquires(Gained(node, reg, 10))
    case Some(step) =>
      Abort(Gained(node, reg, step.Index()))
  }

  /**
   * The rollback stack as the error ladder sees it, given the two clock
   * handles; with the handles the routine registered it is FullStack.
   */
  function HandleStack(sclk2: Composite, sclk1: Composite): seq<Resource>
  {
    [ Descriptor(Sclk2Mux), Descriptor(Sclk2Gate), Descriptor(Sclk2Div), Clock(Stage2, sclk2),
      Descriptor(Sclk1Div), Descriptor(Sclk1Gate), Clock(Stage1, sclk1) ]
  }

  /**
   * sun4i_a10_tcon_ch1_setup. The log of what the routine acquires and
   * releases is exactly the reference trace: what is gained step by step,
   * and on a failure what the goto ladder releases. The steps that build
   * and register each stage are RegisterStage2 and RegisterStage1; each
   * `goto label` of theirs returns that label, and the routine then runs
   * ErrorLadder entered at it.
   */
  method Setup(node: Node, reg: Addr, fails: set<Step>) returns (log: seq<Event>)
    ensures log == Trace(node, reg, fails)
  {
    log := [];
    var sclk1Name := OutputName(node);

    if BuildName in fails {
      EarlyExit(node, reg, fails, 0);
      return;
    }
    var sclk2Name := Stage2Name(sclk1Name);
    log := log + [Acquire(NameBuf(sclk2Name))];
    assert log == Progress(node, reg, 1);

    if MapRegister in fails {
      EarlyExit(node, reg, fails, 1);
      return;
    }
    log := log + [Acquire(RegWindow(reg))];
    assert log == Progress(node, reg, 2);

    var sclk2Parents := new Option<string>[SCLK2_PARENTS];
    for i := 0 to SCLK2_PARENTS
      modifies sclk2Parents
      invariant forall j :: 0 <= j < i ==> sclk2Parents[j] == ParentName(node, j)
    {
      sclk2Parents[i] := ParentName(node, i);
    }
    var parents := sclk2Parents[..];
    assert parents == Sclk2Parents(node);

    if AllocSclk2Mux in fails {
      EarlyExit(node, reg, fails, 2);
      return;
    }
    var sclk2Mux := ZERO_MUX;
    log := log + [Acquire(Descriptor(Sclk2Mux))];
    assert log == Progress(node, reg, 3);
    sclk2Mux := sclk2Mux.(reg := Some(reg));
    sclk2Mux := sclk2Mux.(shift := SCLK2_MUX_SHIFT);
    sclk2Mux := sclk2Mux.(mask := SCLK2_MUX_MASK);
    sclk2Mux := sclk2Mux.(lock := Some(TCON_CH1_LOCK));

    // The ladder reads sclk1 only when entered at free_sclk1, after it is set.
    var sclk2, jump;
    var sclk1: Composite := *;
    log, sclk2, jump := RegisterStage2(node, reg, fails, sclk2Name, parents, sclk2Mux, log);
    if jump.None? {
      log, sclk1, jump := RegisterStage1(node, reg, fails, sclk1Name, sclk2Name, log);
      if jump.None? {
        Succeeded(node, reg, fails);
        return;
      }
    }
    FailedAt(node, reg, fails, jump.value, sclk2, sclk1, log);
    log := ErrorLadder(jump.value, sclk2, sclk1, log);
  }

  /** Every step before the k-th succeeds. */
  predicate Reaches(fails: set<Step>, k: nat)
  {
    FirstFailure(fails).None? || FirstFailure(fails).value.Index() >= k
  }

  /**
   * The routine has run the steps before the failing one and is about to
   * jump to the ladder label `from`; the failing step is the one whose
   * goto names that label.
   */
  ghost predicate JumpsFrom(node: Node, reg: Addr, fails: set<Step>, from: Label, log: seq<Event>)
  {
    FirstFailure(fails).Some? && FirstFailure(fails).value.Index() == from.Rungs() + 2
    && log == Progress(node, reg, from.Rungs() + 2)
  }

  /**
   * The stage-2 steps: allocate and fill the gate and the divider, then
   * register the composite clock; a failure returns the label its goto
   * names, and their success the registered handle.
   */
  method RegisterStage2(node: Node, reg: Addr, fails: set<Step>, sclk2Name: string,
                        parents: seq<Option<string>>, sclk2Mux: ClkMux, before: seq<Event>)
    returns (log: seq<Event>, sclk2: Composite, jump: Option<Label>)
    requires Reaches(fails, 3) && before == Progress(node, reg, 3)
    requires sclk2Name == Stage2Name(OutputName(node)) && parents == Sclk2Parents(node)
    requires Sclk2Clock(node, reg).mux == Some(sclk2Mux)
    ensures jump.Some? ==> jump.value.Rungs() <= 3 && JumpsFrom(node, reg, fails, jump.value, log)
    ensures jump.None? ==> Reaches(fails, 6) && log == Progress(node, reg, 6) && sclk2 == Sclk2Clock(node, reg)
  {
    log, sclk2 := before, *;
    if AllocSclk2Gate in fails {
      return log, sclk2, Some(FreeSclk2Mux);
    }
    var sclk2Gate := ZERO_GATE;
    log := log + [Acquire(Descriptor(Sclk2Gate))];
    assert log == Progress(node, reg, 4);
    sclk2Gate := sclk2Gate.(reg := Some(reg));
    sclk2Gate := sclk2Gate.(bitIdx := SCLK2_GATE_BIT);
    sclk2Gate := sclk2Gate.(lock := Some(TCON_CH1_LOCK));

    if AllocSclk2Div in fails {
      return log, sclk2, Some(FreeSclk2Gate);
    }
    var sclk2Div := ZERO_DIVIDER;
    log := log + [Acquire(Descriptor(Sclk2Div))];
    assert log == Progress(node, reg, 5);
    sclk2Div := sclk2Div.(reg := Some(reg));
    sclk2Div := sclk2Div.(shift := SCLK2_DIV_SHIFT);
    sclk2Div := sclk2Div.(width := SCLK2_DIV_WIDTH);
    sclk2Div := sclk2Div.(lock := Some(TCON_CH1_LOCK));

    if RegisterSclk2 in fails {
      return log, sclk2, Some(FreeSclk2Div);
    }
    sclk2 := Composite(sclk2Name, parents, Some(sclk2Mux), Some(sclk2Div), Some(sclk2Gate), 0);
    log := log + [Acquire(Clock(Stage2, sclk2))];
    jump := None;
  }

  /**
   * The stage-1 steps: allocate and fill the divider and the gate,
   * register the composite clock with stage 2 as its only parent, and add
   * the provider; a failure returns the label its goto names.
   */
  method RegisterStage1(node: Node, reg: Addr, fails: set<Step>, sclk1Name: string, sclk2Name: string,
                        before: seq<Event>)
    returns (log: seq<Event>, sclk1: Composite, jump: Option<Label>)
    requires Reaches(fails, 6) && before == Progress(node, reg, 6)
    requires sclk1Name == OutputName(node) && sclk2Name == Stage2Name(sclk1Name)
    ensures jump.Some? ==> 4 <= jump.value.Rungs() && JumpsFrom(node, reg, fails, jump.value, log)
    ensures jump.Some? && jump.value.Rungs() == 7 ==> sclk1 == Sclk1Clock(node, reg)
    ensures jump.None? ==> FirstFailure(fails).None? && log == Progress(node, reg, 10)
  {
    log, sclk1 := before, *;
    if AllocSclk1Div in fails {
      return log, sclk1, Some(FreeSclk2);
    }
    var sclk1Div := ZERO_DIVIDER;
    log := log + [Acquire(Descriptor(Sclk1Div))];
    assert log == Progress(node, reg, 7);
    sclk1Div := sclk1Div.(reg := Some(reg));
    sclk1Div := sclk1Div.(shift := SCLK1_DIV_SHIFT);
    sclk1Div := sclk1Div.(width := SCLK1_DIV_WIDTH);
    sclk1Div := sclk1Div.(lock := Some(TCON_CH1_LOCK));

    if AllocSclk1Gate in fails {
      return log, sclk1, Some(FreeSclk1Mux);
    }
    var sclk1Gate := ZERO_GATE;
    log := log + [Acquire(Descriptor(Sclk1Gate))];
    assert log == Progress(node, reg, 8);
    sclk1Gate := sclk1Gate.(reg := Some(reg));
    sclk1Gate := sclk1Gate.(bitIdx := SCLK1_GATE_BIT);
    sclk1Gate := sclk1Gate.(lock := Some(TCON_CH1_LOCK));

    if RegisterSclk1 in fails {
      return log, sclk1, Some(FreeSclk1Gate);
    }
    sclk1 := Composite(sclk1Name, [Some(sclk2Name)], None, Some(sclk1Div), Some(sclk1Gate), 0);
    log := log + [Acquire(Clock(Stage1, sclk1))];
    assert log == Progress(node, reg, 9);

    if AddProvider in fails {
      return log, sclk1, Some(FreeSclk1);
    }
    log := log + [Acquire(ProviderEntry(sclk1))];
    jump := None;
  }

  /**
   * The error ladder, lines free_sclk1 .. free_sclk2_mux: entered at a
   * label, it runs that label's release and every one below it, which
   * releases the top from.Rungs() entries of the rollback stack, top first.
   */
  method ErrorLadder(from: Label, sclk2: Composite, sclk1: Composite, before: seq<Event>) returns (log: seq<Event>)
    ensures log == before + Unwind(HandleStack(sclk2, sclk1)[..from.Rungs()])
  {
    ghost var stack := HandleStack(sclk2, sclk1);
    assert RungsRun(stack, from.Rungs(), 7) == [];
    var depth := from.Rungs();
    log := before;
    if depth >= 7 {
      // free_sclk1
      log := log + [Release(Clock(Stage1, sclk1), ClkUnregisterComposite)];
    }
    assert log == before + RungsRun(stack, depth, 6);
    if depth >= 6 {
      // free_sclk1_gate
      log := log + [Release(Descriptor(Sclk1Gate), Kfree)];
    }
    assert log == before + RungsRun(stack, depth, 5);
    if depth >= 5 {
      // free_sclk1_mux, which frees the stage-1 divider
      log := log + [Release(Descriptor(Sclk1Div), Kfree)];
    }
    assert log == before + RungsRun(stack, depth, 4);
    if depth >= 4 {
      // free_sclk2
      log := log + [Release(Clock(Stage2, sclk2), ClkUnregister)];
    }
    assert log == before + RungsRun(stack, depth, 3);
    if depth >= 3 {
      // free_sclk2_div
      log := log + [Release(Descriptor(Sclk2Div), Kfree)];
    }
    assert log == before + RungsRun(stack, depth, 2);
    if depth >= 2 {
      // free_sclk2_gate
      log := log + [Release(Descriptor(Sclk2Gate), Kfree)];
    }
    assert log == before + RungsRun(stack, depth, 1);
    // free_sclk2_mux
    log := log + [Release(Descriptor(Sclk2Mux), Kfree)];
    assert log == before + RungsRun(stack, depth, 0);
    LadderUnwinds(stack, depth, 0);
  }

  /**
   * What the ladder has logged, entered at depth d, once it has run every
   * rung above n (rung n + 1 releases stack entry n, and only when n < d).
   */
  ghost function RungsRun(stack: seq<Resource>, d: nat, n: nat): seq<Event>
    requires n <= |stack|
    decreases |stack| - n
  {
    if n == |stack| then []
    else RungsRun(stack, d, n + 1) + (if n < d then [Release(stack[n], CallFor(stack[n]))] else [])
  }

  /** The rungs at or above the entry depth log nothing. */
  lemma {:induction false} RungsAboveEntry(stack: seq<Resource>, d: nat, n: nat)
    requires d <= n <= |stack|
    ensures RungsRun(stack, d, n) == []
    decreases |stack| - n
  {
    if n < |stack| {
      RungsAboveEntry(stack, d, n + 1);
    }
  }

  /**
   * Entered at depth d, once the rungs above n have run, unwinding the
   * bottom n entries completes the unwinding of the top d.
   */
  lemma {:induction false} LadderUnwinds(stack: seq<Resource>, d: nat, n: nat)
    requires n <= d <= |stack|
    ensures RungsRun(stack, d, n) + Unwind(stack[..n]) == Unwind(stack[..d])
    decreases d - n
  {
    if n == d {
      RungsAboveEntry(stack, d, n);
    } else {
      LadderUnwinds(stack, d, n + 1);
      UnwindTop(stack, n + 1);
      var r := [Release(stack[n], CallFor(stack[n]))];
      AppendAssoc(RungsRun(stack, d, n + 1), r, Unwind(stack[..n]));
    }
  }

  /** The log after the first k steps succeed, one acquisition appended per step. */
  ghost function Progress(node: Node, reg: Addr, k: nat): seq<Event>
    requires k <= 10
  {
    if k == 0 then [] else Progress(node, reg, k - 1) + [Acquire(Gain(node, reg, k - 1))]
  }

  lemma {:induction false} ProgressAcquires(node: Node, reg: Addr, k: nat)
    requires k <= 10
    ensures Progress(node, reg, k) == Acquires(Gained(node, reg, k))
  {
    if k > 0 {
      ProgressAcquires(node, reg, k - 1);
      AcquiresSnoc(Gained(node, reg, k - 1), Gain(node, reg, k - 1));
    }
  }

  /** The exit after the last step: the log holds every acquisition. */
  lemma Succeeded(node: Node, reg: Addr, fails: set<Step>)
    requires FirstFailure(fails).None?
    ensures Progress(node, reg, 10) == Trace(node, reg, fails)
  {
    ProgressAcquires(node, reg, 10);
  }

  /** The exits before any descriptor exists: the log holds the first k acquisitions only. */
  lemma EarlyExit(node: Node, reg: Addr, fails: set<Step>, k: nat)
    requires k <= 2
    requires FirstFailure(fails).Some? && FirstFailure(fails).value.Index() == k
    ensures Progress(node, reg, k) == Trace(node, reg, fails)
  {
    ProgressAcquires(node, reg, k);
    RollbackEarly(node, reg, k);
  }

  /**
   * A jump into the ladder at `from` after the steps before the failing
   * one: the acquisitions so far followed by the ladder's releases are the
   * reference trace.
   */
  lemma FailedAt(node: Node, reg: Addr, fails: set<Step>, from: Label,
                 sclk2: Composite, sclk1: Composite, log: seq<Event>)
    requires JumpsFrom(node, reg, fails, from, log)
    requires from.Rungs() >= 4 ==> sclk2 == Sclk2Clock(node, reg)
    requires from.Rungs() >= 7 ==> sclk1 == Sclk1Clock(node, reg)
    ensures log + Unwind(HandleStack(sclk2, sclk1)[..from.Rungs()]) == Trace(node, reg, fails)
  {
    var d := from.Rungs();
    ProgressAcquires(node, reg, d + 2);
    RollbackGained(node, reg, d + 2);
    HandlesAgree(node, reg, sclk2, sclk1, d);
  }

  /** The full rollback stack, with the clocks the routine registers. */
  function FullStack(node: Node, reg: Addr): seq<Resource>
  {
    HandleStack(Sclk2Clock(node, reg), Sclk1Clock(node, reg))
  }

  /** The ladder sees the registered clocks only at the rungs where they exist. */
  lemma HandlesAgree(node: Node, reg: Addr, sclk2: Composite, sclk1: Composite, d: nat)
    requires d <= 7
    requires d >= 4 ==> sclk2 == Sclk2Clock(node, reg)
    requires d >= 7 ==> sclk1 == Sclk1Clock(node, reg)
    ensures HandleStack(sclk2, sclk1)[..d] == FullStack(node, reg)[..d]
  {
    var h, f := HandleStack(sclk2, sclk1), FullStack(node, reg);
    forall i | 0 <= i < d ensures h[i] == f[i] {
    }
  }

  /** The stack entry above the first two steps' gains is the gain of step k - 1. */
  lemma StackEntry(node: Node, reg: Addr, k: nat)
    requires 3 <= k <= 9
    ensures FullStack(node, reg)[k - 3] == Gain(node, reg, k - 1)
  {
  }

  /** Nothing the first two steps gain is tracked, so their rollback stack is empty. */
  lemma RollbackEarly(node: Node, reg: Addr, k: nat)
    requires k <= 2
    ensures Rollback(Gained(node, reg, k)) == []
  {
    if k > 0 {
      RollbackEarly(node, reg, k - 1);
      RollbackSnoc(Gained(node, reg, k - 1), Gain(node, reg, k - 1));
    }
  }

  /** From the mux on, each step's gain is pushed: the stack after k steps is the full stack's first k - 2. */
  lemma {:induction false} RollbackGained(node: Node, reg: Addr, k: nat)
    requires 2 <= k <= 9
    ensures Rollback(Gained(node, reg, k)) == FullStack(node, reg)[..k - 2]
  {
    if k == 2 {
      RollbackEarly(node, reg, 2);
    } else {
      RollbackGained(node, reg, k - 1);
      RollbackSnoc(Gained(node, reg, k - 1), Gain(node, reg, k - 1));
      StackEntry(node, reg, k);
      SliceSnoc(FullStack(node, reg), k - 3);
    }
  }
}
