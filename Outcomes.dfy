/**
 * What the setup routine leaves behind, stated on its reference trace
 * (which Setup is proved to produce): what each early failure leaves, what
 * a later failure releases and in which order, what stays live, which
 * clocks are unregistered when, and with which fields each stage is
 * registered.
 */
module Outcomes {
  import opened Layout
  import opened Clk
  import opened Ledger
  import opened TconCh1

  /** The number of steps that succeed before the routine stops. */
  function Completed(fails: set<Step>): (k: nat)
    ensures k <= 10
    ensures k == 10 <==> FirstFailure(fails).None?
    ensures FirstFailure(fails).Some? ==> FirstFailure(fails).value.Index() == k
    ensures k == 9 <==> FirstFailure(fails) == Some(AddProvider)
  {
    match FirstFailure(fails)
    case None => 10
    case Some(s) => s.Index()
  }

  /** Entry i of the gained resources is what step i gains. */
  lemma {:induction false} GainedAt(node: Node, reg: Addr, k: nat)
    requires k <= 10
    ensures forall i :: 0 <= i < k ==> Gained(node, reg, k)[i] == Gain(node, reg, i)
  {
    if k > 0 {
      GainedAt(node, reg, k - 1);
    }
  }

  /** No two steps gain the same resource. */
  lemma GainInjective(node: Node, reg: Addr, i: nat, j: nat)
    requires i < 10 && j < 10
    ensures Gain(node, reg, i) == Gain(node, reg, j) ==> i == j
  {
  }

  /** A resource is among the first k gains exactly when step i < k gains it. */
  lemma GainedMembers(node: Node, reg: Addr, k: nat)
    requires k <= 10
    ensures NoDuplicates(Gained(node, reg, k))
    ensures forall i :: 0 <= i < 10 ==> (Gain(node, reg, i) in Gained(node, reg, k) <==> i < k)
  {
    GainedAt(node, reg, k);
    forall i, j | 0 <= i < j < k ensures Gained(node, reg, k)[i] != Gained(node, reg, k)[j] {
      GainInjective(node, reg, i, j);
    }
    forall i | 0 <= i < 10 && Gain(node, reg, i) in Gained(node, reg, k) ensures i < k {
      var j :| 0 <= j < k && Gained(node, reg, k)[j] == Gain(node, reg, i);
      GainInjective(node, reg, i, j);
    }
  }

  /**
   * The trace acquires the gains of the completed steps, in order; on
   * success it releases nothing, on a failure it releases their rollback
   * stack top first.
   */
  lemma TraceParts(node: Node, reg: Addr, fails: set<Step>)
    ensures AcquiredSeq(Trace(node, reg, fails)) == Gained(node, reg, Completed(fails))
    ensures FirstFailure(fails).None? ==> Released(Trace(node, reg, fails)) == []
    ensures FirstFailure(fails).Some? ==>
      Released(Trace(node, reg, fails)) == Reverse(Rollback(Gained(node, reg, Completed(fails))))
  {
    match FirstFailure(fails)
    case None => AcquiresLog(Gained(node, reg, 10));
    case Some(s) => AbortLog(Gained(node, reg, s.Index()));
  }

  /** A resource is released exactly when the routine failed and it is a tracked gain of a completed step. */
  lemma ReleasedMembers(node: Node, reg: Addr, fails: set<Step>)
    ensures forall r :: r in Released(Trace(node, reg, fails)) <==>
      FirstFailure(fails).Some? && r in Gained(node, reg, Completed(fails)) && Tracked(r)
  {
    TraceParts(node, reg, fails);
    if FirstFailure(fails).Some? {
      var acq := Gained(node, reg, Completed(fails));
      GainedMembers(node, reg, Completed(fails));
      AbortReleasesOnce(acq);
      AbortLog(acq);
    }
  }

  /** The only clocks among the gains are the two stages, each gained once its step completes. */
  lemma {:induction false} GainedClocks(node: Node, reg: Addr, k: nat)
    requires k <= 10
    ensures forall c :: Clock(Stage2, c) in Gained(node, reg, k) ==> c == Sclk2Clock(node, reg) && k > 5
    ensures forall c :: Clock(Stage1, c) in Gained(node, reg, k) ==> c == Sclk1Clock(node, reg) && k > 8
  {
    if k > 0 {
      GainedClocks(node, reg, k - 1);
    }
  }

  /** From the mux on, before the provider, the untracked gains are the stage-2 name and the mapping. */
  lemma {:induction false} UntrackedGained(node: Node, reg: Addr, k: nat)
    requires 2 <= k <= 9
    ensures forall r :: r in Gained(node, reg, k) && !Tracked(r) <==>
      r == NameBuf(Stage2Name(OutputName(node))) || r == RegWindow(reg)
  {
    if k == 2 {
      assert Gained(node, reg, 2) == [Gain(node, reg, 0), Gain(node, reg, 1)];
    } else {
      UntrackedGained(node, reg, k - 1);
      assert Tracked(Gain(node, reg, k - 1));
    }
  }

  /**
   * If building the name, mapping the register or allocating the stage-2
   * mux fails, the routine returns having released nothing, and it holds
   * no descriptor and no registered clock.
   */
  lemma EarlyFailureReleasesNothing(node: Node, reg: Addr, fails: set<Step>)
    requires FirstFailure(fails).Some? && FirstFailure(fails).value.Index() <= 2
    ensures Released(Trace(node, reg, fails)) == []
    ensures AcquiredSeq(Trace(node, reg, fails)) == Gained(node, reg, FirstFailure(fails).value.Index())
    ensures forall r :: r in AcquiredSeq(Trace(node, reg, fails)) ==> !Tracked(r)
  {
    var k := Completed(fails);
    TraceParts(node, reg, fails);
    RollbackEarly(node, reg, k);
    RollbackMembers(Gained(node, reg, k));
  }

  /**
   * On a failure, every descriptor and clock acquired so far is released
   * exactly once, in reverse order of acquisition, with the call for its
   * kind, after every acquisition; nothing a later step would have gained
   * is touched.
   */
  lemma FailureUnwindsInReverse(node: Node, reg: Addr, fails: set<Step>)
    requires FirstFailure(fails).Some?
    ensures Released(Trace(node, reg, fails)) == Reverse(Rollback(AcquiredSeq(Trace(node, reg, fails))))
    ensures NoDuplicates(Released(Trace(node, reg, fails)))
    ensures forall r :: r in Released(Trace(node, reg, fails)) <==>
      r in AcquiredSeq(Trace(node, reg, fails)) && Tracked(r)
    ensures forall i :: 0 <= i < Completed(fails) ==> Trace(node, reg, fails)[i] == Acquire(Gain(node, reg, i))
    ensures forall i :: Completed(fails) <= i < |Trace(node, reg, fails)| ==>
      Trace(node, reg, fails)[i].Release? &&
      Trace(node, reg, fails)[i].call == CallFor(Trace(node, reg, fails)[i].res)
    ensures forall i :: Completed(fails) <= i < 10 ==>
      Gain(node, reg, i) !in AcquiredSeq(Trace(node, reg, fails)) &&
      Gain(node, reg, i) !in Released(Trace(node, reg, fails))
  {
    var k := Completed(fails);
    var acq := Gained(node, reg, k);
    TraceParts(node, reg, fails);
    GainedMembers(node, reg, k);
    GainedAt(node, reg, k);
    AbortReleasesOnce(acq);
    AbortOrder(acq);
  }

  /**
   * A failure at the mux or later releases the first entries of the
   * ladder's stack (mux, gate, divider, stage 2, stage-1 divider, stage-1
   * gate, stage 1), top first. The stage-1 divider is what the label
   * free_sclk1_mux frees.
   */
  lemma LadderReleases(node: Node, reg: Addr, fails: set<Step>)
    requires FirstFailure(fails).Some? && FirstFailure(fails).value.Index() >= 2
    ensures Released(Trace(node, reg, fails)) == Reverse(FullStack(node, reg)[..Completed(fails) - 2])
  {
    TraceParts(node, reg, fails);
    RollbackGained(node, reg, Completed(fails));
  }

  /**
   * Stage 2 is unregistered exactly when a step after its registration
   * fails; stage 1 exactly when adding the provider fails, the only
   * failure after its registration.
   */
  lemma UnregisterConditions(node: Node, reg: Addr, fails: set<Step>)
    ensures Clock(Stage2, Sclk2Clock(node, reg)) in Released(Trace(node, reg, fails)) <==>
      6 <= Completed(fails) < 10
    ensures Clock(Stage1, Sclk1Clock(node, reg)) in Released(Trace(node, reg, fails)) <==>
      FirstFailure(fails) == Some(AddProvider)
  {
    ReleasedMembers(node, reg, fails);
    GainedMembers(node, reg, Completed(fails));
    assert Clock(Stage2, Sclk2Clock(node, reg)) == Gain(node, reg, 5);
    assert Clock(Stage1, Sclk1Clock(node, reg)) == Gain(node, reg, 8);
  }

  /**
   * On success nothing is released, everything acquired stays live, and
   * the last act is publishing stage 1 as the provider's clock, after its
   * registration.
   */
  lemma SuccessPublishesStage1(node: Node, reg: Addr, fails: set<Step>)
    requires fails == {}
    ensures Released(Trace(node, reg, fails)) == []
    ensures Live(Trace(node, reg, fails)) == set r | r in Gained(node, reg, 10)
    ensures |Trace(node, reg, fails)| == 10
    ensures Trace(node, reg, fails)[9] == Acquire(ProviderEntry(Sclk1Clock(node, reg)))
    ensures Trace(node, reg, fails)[8] == Acquire(Clock(Stage1, Sclk1Clock(node, reg)))
  {
    AcquiresOnly(Gained(node, reg, 10));
    AcquiresAt(Gained(node, reg, 10));
    GainedAt(node, reg, 10);
  }

  /** The stage-2 name and the register mapping are never released, on any path. */
  lemma NameAndMappingNeverReleased(node: Node, reg: Addr, fails: set<Step>)
    ensures NameBuf(Stage2Name(OutputName(node))) !in Released(Trace(node, reg, fails))
    ensures RegWindow(reg) !in Released(Trace(node, reg, fails))
  {
    ReleasedMembers(node, reg, fails);
  }

  /** Once acquired, the stage-2 name and the register mapping stay live, the failing paths included. */
  lemma NameAndMappingStayLive(node: Node, reg: Addr, fails: set<Step>)
    ensures Completed(fails) >= 1 ==> NameBuf(Stage2Name(OutputName(node))) in Live(Trace(node, reg, fails))
    ensures Completed(fails) >= 2 ==> RegWindow(reg) in Live(Trace(node, reg, fails))
  {
    NameAndMappingNeverReleased(node, reg, fails);
    TraceParts(node, reg, fails);
    GainedMembers(node, reg, Completed(fails));
    assert NameBuf(Stage2Name(OutputName(node))) == Gain(node, reg, 0);
    assert RegWindow(reg) == Gain(node, reg, 1);
  }

  /** A failure leaves live exactly the completed steps' gains that are never released. */
  lemma FailureLeavesOnlyLeaks(node: Node, reg: Addr, fails: set<Step>)
    requires FirstFailure(fails).Some?
    ensures Live(Trace(node, reg, fails)) == set r | r in Gained(node, reg, Completed(fails)) && !Tracked(r)
  {
    GainedMembers(node, reg, Completed(fails));
    AbortLeaves(Gained(node, reg, Completed(fails)));
  }

  /** A failure at the mux or later leaves live exactly the stage-2 name and the register mapping. */
  lemma LateFailureLeaks(node: Node, reg: Addr, fails: set<Step>)
    requires FirstFailure(fails).Some? && FirstFailure(fails).value.Index() >= 2
    ensures Live(Trace(node, reg, fails)) == {NameBuf(Stage2Name(OutputName(node))), RegWindow(reg)}
  {
    var k := Completed(fails);
    FailureLeavesOnlyLeaks(node, reg, fails);
    UntrackedGained(node, reg, k);
    var leaks := set r | r in Gained(node, reg, k) && !Tracked(r);
    assert leaks == {NameBuf(Stage2Name(OutputName(node))), RegWindow(reg)};
  }

  /**
   * Whatever stage-2 clock the routine registers has the stage-2 name, the
   * node's four parent lookups in order, a mux at shift 24 with mask 3 (so
   * its values 0 .. 3 select the four parents), a divider at shift 0 of
   * width 4 and a gate at bit 31, all over the mapped register and the
   * shared lock; it is registered only when the first six steps succeed:
   * the name, the mapping, the three stage-2 allocations and the
   * registration call itself (Stage2Registered gives the converse, so the
   * two together say "exactly when").
   */
  lemma Stage2Registration(node: Node, reg: Addr, fails: set<Step>, c: Composite)
    requires Acquire(Clock(Stage2, c)) in Trace(node, reg, fails)
    ensures c.name == OutputName(node) + "2"
    ensures |c.parents| == 4 && forall i :: 0 <= i < 4 ==> c.parents[i] == ParentName(node, i)
    ensures c.mux == Some(ClkMux(Some(reg), 24, 3, Some(TCON_CH1_LOCK)))
    ensures c.mux.value.mask + 1 == |c.parents|
    ensures c.rate == Some(ClkDivider(Some(reg), 0, 4, Some(TCON_CH1_LOCK)))
    ensures c.gate == Some(ClkGate(Some(reg), 31, Some(TCON_CH1_LOCK)))
    ensures c.flags == 0
    ensures Completed(fails) > 5
  {
    AcquiredMembers(Trace(node, reg, fails));
    TraceParts(node, reg, fails);
    GainedClocks(node, reg, Completed(fails));
  }

  /**
   * Whatever stage-1 clock the routine registers has the stage-1 name, no
   * mux, the stage-2 name as its only parent, a divider at shift 11 of
   * width 1 and a gate at bit 15, over the mapped register and the shared
   * lock; it is registered only when the first nine steps succeed, up to
   * and including the registration call itself (Stage1Registered gives
   * the converse).
   */
  lemma Stage1Registration(node: Node, reg: Addr, fails: set<Step>, c: Composite)
    requires Acquire(Clock(Stage1, c)) in Trace(node, reg, fails)
    ensures c.name == OutputName(node)
    ensures c.parents == [Some(OutputName(node) + "2")]
    ensures c.mux == None
    ensures c.rate == Some(ClkDivider(Some(reg), 11, 1, Some(TCON_CH1_LOCK)))
    ensures c.gate == Some(ClkGate(Some(reg), 15, Some(TCON_CH1_LOCK)))
    ensures c.flags == 0
    ensures Completed(fails) > 8
  {
    AcquiredMembers(Trace(node, reg, fails));
    TraceParts(node, reg, fails);
    GainedClocks(node, reg, Completed(fails));
  }

  /**
   * When the first six steps succeed, up to and including the stage-2
   * registration call, stage 2 is registered with its reference record.
   */
  lemma Stage2Registered(node: Node, reg: Addr, fails: set<Step>)
    requires Completed(fails) > 5
    ensures Acquire(Clock(Stage2, Sclk2Clock(node, reg))) in Trace(node, reg, fails)
  {
    TraceParts(node, reg, fails);
    GainedMembers(node, reg, Completed(fails));
    AcquiredMembers(Trace(node, reg, fails));
    assert Gain(node, reg, 5) == Clock(Stage2, Sclk2Clock(node, reg));
  }

  /**
   * When the first nine steps succeed, up to and including the stage-1
   * registration call, stage 1 is registered with its reference record.
   */
  lemma Stage1Registered(node: Node, reg: Addr, fails: set<Step>)
    requires Completed(fails) > 8
    ensures Acquire(Clock(Stage1, Sclk1Clock(node, reg))) in Trace(node, reg, fails)
  {
    TraceParts(node, reg, fails);
    GainedMembers(node, reg, Completed(fails));
    AcquiredMembers(Trace(node, reg, fails));
    assert Gain(node, reg, 8) == Clock(Stage1, Sclk1Clock(node, reg));
  }

  /** The bits read by the five registered descriptors, in register order, high bits first. */
  function RegisteredFields(node: Node, reg: Addr): seq<set<nat>>
  {
    var s2, s1 := Sclk2Clock(node, reg), Sclk1Clock(node, reg);
    [s2.gate.value.Bits(), s2.mux.value.Bits(), s1.gate.value.Bits(), s1.rate.value.Bits(), s2.rate.value.Bits()]
  }

  /**
   * The five descriptors the routine registers are the register's layout:
   * each lies within the 32-bit word, no two share a bit, and all of them
   * use the mapped register and the one shared lock.
   */
  lemma RegisteredFieldsDisjoint(node: Node, reg: Addr)
    ensures RegisteredFields(node, reg) == Fields()
    ensures forall i, b :: 0 <= i < 5 && b in RegisteredFields(node, reg)[i] ==> b < 32
    ensures forall i, j :: 0 <= i < j < 5 ==> RegisteredFields(node, reg)[i] * RegisteredFields(node, reg)[j] == {}
    ensures var s2, s1 := Sclk2Clock(node, reg), Sclk1Clock(node, reg);
      s2.mux.value.reg == s2.rate.value.reg == s2.gate.value.reg == s1.rate.value.reg == s1.gate.value.reg == Some(reg) &&
      s2.mux.value.lock == s2.rate.value.lock == s2.gate.value.lock == s1.rate.value.lock == s1.gate.value.lock
        == Some(TCON_CH1_LOCK)
  {
    LayoutFitsAndIsDisjoint();
  }
}
