# A10 TCON channel-1 clock setup, modelled in Dafny

The Allwinner A10 TCON channel-1 clock is a two-stage composite clock over
one 32-bit register. `sun4i_a10_tcon_ch1_setup` builds this clock at boot, in ten steps that can each fail:

1. format the stage-2 name (`<name>2`);
2. map the register;
3. allocate the stage-2 mux;
4. allocate the stage-2 gate;
5. allocate the stage-2 divider;
6. register stage 2;
7. allocate the stage-1 divider;
8. allocate the stage-1 gate;
9. register stage 1, whose one parent is stage 2;
10. publish stage 1 as the node's clock provider.

Between steps 2 and 3 the routine looks up the four stage-2 parents (lines 64-65); that lookup cannot fail. After each
allocation the routine fills the descriptor's fields. In the Dafny a step's position is its `Index()`, counted from 0:
step 1 above has index 0 and step 10 has index 9. `Completed(fails)` is the number of steps that succeed.

A failure jumps into a goto ladder that releases what was built, in reverse order.

The model has five parts:

- `Layout` holds the register's bitfield constants, the bit positions each descriptor reads, and proofs that the fields fit in
  the word, that no two overlap, and that the mux's range matches the parent count.
- `Clk` holds the values the routine handles:
  - the device-tree node, with its name, optional `clock-output-names` and parent lookups;
  - the mux, divider and gate descriptors;
  - the composite registration record;
  - the shared lock, by identity only.
- `Ledger` defines the resources the routine acquires and the event log that records acquisitions and releases.
  It also defines the reference rollback discipline, `Abort`: acquire in order, then release the tracked resources top first.
  Lemmas about it cover ordering, releasing each resource exactly once, and what stays live.
- `TconCh1` is the routine:
  - which steps fail is an input, the set `fails`;
  - `Trace` is the reference behaviour;
  - `Setup` is the routine itself, written as the same sequence of steps;
  - `RegisterStage2` and `RegisterStage1` return the goto label of a failure;
  - `ErrorLadder` is the fall-through release ladder entered at that label.

  `Setup` is proved to produce exactly `Trace`.
- `Outcomes` proves what the trace means:
  - what each early failure leaves behind;
  - that a later failure releases every descriptor and clock exactly once, in reverse order;
  - when each stage is unregistered;
  - that the stage-2 name and the register mapping always leak;
  - the fields each stage is registered with.

Two points of the code as written are kept in the model:

- The formatted stage-2 name and the register mapping are never released on any path. This includes the early returns
  at lines 61 and 69, after the name was formatted and after the register was mapped.
- The label `free_sclk1_mux` frees the stage-1 divider. The ladder is modelled as written.

## Model

| member | source | states |
|---|---|---|
| Layout.LowMaskLength | drivers/clk/sunxi/clk-sun4i-tcon-ch1.c:28 | a mask of w low one bits has bit length w, so a mux with that mask selects exactly the values 0 .. mask |
| Layout.SpansDisjoint | drivers/clk/sunxi/clk-sun4i-tcon-ch1.c:27-35 | two bit ranges are disjoint if and only if one ends before the other starts |
| Layout.MuxRangeMatchesParents | drivers/clk/sunxi/clk-sun4i-tcon-ch1.c:25-29 | the stage-2 mux (shift 24, mask 3) reads exactly bits 24-25; its mask is a full low mask, and mask + 1 equals the 4 stage-2 parents |
| Layout.LayoutFitsAndIsDisjoint | drivers/clk/sunxi/clk-sun4i-tcon-ch1.c:27-35 | the five fields (bit 31, bits 24-25, bit 15, bit 11, bits 0-3) all lie below bit 32 and no two share a bit |
| Clk.Stage2NameInverse | drivers/clk/sunxi/clk-sun4i-tcon-ch1.c:51-54 | the "%s2" name differs from the stage-1 name, has it as a prefix followed by '2', and determines it uniquely |
| TconCh1.FirstFailure | drivers/clk/sunxi/clk-sun4i-tcon-ch1.c:54-133 | the routine stops at the earliest failing step: none exactly when no step fails, otherwise a failing step no later than any other failing one |
| TconCh1.Sclk2Parents | drivers/clk/sunxi/clk-sun4i-tcon-ch1.c:64-65 | the parent array has 4 entries, entry i being the node's parent lookup at index i |
| TconCh1.Setup | drivers/clk/sunxi/clk-sun4i-tcon-ch1.c:39-151 | the acquisitions and releases of the routine, for every set of failing steps, are exactly the reference trace: each completed step's gain in order, then on a failure the rollback stack of those gains released top first |
| TconCh1.RegisterStage2 | drivers/clk/sunxi/clk-sun4i-tcon-ch1.c:76-102 | a failed gate, divider or registration step jumps to free_sclk2_mux, free_sclk2_gate or free_sclk2_div with exactly the earlier steps logged; otherwise stage 2 is registered with exactly its reference registration |
| TconCh1.RegisterStage1 | drivers/clk/sunxi/clk-sun4i-tcon-ch1.c:104-135 | a failed divider, gate, registration or provider step jumps to free_sclk2, free_sclk1_mux, free_sclk1_gate or free_sclk1; otherwise no step failed and all ten gains are logged |
| TconCh1.ErrorLadder | drivers/clk/sunxi/clk-sun4i-tcon-ch1.c:137-150 | entered at a label, the fall-through releases the top Rungs() entries of the stack mux, gate, divider, stage 2, stage-1 divider, stage-1 gate, stage 1, top first, each with its own release call |
| TconCh1.LadderUnwinds | drivers/clk/sunxi/clk-sun4i-tcon-ch1.c:137-150 | the rungs from the entry label down run the same releases as unwinding the top entries of the stack |
| TconCh1.FailedAt | drivers/clk/sunxi/clk-sun4i-tcon-ch1.c:76-150 | jumping to a label after the steps before the failing one, then running the ladder, yields the reference trace |
| Ledger.AbortLog | drivers/clk/sunxi/clk-sun4i-tcon-ch1.c:137-150 | an abort acquires everything in order and releases the rollback stack in reverse |
| Ledger.AbortReleasesOnce | drivers/clk/sunxi/clk-sun4i-tcon-ch1.c:137-150 | after distinct acquisitions, an abort releases each descriptor and clock exactly once and releases nothing else |
| Ledger.AbortOrder | drivers/clk/sunxi/clk-sun4i-tcon-ch1.c:137-150 | an abort makes every acquisition before any release, and each release uses the call for its kind (kfree, clk_unregister, clk_unregister_composite) |
| Ledger.AbortLeaves | drivers/clk/sunxi/clk-sun4i-tcon-ch1.c:137-150 | after an abort exactly the untracked acquisitions stay live |
| Ledger.UnwindLog | drivers/clk/sunxi/clk-sun4i-tcon-ch1.c:137-150 | unwinding releases the stack's entries in reverse, each once, and acquires nothing |
| Outcomes.EarlyFailureReleasesNothing | drivers/clk/sunxi/clk-sun4i-tcon-ch1.c:54-69 | when naming, mapping or the mux allocation fails, nothing is released and no descriptor or clock was acquired |
| Outcomes.FailureUnwindsInReverse | drivers/clk/sunxi/clk-sun4i-tcon-ch1.c:76-150 | on any failure each descriptor and clock acquired so far is released exactly once, in reverse order of acquisition, after all acquisitions, with its own call; nothing a later step would gain is acquired or released |
| Outcomes.LadderReleases | drivers/clk/sunxi/clk-sun4i-tcon-ch1.c:137-150 | a failure at the step of index k >= 2 (0-based: the stage-2 mux allocation or later) releases exactly the first k - 2 ladder entries, top first; the entry freed at free_sclk1_mux is the stage-1 divider |
| Outcomes.UnregisterConditions | drivers/clk/sunxi/clk-sun4i-tcon-ch1.c:121-144 | stage 2 is unregistered if and only if a step after its registration fails; stage 1 if and only if adding the provider fails |
| Outcomes.SuccessPublishesStage1 | drivers/clk/sunxi/clk-sun4i-tcon-ch1.c:121-135 | with no failure nothing is released, all ten gains stay live, and the last two events register stage 1 and then publish it as the provider |
| Outcomes.NameAndMappingNeverReleased | drivers/clk/sunxi/clk-sun4i-tcon-ch1.c:137-151 | on no path is the stage-2 name freed or the register mapping released |
| Outcomes.NameAndMappingStayLive | drivers/clk/sunxi/clk-sun4i-tcon-ch1.c:54-62 | once formatted the stage-2 name, and once mapped the register, stay live on every path |
| Outcomes.FailureLeavesOnlyLeaks | drivers/clk/sunxi/clk-sun4i-tcon-ch1.c:54-150 | a failure leaves live exactly the completed steps' gains that are never released |
| Outcomes.LateFailureLeaks | drivers/clk/sunxi/clk-sun4i-tcon-ch1.c:67-151 | a failure from the mux allocation on leaves live exactly the stage-2 name and the register mapping |
| Outcomes.Stage2Registration | drivers/clk/sunxi/clk-sun4i-tcon-ch1.c:64-102 | any stage-2 registration has the name "<name1>2", the 4 parent lookups in order, a mux at shift 24 with mask 3 (mask + 1 equals the parent count), a divider at shift 0 of width 4, a gate at bit 31, all on the mapped register and shared lock, flags 0; it is registered only when the first six steps succeed, that is, when no step up to and including its registration call fails |
| Outcomes.Stage1Registration | drivers/clk/sunxi/clk-sun4i-tcon-ch1.c:104-129 | any stage-1 registration has the stage-1 name, stage 2's name as its only parent, no mux, a divider at shift 11 of width 1, a gate at bit 15, on the mapped register and shared lock; it is registered only when the first nine steps succeed, that is, when no step up to and including its registration call fails |
| Outcomes.Stage2Registered | drivers/clk/sunxi/clk-sun4i-tcon-ch1.c:76-102 | when the first six steps succeed (no step up to and including the stage-2 registration call fails), stage 2 is registered with its reference record; with Stage2Registration, stage 2 is registered exactly when those six steps succeed |
| Outcomes.Stage1Registered | drivers/clk/sunxi/clk-sun4i-tcon-ch1.c:104-129 | when the first nine steps succeed (no step up to and including the stage-1 registration call fails), stage 1 is registered with its reference record; with Stage1Registration, stage 1 is registered exactly when those nine steps succeed |
| Outcomes.RegisteredFieldsDisjoint | drivers/clk/sunxi/clk-sun4i-tcon-ch1.c:71-119 | the five registered descriptors read exactly the register's five fields, which lie in 32 bits and do not overlap; all five use the mapped register and the one shared lock |

## Left out

- Clock framework behaviour is not modelled. This covers `clk_mux_ops`, `clk_divider_ops`, `clk_gate_ops`, and the internals of
  `clk_register_composite`, `clk_unregister`, `clk_unregister_composite` and `of_clk_add_provider`. That code is not in
  this file. Each of these calls is an event in the log, and whether it fails is decided by the failure set.
- Each release is an event carrying the call the code makes. Stage 2 is released with `clk_unregister` (line 144) and
  stage 1 with `clk_unregister_composite` (line 138). `CallFor` keeps this asymmetry as written, but the model does not
  capture what either call does, so it cannot say whether `clk_unregister` fully releases a composite.
- The spinlock (line 37) is kept only as an identity that every descriptor shares, because its purpose is concurrency.
- Device-tree and MMIO access are modelled as inputs:
  - `of_property_read_string` and `of_clk_get_parent_name` read the name, the optional output name and the parent
    lookups from the `Node` value;
  - `of_node_full_name` (line 58) only names the mapping request, so it is left out;
  - `of_io_request_and_map` is the `reg` address parameter, and its failure is the `MapRegister` step;
  - a NULL parent name is `None`.
- `pr_err`, `WARN_ON` and `CLK_OF_DECLARE` (lines 60, 100, 127, 132, 153-154) are left out. They are logging and
  registration macros with no effect on the resources.
- `SUN4I_TCON_CH1_SCLK_NAME_LEN` (line 23) is not used by the routine.
- Descriptors are values, not heap objects. Each is a zero value, as `kzalloc` returns it, and its fields are then set one
  by one. The composite record holds the descriptor values rather than pointers to their `hw` members. Pointer identity
  and aliasing are not modelled; the routine never writes a descriptor after handing it on, so it never observes either.
- The events are kept in a log that `Setup` returns, not in a mutable object. The gain and release calls append to it in
  program order.
- The `goto` statements are modelled structurally. The stage helpers return the label they would jump to, and `Setup` then runs
  `ErrorLadder` entered at that label.
- `kasprintf` is modelled as appending `"2"`. Only the buffer size is left out. The allocation is the `NameBuf` acquisition, and its failure is the `BuildName` step.
- Rate arithmetic and the `OutOfRange` and `NoGate` behaviour are left out, because this file contains none of them.
