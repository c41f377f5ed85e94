/**
 * An abstract ledger of what the setup routine acquires and releases: the
 * formatted name buffer, the register mapping, each descriptor it
 * allocates, each clock it registers and the provider entry. The ledger is
 * a log of events, oldest first; the rest of this module is the reference
 * rollback discipline (release the tracked resources in reverse order of
 * acquisition) and facts about it.
 */
module Ledger {
  import opened Clk

  /** The five descriptors, named after the routine's local variables. */
  datatype Slot = Sclk2Mux | Sclk2Gate | Sclk2Div | Sclk1Div | Sclk1Gate

  datatype Stage = Stage1 | Stage2

  datatype Resource =
    | NameBuf(text: string)
    | RegWindow(addr: Addr)
    | Descriptor(slot: Slot)
    | Clock(stage: Stage, clk: Composite)
    | ProviderEntry(clk: Composite)

  /**
   * The release calls of the ledger. The routine makes Kfree, ClkUnregister
   * and ClkUnregisterComposite; IoUnmap and DelProvider name calls it never
   * makes, and are here only so that CallFor is defined for every resource.
   */
  datatype ReleaseCall = Kfree | IoUnmap | ClkUnregister | ClkUnregisterComposite | DelProvider

  datatype Event = Acquire(res: Resource) | Release(res: Resource, call: ReleaseCall)

  /**
   * The resources the routine's error path releases: descriptors and
   * registered clocks. The name buffer and the register mapping are not
   * among them.
   */
  predicate Tracked(r: Resource)
  {
    r.Descriptor? || r.Clock?
  }

  /** The call that releases each kind of resource. */
  function CallFor(r: Resource): ReleaseCall
  {
    match r
    case NameBuf(_) => Kfree
    case RegWindow(_) => IoUnmap
    case Descriptor(_) => Kfree
    case Clock(Stage1, _) => ClkUnregisterComposite
    case Clock(Stage2, _) => ClkUnregister
    case ProviderEntry(_) => DelProvider
  }

  /** The log of acquiring rs, in order. */
  function Acquires(rs: seq<Resource>): (t: seq<Event>)
    ensures |t| == |rs|
  {
    if rs == [] then [] else Acquires(rs[..|rs| - 1]) + [Acquire(rs[|rs| - 1])]
  }

  /** The rollback stack: the tracked resources of acquired, oldest at the bottom. */
  function Rollback(acquired: seq<Resource>): seq<Resource>
  {
    if acquired == [] then []
    else
      var last := acquired[|acquired| - 1];
      Rollback(acquired[..|acquired| - 1]) + (if Tracked(last) then [last] else [])
  }

  /** Acquiring rs logs one acquisition per resource, in order. */
  lemma {:induction false} AcquiresAt(rs: seq<Resource>)
    ensures forall i :: 0 <= i < |rs| ==> Acquires(rs)[i] == Acquire(rs[i])
  {
    if rs != [] {
      AcquiresAt(rs[..|rs| - 1]);
    }
  }

  /** The rollback stack holds exactly the tracked resources acquired. */
  lemma {:induction false} RollbackMembers(acquired: seq<Resource>)
    ensures forall r :: r in Rollback(acquired) <==> r in acquired && Tracked(r)
  {
    if acquired != [] {
      var init := acquired[..|acquired| - 1];
      RollbackMembers(init);
      assert acquired == init + [acquired[|acquired| - 1]];
    }
  }

  /** Releases the stack from the top down. */
  function Unwind(stack: seq<Resource>): seq<Event>
  {
    if stack == [] then []
    else
      var top := stack[|stack| - 1];
      [Release(top, CallFor(top))] + Unwind(stack[..|stack| - 1])
  }

  function Reverse<T>(s: seq<T>): (r: seq<T>)
    ensures |r| == |s|
    ensures forall i :: 0 <= i < |s| ==> r[i] == s[|s| - 1 - i]
  {
    if s == [] then [] else [s[|s| - 1]] + Reverse(s[..|s| - 1])
  }

  predicate NoDuplicates<T(==)>(s: seq<T>)
  {
    forall i, j :: 0 <= i < j < |s| ==> s[i] != s[j]
  }

  /** The acquired resources of a log, in order. */
  function AcquiredSeq(t: seq<Event>): seq<Resource>
  {
    if t == [] then [] else (if t[0].Acquire? then [t[0].res] else []) + AcquiredSeq(t[1..])
  }

  /** The released resources of a log, in order. */
  function Released(t: seq<Event>): seq<Resource>
  {
    if t == [] then [] else (if t[0].Release? then [t[0].res] else []) + Released(t[1..])
  }

  /** What a log has acquired and not released. */
  function Live(t: seq<Event>): set<Resource>
  {
    (set r | r in AcquiredSeq(t)) - (set r | r in Released(t))
  }

  lemma {:induction false} AcquiredAppend(a: seq<Event>, b: seq<Event>)
    ensures AcquiredSeq(a + b) == AcquiredSeq(a) + AcquiredSeq(b)
  {
    if a == [] {
      assert a + b == b;
    } else {
      assert (a + b)[0] == a[0];
      assert (a + b)[1..] == a[1..] + b;
      AcquiredAppend(a[1..], b);
      var head := if a[0].Acquire? then [a[0].res] else [];
      AppendAssoc(head, AcquiredSeq(a[1..]), AcquiredSeq(b));
    }
  }

  lemma {:induction false} ReleasedAppend(a: seq<Event>, b: seq<Event>)
    ensures Released(a + b) == Released(a) + Released(b)
  {
    if a == [] {
      assert a + b == b;
    } else {
      assert (a + b)[0] == a[0];
      assert (a + b)[1..] == a[1..] + b;
      ReleasedAppend(a[1..], b);
      var head := if a[0].Release? then [a[0].res] else [];
      AppendAssoc(head, Released(a[1..]), Released(b));
    }
  }

  /** What a concatenation of logs acquires and releases is what each part does, in order. */
  lemma LogAppend(a: seq<Event>, b: seq<Event>)
    ensures AcquiredSeq(a + b) == AcquiredSeq(a) + AcquiredSeq(b)
    ensures Released(a + b) == Released(a) + Released(b)
  {
    AcquiredAppend(a, b);
    ReleasedAppend(a, b);
  }

  /** A log acquires a resource exactly when it holds an acquisition of it. */
  lemma {:induction false} AcquiredMembers(t: seq<Event>)
    ensures forall r :: Acquire(r) in t <==> r in AcquiredSeq(t)
  {
    if t != [] {
      AcquiredMembers(t[1..]);
      assert t == [t[0]] + t[1..];
    }
  }

  /** A log of acquisitions acquires exactly its resources, in order, and releases nothing. */
  lemma {:induction false} AcquiresLog(rs: seq<Resource>)
    ensures AcquiredSeq(Acquires(rs)) == rs
    ensures Released(Acquires(rs)) == []
  {
    if rs != [] {
      var init := rs[..|rs| - 1];
      AcquiresLog(init);
      LogAppend(Acquires(init), [Acquire(rs[|rs| - 1])]);
      assert init + [rs[|rs| - 1]] == rs;
    }
  }

  /**
   * Unwinding a stack releases every entry once, top first, each with its
   * own release call, and acquires nothing.
   */
  lemma {:induction false} UnwindLog(stack: seq<Resource>)
    ensures Released(Unwind(stack)) == Reverse(stack)
    ensures AcquiredSeq(Unwind(stack)) == []
    ensures |Unwind(stack)| == |stack|
    ensures forall i :: 0 <= i < |stack| ==>
      Unwind(stack)[i] == Release(stack[|stack| - 1 - i], CallFor(stack[|stack| - 1 - i]))
  {
    if stack != [] {
      var top := stack[|stack| - 1];
      var rest := stack[..|stack| - 1];
      UnwindLog(rest);
      LogAppend([Release(top, CallFor(top))], Unwind(rest));
      assert Released([Release(top, CallFor(top))]) == [top];
      assert AcquiredSeq([Release(top, CallFor(top))]) == [];
    }
  }

  lemma ReverseNoDuplicates<T>(s: seq<T>)
    requires NoDuplicates(s)
    ensures NoDuplicates(Reverse(s))
    ensures forall x :: x in Reverse(s) <==> x in s
  {
    var r := Reverse(s);
    forall x | x in s ensures x in r {
      var i :| 0 <= i < |s| && s[i] == x;
      assert r[|s| - 1 - i] == x;
    }
  }

  /** A rollback stack of distinct acquisitions holds each resource once. */
  lemma {:induction false} RollbackNoDuplicates(acquired: seq<Resource>)
    requires NoDuplicates(acquired)
    ensures NoDuplicates(Rollback(acquired))
  {
    if acquired != [] {
      var init, last := acquired[..|acquired| - 1], acquired[|acquired| - 1];
      RollbackNoDuplicates(init);
      RollbackMembers(init);
    }
  }

  /**
   * The reference rollback: acquire the resources in order, then release
   * the tracked ones in reverse order of acquisition.
   */
  function Abort(acquired: seq<Resource>): seq<Event>
  {
    Acquires(acquired) + Unwind(Rollback(acquired))
  }

  /** An abort acquires everything in order, then releases the rollback stack top first. */
  lemma AbortLog(acquired: seq<Resource>)
    ensures AcquiredSeq(Abort(acquired)) == acquired
    ensures Released(Abort(acquired)) == Reverse(Rollback(acquired))
  {
    AcquiresLog(acquired);
    UnwindLog(Rollback(acquired));
    LogAppend(Acquires(acquired), Unwind(Rollback(acquired)));
  }

  /**
   * After acquiring distinct resources, an abort releases each tracked one
   * exactly once and nothing else.
   */
  lemma AbortReleasesOnce(acquired: seq<Resource>)
    requires NoDuplicates(acquired)
    ensures NoDuplicates(Released(Abort(acquired)))
    ensures forall r :: r in Released(Abort(acquired)) <==> r in acquired && Tracked(r)
  {
    AbortLog(acquired);
    RollbackMembers(acquired);
    RollbackNoDuplicates(acquired);
    ReverseNoDuplicates(Rollback(acquired));
  }

  /**
   * An abort first acquires each resource in order and only then releases,
   * each release using the call for its kind of resource.
   */
  lemma AbortOrder(acquired: seq<Resource>)
    ensures forall i :: 0 <= i < |acquired| ==> Abort(acquired)[i] == Acquire(acquired[i])
    ensures forall i :: |acquired| <= i < |Abort(acquired)| ==>
      Abort(acquired)[i].Release? && Abort(acquired)[i].call == CallFor(Abort(acquired)[i].res)
  {
    var stack := Rollback(acquired);
    var t := Abort(acquired);
    AcquiresAt(acquired);
    UnwindLog(stack);
    forall i | |acquired| <= i < |t| ensures t[i].Release? && t[i].call == CallFor(t[i].res) {
      assert t[i] == Unwind(stack)[i - |acquired|];
    }
  }

  /** After an abort of distinct resources, what stays live is exactly what is untracked. */
  lemma AbortLeaves(acquired: seq<Resource>)
    requires NoDuplicates(acquired)
    ensures Live(Abort(acquired)) == set r | r in acquired && !Tracked(r)
  {
    AbortLog(acquired);
    AbortReleasesOnce(acquired);
  }

  /** Acquiring one more resource adds it to the rollback stack exactly when it is tracked. */
  lemma RollbackSnoc(acquired: seq<Resource>, r: Resource)
    ensures Rollback(acquired + [r]) == Rollback(acquired) + (if Tracked(r) then [r] else [])
  {
    assert (acquired + [r])[..|acquired|] == acquired;
  }

  lemma AppendAssoc<T>(a: seq<T>, b: seq<T>, c: seq<T>)
    ensures a + b + c == a + (b + c)
  {
  }

  /** A prefix one longer is the shorter prefix and one more entry. */
  lemma SliceSnoc<T>(s: seq<T>, j: nat)
    requires j < |s|
    ensures s[..j + 1] == s[..j] + [s[j]]
  {
  }

  /** Acquiring one more resource appends one acquisition. */
  lemma AcquiresSnoc(rs: seq<Resource>, r: Resource)
    ensures Acquires(rs + [r]) == Acquires(rs) + [Acquire(r)]
  {
    assert (rs + [r])[..|rs|] == rs;
  }

  /** Unwinding a non-empty prefix of a stack releases its top first. */
  lemma UnwindTop(stack: seq<Resource>, n: nat)
    requires 1 <= n <= |stack|
    ensures Unwind(stack[..n]) == [Release(stack[n - 1], CallFor(stack[n - 1]))] + Unwind(stack[..n - 1])
  {
    assert stack[..n][..n - 1] == stack[..n - 1];
  }

  /** A log of acquisitions alone releases nothing and keeps everything live. */
  lemma AcquiresOnly(acquired: seq<Resource>)
    ensures Released(Acquires(acquired)) == []
    ensures Live(Acquires(acquired)) == set r | r in acquired
  {
    AcquiresLog(acquired);
  }
}
