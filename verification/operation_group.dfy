/**
 * The two aggregates the scene-group engine polls: a group of regular scene
 * operations and the group of Addressables handles. Both report the mean of
 * their members' progress (0 when empty) and are done when every member is.
 */
module OperationGroups {
  import opened SceneEnv

  function SumProgress(ops: seq<Op>): real
  {
    if ops == [] then 0.0 else SumProgress(ops[..|ops| - 1]) + ops[|ops| - 1].progress
  }

  /** The operation group's progress: the mean of its members' progress, 0 when it is empty. */
  function Progress(ops: seq<Op>): real
  {
    if |ops| == 0 then 0.0 else SumProgress(ops) / (|ops| as real)
  }

  /** The operation group is done when all its members are. */
  predicate IsDone(ops: seq<Op>)
  {
    forall i :: 0 <= i < |ops| ==> ops[i].IsDone()
  }

  function OpsOf(hs: seq<SceneHandle>): (ops: seq<Op>)
    ensures |ops| == |hs|
    ensures forall i :: 0 <= i < |hs| ==> ops[i] == hs[i].op
  {
    seq(|hs|, i requires 0 <= i < |hs| => hs[i].op)
  }

  /** The handle group's progress: the mean of its handles' percent complete, 0 when it is empty. */
  function HandleProgress(hs: seq<SceneHandle>): real
  {
    if |hs| == 0 then 0.0 else Progress(OpsOf(hs))
  }

  /** The handle group is done when it is empty or all its handles are. */
  predicate HandlesDone(hs: seq<SceneHandle>)
  {
    |hs| == 0 || forall i :: 0 <= i < |hs| ==> hs[i].IsDone()
  }

  /** An empty group of either kind reports progress 0 and is done. */
  lemma EmptyGroups()
    ensures Progress([]) == 0.0 && IsDone([])
    ensures HandleProgress([]) == 0.0 && HandlesDone([])
  {
  }

  /** The handle group's extra emptiness test changes nothing: it behaves as an operation group. */
  lemma HandleGroupIsOperationGroup(hs: seq<SceneHandle>)
    ensures HandleProgress(hs) == Progress(OpsOf(hs))
    ensures HandlesDone(hs) <==> IsDone(OpsOf(hs))
  {
  }

  /** One poll: every operation shows its next value. */
  function AdvanceAll(ops: seq<Op>): (next: seq<Op>)
    ensures |next| == |ops|
    ensures forall i :: 0 <= i < |ops| ==> next[i] == ops[i].Advance()
  {
    seq(|ops|, i requires 0 <= i < |ops| => ops[i].Advance())
  }

  function AdvanceHandles(hs: seq<SceneHandle>): (next: seq<SceneHandle>)
    ensures |next| == |hs|
    ensures forall i :: 0 <= i < |hs| ==> next[i] == hs[i].Advance()
    ensures OpsOf(next) == AdvanceAll(OpsOf(hs))
  {
    seq(|hs|, i requires 0 <= i < |hs| => hs[i].Advance())
  }

  /** Every operation in the state it ends in. */
  function FinishAll(ops: seq<Op>): (last: seq<Op>)
    ensures |last| == |ops| && IsDone(last)
    ensures forall i :: 0 <= i < |ops| ==> last[i] == ops[i].Finished()
  {
    seq(|ops|, i requires 0 <= i < |ops| => ops[i].Finished())
  }

  function FinishHandles(hs: seq<SceneHandle>): (last: seq<SceneHandle>)
    ensures |last| == |hs| && HandlesDone(last)
    ensures forall i :: 0 <= i < |hs| ==> last[i] == hs[i].Finished()
  {
    seq(|hs|, i requires 0 <= i < |hs| => hs[i].Finished())
  }

  /** The polls still owed by the members: the total length of their scripts. */
  function Pending(ops: seq<Op>): nat
  {
    if ops == [] then 0 else Pending(ops[..|ops| - 1]) + |ops[|ops| - 1].script|
  }

  /** Nothing is owed exactly when the group is done. */
  lemma {:induction false} PendingZeroIffDone(ops: seq<Op>)
    ensures Pending(ops) == 0 <==> IsDone(ops)
  {
    if ops != [] {
      var init := ops[..|ops| - 1];
      PendingZeroIffDone(init);
      assert forall i :: 0 <= i < |init| ==> init[i] == ops[i];
    }
  }

  /** A poll never adds owed polls, and it removes at least one while the group is not done. */
  lemma {:induction false} AdvanceLowersPending(ops: seq<Op>)
    ensures Pending(AdvanceAll(ops)) <= Pending(ops)
    ensures !IsDone(ops) ==> Pending(AdvanceAll(ops)) < Pending(ops)
  {
    if ops != [] {
      var init := ops[..|ops| - 1];
      AdvanceLowersPending(init);
      var next := AdvanceAll(ops);
      assert next[..|next| - 1] == AdvanceAll(init);
      if !IsDone(ops) && ops[|ops| - 1].IsDone() {
        assert !IsDone(init) by {
          var i :| 0 <= i < |ops| && !ops[i].IsDone();
          assert i < |init| && init[i] == ops[i];
        }
      }
    }
  }

  /** Polling never changes where the operations end up. */
  lemma AdvanceKeepsFinishHandles(hs: seq<SceneHandle>)
    ensures FinishHandles(AdvanceHandles(hs)) == FinishHandles(hs)
  {
    forall i | 0 <= i < |hs|
      ensures FinishHandles(AdvanceHandles(hs))[i] == FinishHandles(hs)[i]
    {
      AdvanceKeepsFinished(hs[i].op);
    }
  }

  lemma AdvanceKeepsFinishAll(ops: seq<Op>)
    ensures FinishAll(AdvanceAll(ops)) == FinishAll(ops)
  {
    forall i | 0 <= i < |ops|
      ensures FinishAll(AdvanceAll(ops))[i] == FinishAll(ops)[i]
    {
      AdvanceKeepsFinished(ops[i]);
    }
  }

  /** A group that is done is already in its final state. */
  lemma DoneIsFinished(ops: seq<Op>)
    requires IsDone(ops)
    ensures FinishAll(ops) == ops
  {
  }

  lemma DoneHandlesAreFinished(hs: seq<SceneHandle>)
    requires HandlesDone(hs)
    ensures FinishHandles(hs) == hs
  {
  }

  /** The value one poll reports: the mean of the two groups' progress. */
  function Mean(ops: seq<Op>, hs: seq<SceneHandle>): real
  {
    (Progress(ops) + HandleProgress(hs)) / 2.0
  }

  /**
   * The values the load poll reports (SceneGroupManager.cs lines 69-73): while
   * either group is not done, the mean of the two groups' progress, then one
   * poll of the engine.
   */
  function Reports(ops: seq<Op>, hs: seq<SceneHandle>): seq<real>
    decreases Pending(ops) + Pending(OpsOf(hs))
  {
    if IsDone(ops) && HandlesDone(hs) then []
    else
      AdvanceLowersPending(ops);
      AdvanceLowersPending(OpsOf(hs));
      [Mean(ops, hs)] + Reports(AdvanceAll(ops), AdvanceHandles(hs))
  }

  /** The load poll goes on while either group is not done. */
  predicate Polling(ops: seq<Op>, hs: seq<SceneHandle>)
  {
    !IsDone(ops) || !HandlesDone(hs)
  }

  /** Once neither group is pending, both are their own finished state and nothing more is reported. */
  lemma PollEnds(ops: seq<Op>, hs: seq<SceneHandle>)
    requires !Polling(ops, hs)
    ensures FinishAll(ops) == ops && FinishHandles(hs) == hs
    ensures Reports(ops, hs) == []
  {
    DoneIsFinished(ops);
    DoneHandlesAreFinished(hs);
  }

  /** One poll while either group is pending: the mean is reported, both groups step, and less work remains. */
  lemma PollStep(ops: seq<Op>, hs: seq<SceneHandle>)
    requires Polling(ops, hs)
    ensures Reports(ops, hs) == [Mean(ops, hs)] + Reports(AdvanceAll(ops), AdvanceHandles(hs))
    ensures Pending(AdvanceAll(ops)) + Pending(OpsOf(AdvanceHandles(hs))) < Pending(ops) + Pending(OpsOf(hs))
    ensures FinishAll(AdvanceAll(ops)) == FinishAll(ops)
    ensures FinishHandles(AdvanceHandles(hs)) == FinishHandles(hs)
  {
    AdvanceLowersPending(ops);
    AdvanceLowersPending(OpsOf(hs));
    AdvanceKeepsFinishAll(ops);
    AdvanceKeepsFinishHandles(hs);
  }

  /** What the load poll keeps between polls: the finished groups and the reports still to come are those of the start. */
  predicate PollKeeps(ops: seq<Op>, hs: seq<SceneHandle>, doneOps: seq<Op>, doneHandles: seq<SceneHandle>, reports: seq<real>)
  {
    && FinishAll(doneOps) == FinishAll(ops)
    && FinishHandles(doneHandles) == FinishHandles(hs)
    && reports + Reports(doneOps, doneHandles) == Reports(ops, hs)
  }

  lemma PollPreserves(ops: seq<Op>, hs: seq<SceneHandle>, doneOps: seq<Op>, doneHandles: seq<SceneHandle>, reports: seq<real>)
    requires Polling(doneOps, doneHandles)
    requires PollKeeps(ops, hs, doneOps, doneHandles, reports)
    ensures PollKeeps(ops, hs, AdvanceAll(doneOps), AdvanceHandles(doneHandles),
                      reports + [Mean(doneOps, doneHandles)])
  {
    PollStep(doneOps, doneHandles);
    ReportRegroups(reports, Mean(doneOps, doneHandles),
                   Reports(AdvanceAll(doneOps), AdvanceHandles(doneHandles)), Reports(ops, hs));
  }

  /** Moving one report from the pending part to the reported part keeps the whole. */
  lemma ReportRegroups(reports: seq<real>, mean: real, later: seq<real>, whole: seq<real>)
    requires reports + ([mean] + later) == whole
    ensures (reports + [mean]) + later == whole
  {
    assert (reports + [mean]) + later == reports + ([mean] + later);
  }

  /** The progress an operation shows, now and at every later poll, lies in [0, 1]. */
  predicate InUnitRange(op: Op)
  {
    0.0 <= op.progress <= 1.0 && forall i :: 0 <= i < |op.script| ==> 0.0 <= op.script[i] <= 1.0
  }

  predicate AllInUnitRange(ops: seq<Op>)
  {
    forall i :: 0 <= i < |ops| ==> InUnitRange(ops[i])
  }

  lemma {:induction false} SumWithinBounds(ops: seq<Op>, lo: real, hi: real)
    requires forall i :: 0 <= i < |ops| ==> lo <= ops[i].progress <= hi
    ensures lo * (|ops| as real) <= SumProgress(ops) <= hi * (|ops| as real)
  {
    if ops != [] {
      var n := |ops|;
      SumWithinBounds(ops[..n - 1], lo, hi);
      assert lo * (n as real) == lo * ((n - 1) as real) + lo;
      assert hi * (n as real) == hi * ((n - 1) as real) + hi;
    }
  }

  /** The mean of a non-empty group lies between any bounds of its members' progress. */
  lemma ProgressWithinBounds(ops: seq<Op>, lo: real, hi: real)
    requires |ops| > 0
    requires forall i :: 0 <= i < |ops| ==> lo <= ops[i].progress <= hi
    ensures lo <= Progress(ops) <= hi
  {
    SumWithinBounds(ops, lo, hi);
    var n := |ops| as real;
    var s := SumProgress(ops);
    assert Progress(ops) == s / n;
    assert (s / n) * n == s;
  }

  /** A group whose members all report a value in [0, 1] reports a value in [0, 1]. */
  lemma ProgressInUnitRange(ops: seq<Op>)
    requires AllInUnitRange(ops)
    ensures 0.0 <= Progress(ops) <= 1.0
  {
    if |ops| > 0 {
      ProgressWithinBounds(ops, 0.0, 1.0);
    }
  }

  lemma AdvanceStaysInUnitRange(ops: seq<Op>)
    requires AllInUnitRange(ops)
    ensures AllInUnitRange(AdvanceAll(ops))
  {
    forall i | 0 <= i < |ops|
      ensures InUnitRange(AdvanceAll(ops)[i])
    {
      var op := ops[i];
      if op.script != [] {
        assert forall k :: 0 <= k < |op.script[1..]| ==> op.script[1..][k] == op.script[k + 1];
      }
    }
  }

  /** Every value the load poll reports lies in [0, 1] when every operation's values do. */
  lemma {:induction false} ReportsInUnitRange(ops: seq<Op>, hs: seq<SceneHandle>)
    requires AllInUnitRange(ops) && AllInUnitRange(OpsOf(hs))
    ensures forall k :: 0 <= k < |Reports(ops, hs)| ==> 0.0 <= Reports(ops, hs)[k] <= 1.0
    decreases Pending(ops) + Pending(OpsOf(hs))
  {
    if !(IsDone(ops) && HandlesDone(hs)) {
      AdvanceLowersPending(ops);
      AdvanceLowersPending(OpsOf(hs));
      ProgressInUnitRange(ops);
      ProgressInUnitRange(OpsOf(hs));
      AdvanceStaysInUnitRange(ops);
      AdvanceStaysInUnitRange(OpsOf(hs));
      ReportsInUnitRange(AdvanceAll(ops), AdvanceHandles(hs));
    }
  }

  /** The values an operation shows never go down: each later value is at least every earlier one. */
  predicate Rising(op: Op)
  {
    && (forall i :: 0 <= i < |op.script| ==> op.progress <= op.script[i])
    && (forall i, j :: 0 <= i <= j < |op.script| ==> op.script[i] <= op.script[j])
  }

  predicate AllRising(ops: seq<Op>)
  {
    forall i :: 0 <= i < |ops| ==> Rising(ops[i])
  }

  /** A poll keeps every operation rising and lowers none of the values shown. */
  lemma AdvanceRises(ops: seq<Op>)
    requires AllRising(ops)
    ensures AllRising(AdvanceAll(ops))
    ensures forall i :: 0 <= i < |ops| ==> ops[i].progress <= AdvanceAll(ops)[i].progress
  {
    forall i | 0 <= i < |ops|
      ensures Rising(AdvanceAll(ops)[i])
    {
      var op := ops[i];
      if op.script != [] {
        assert forall k :: 0 <= k < |op.script[1..]| ==> op.script[1..][k] == op.script[k + 1];
      }
    }
  }

  lemma {:induction false} SumMonotone(before: seq<Op>, after: seq<Op>)
    requires |before| == |after|
    requires forall i :: 0 <= i < |before| ==> before[i].progress <= after[i].progress
    ensures SumProgress(before) <= SumProgress(after)
  {
    if before != [] {
      SumMonotone(before[..|before| - 1], after[..|after| - 1]);
    }
  }

  /** A group whose members each show at least as much as before shows at least as much as before. */
  lemma ProgressMonotone(before: seq<Op>, after: seq<Op>)
    requires |before| == |after|
    requires forall i :: 0 <= i < |before| ==> before[i].progress <= after[i].progress
    ensures Progress(before) <= Progress(after)
  {
    if |before| > 0 {
      SumMonotone(before, after);
      var n := |before| as real;
      assert SumProgress(before) / n <= SumProgress(after) / n;
    }
  }

  /** One poll of rising operations does not lower the mean. */
  lemma MeanRises(ops: seq<Op>, hs: seq<SceneHandle>)
    requires AllRising(ops) && AllRising(OpsOf(hs))
    ensures Mean(ops, hs) <= Mean(AdvanceAll(ops), AdvanceHandles(hs))
  {
    AdvanceRises(ops);
    AdvanceRises(OpsOf(hs));
    ProgressMonotone(ops, AdvanceAll(ops));
    ProgressMonotone(OpsOf(hs), AdvanceAll(OpsOf(hs)));
  }

  /** No value of the sequence is below the bound. */
  predicate AtLeast(bound: real, values: seq<real>)
  {
    forall k :: 0 <= k < |values| ==> bound <= values[k]
  }

  /** The values never go down. */
  predicate NonDecreasing(values: seq<real>)
  {
    forall i, j :: 0 <= i <= j < |values| ==> values[i] <= values[j]
  }

  /** A value below a non-decreasing sequence's bound, put in front of it, keeps it non-decreasing. */
  lemma PrependKeepsOrder(first: real, bound: real, later: seq<real>)
    requires first <= bound && AtLeast(bound, later) && NonDecreasing(later)
    ensures AtLeast(first, [first] + later) && NonDecreasing([first] + later)
  {
    assert forall k :: 0 < k < |[first] + later| ==> ([first] + later)[k] == later[k - 1];
  }

  /**
   * All loads are issued before the first poll, so the groups polled do not
   * change: when every operation's values rise, the reported values never go
   * down, and none is below the first poll's mean.
   */
  lemma {:induction false} ReportsRise(ops: seq<Op>, hs: seq<SceneHandle>)
    requires AllRising(ops) && AllRising(OpsOf(hs))
    ensures AtLeast(Mean(ops, hs), Reports(ops, hs))
    ensures NonDecreasing(Reports(ops, hs))
    decreases Pending(ops) + Pending(OpsOf(hs))
  {
    if !(IsDone(ops) && HandlesDone(hs)) {
      var next, nextHandles := AdvanceAll(ops), AdvanceHandles(hs);
      AdvanceLowersPending(ops);
      AdvanceLowersPending(OpsOf(hs));
      AdvanceRises(ops);
      AdvanceRises(OpsOf(hs));
      MeanRises(ops, hs);
      ReportsRise(next, nextHandles);
      PrependKeepsOrder(Mean(ops, hs), Mean(next, nextHandles), Reports(next, nextHandles));
    }
  }

  /**
   * One regular load and one Addressables load, each showing 0, then 0.5, then
   * 1 and done: the poll reports 0 and 0.5 and stops at the poll that finds
   * both done, without reporting 1.
   */
  lemma TwoPollScenario(h: SceneHandle)
    requires h.op == Op(0.0, [0.5, 1.0])
    ensures Reports([Op(0.0, [0.5, 1.0])], [h]) == [0.0, 0.5]
  {
    var ops := [Op(0.0, [0.5, 1.0])];
    var ops1 := AdvanceAll(ops);
    var hs1 := AdvanceHandles([h]);
    assert ops1 == [Op(0.5, [1.0])];
    assert hs1 == [h.(op := Op(0.5, [1.0]))];
    var ops2 := AdvanceAll(ops1);
    var hs2 := AdvanceHandles(hs1);
    assert ops2 == [Op(1.0, [])];
    assert hs2 == [h.(op := Op(1.0, []))];
    assert Reports(ops2, hs2) == [];
    assert ops1[..0] == [];
    assert SumProgress(ops1) == 0.5;
    assert Progress(ops1) == 0.5;
    assert OpsOf(hs1) == ops1;
    assert HandleProgress(hs1) == 0.5;
    assert Reports(ops1, hs1) == [0.5];
    assert ops[..0] == [];
    assert Progress(ops) == 0.0;
    assert OpsOf([h]) == ops;
  }
}
