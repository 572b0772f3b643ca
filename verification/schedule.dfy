/** The container's behaviour on values: what a run over all levels produces,
    and where each registration ends up in it. */
module Schedule {
  import opened Actions

  /** The actions of levels 0, 1, 2, ... concatenated in level order. */
  function Flatten(bs: seq<seq<Action>>): seq<Action>
  {
    if |bs| == 0 then [] else Flatten(bs[..|bs| - 1]) + bs[|bs| - 1]
  }

  /** Where level `i`'s actions start in `Flatten(bs)`. */
  function Offset(bs: seq<seq<Action>>, i: nat): nat
    requires i <= |bs|
  {
    |Flatten(bs[..i])|
  }

  lemma FlattenSnoc(bs: seq<seq<Action>>, i: nat)
    requires i < |bs|
    ensures Flatten(bs[..i + 1]) == Flatten(bs[..i]) + bs[i]
  {
    assert bs[..i + 1][..i] == bs[..i];
  }

  /** Running the first `i` levels yields a prefix of running the first `j`. */
  lemma {:induction false} FlattenPrefix(bs: seq<seq<Action>>, i: nat, j: nat)
    requires i <= j <= |bs|
    ensures Flatten(bs[..i]) <= Flatten(bs[..j])
    decreases j - i
  {
    if i < j {
      FlattenPrefix(bs, i, j - 1);
      FlattenSnoc(bs, j - 1);
    }
  }

  /** Action `p` of level `i` runs at position `Offset(bs, i) + p`. */
  lemma FlattenAt(bs: seq<seq<Action>>, i: nat, p: nat)
    requires i < |bs| && p < |bs[i]|
    ensures Offset(bs, i) + p < |Flatten(bs)|
    ensures Flatten(bs)[Offset(bs, i) + p] == bs[i][p]
  {
    FlattenSnoc(bs, i);
    FlattenPrefix(bs, i + 1, |bs|);
    assert bs[..|bs|] == bs;
  }

  /** Every action of a lower level runs before the first action of a higher one. */
  lemma OffsetMonotone(bs: seq<seq<Action>>, i: nat, j: nat)
    requires i < j <= |bs|
    ensures Offset(bs, i) + |bs[i]| <= Offset(bs, j)
  {
    FlattenSnoc(bs, i);
    FlattenPrefix(bs, i + 1, j);
  }

  /** Levels that hold nothing run nothing. */
  lemma {:induction false} FlattenAllEmpty(bs: seq<seq<Action>>)
    requires forall i :: 0 <= i < |bs| ==> bs[i] == []
    ensures Flatten(bs) == []
  {
    if |bs| > 0 {
      FlattenAllEmpty(bs[..|bs| - 1]);
    }
  }

  /** Appending one action to one level adds exactly that action to the run. */
  lemma {:induction false} FlattenAppendAt(bs: seq<seq<Action>>, l: nat, fn: Action)
    requires l < |bs|
    ensures multiset(Flatten(bs[l := bs[l] + [fn]])) == multiset(Flatten(bs)) + multiset{fn}
  {
    var n := |bs|;
    var bs' := bs[l := bs[l] + [fn]];
    if l == n - 1 {
      assert bs'[..n - 1] == bs[..n - 1];
    } else {
      assert bs'[..n - 1] == bs[..n - 1][l := bs[l] + [fn]];
      FlattenAppendAt(bs[..n - 1], l, fn);
    }
  }

  // ---------------------------------------------------------------------------
  // Running the levels with early return on the first error.

  /** What running one level reports: the actions it ran and its error. */
  datatype Outcome = Outcome(trace: seq<Action>, err: Option<Error>)

  function Traces(rs: seq<Outcome>): (ts: seq<seq<Action>>)
  {
    seq(|rs|, i requires 0 <= i < |rs| => rs[i].trace)
  }

  /** Runs levels in index order and stops after the first one that reports an
      error, returning that error; a level after it never runs. */
  function RunLevels(rs: seq<Outcome>): Outcome
  {
    if |rs| == 0 then Outcome([], None)
    else
      var before := RunLevels(rs[..|rs| - 1]);
      var last := rs[|rs| - 1];
      if before.err.Some? then before else Outcome(before.trace + last.trace, last.err)
  }

  /** Once a prefix of the levels has failed, the remaining levels change nothing. */
  lemma {:induction false} RunLevelsStops(rs: seq<Outcome>, i: nat)
    requires i <= |rs|
    requires i == |rs| || RunLevels(rs[..i]).err.Some?
    ensures RunLevels(rs) == RunLevels(rs[..i])
    decreases |rs| - i
  {
    if i < |rs| {
      var init := rs[..|rs| - 1];
      assert init[..i] == rs[..i];
      RunLevelsStops(init, i);
    } else {
      assert rs[..i] == rs;
    }
  }

  /** When no level fails, the run is every level's trace in index order, and nil. */
  lemma {:induction false} RunLevelsAllOk(rs: seq<Outcome>)
    requires forall i :: 0 <= i < |rs| ==> rs[i].err == None
    ensures RunLevels(rs) == Outcome(Flatten(Traces(rs)), None)
  {
    if |rs| > 0 {
      var init := rs[..|rs| - 1];
      RunLevelsAllOk(init);
      assert Traces(rs)[..|rs| - 1] == Traces(init);
    }
  }

  /** When level `k` is the first to fail, the run is levels 0..k and k's error. */
  lemma RunLevelsFirstError(rs: seq<Outcome>, k: nat)
    requires k < |rs| && rs[k].err.Some?
    requires forall i :: 0 <= i < k ==> rs[i].err == None
    ensures RunLevels(rs) == Outcome(Flatten(Traces(rs[..k + 1])), rs[k].err)
  {
    var pre := rs[..k + 1];
    assert pre[..k] == rs[..k];
    RunLevelsAllOk(rs[..k]);
    assert Traces(pre)[..k] == Traces(rs[..k]);
    RunLevelsStops(rs, k + 1);
  }

  // ---------------------------------------------------------------------------
  // Where registrations end up.

  /** One call of RegisterFunc: `fn` at level `level`. */
  datatype Registration = Registration(fn: Action, level: nat)

  /** The funcs of `regs` registered at level `l`, in registration order. */
  function AtLevel(regs: seq<Registration>, l: nat): seq<Action>
  {
    if |regs| == 0 then []
    else
      var r := regs[|regs| - 1];
      AtLevel(regs[..|regs| - 1], l) + (if r.level == l then [r.fn] else [])
  }

  /** The levels of an `n`-level container after the registrations `regs`. */
  function Grouped(n: nat, regs: seq<Registration>): seq<seq<Action>>
  {
    seq(n, l requires 0 <= l < n => AtLevel(regs, l))
  }

  /** The funcs of `regs` in registration order. */
  function Fns(regs: seq<Registration>): seq<Action>
  {
    seq(|regs|, k requires 0 <= k < |regs| => regs[k].fn)
  }

  /** One more registration appends to its own level and to no other. */
  lemma GroupedStep(n: nat, regs: seq<Registration>, r: Registration)
    requires r.level < n
    ensures Grouped(n, regs + [r]) == Grouped(n, regs)[r.level := Grouped(n, regs)[r.level] + [r.fn]]
  {
    var after, before := Grouped(n, regs + [r]), Grouped(n, regs);
    assert (regs + [r])[..|regs|] == regs;
    forall l | 0 <= l < n
      ensures after[l] == before[r.level := before[r.level] + [r.fn]][l]
    {
      assert after[l] == AtLevel(regs + [r], l);
    }
  }

  /** A level's registrations after `i` calls are a prefix of those after `j`. */
  lemma {:induction false} AtLevelPrefix(regs: seq<Registration>, i: nat, j: nat, l: nat)
    requires i <= j <= |regs|
    ensures AtLevel(regs[..i], l) <= AtLevel(regs[..j], l)
    decreases j - i
  {
    if i < j {
      AtLevelPrefix(regs, i, j - 1, l);
      assert regs[..j][..j - 1] == regs[..j - 1];
    }
  }

  /** Registration `p`'s place within its level: how many registrations at the
      same level came before it. */
  function Slot(regs: seq<Registration>, p: nat): nat
    requires p < |regs|
  {
    |AtLevel(regs[..p], regs[p].level)|
  }

  /** Registration `p`'s place in the run of all levels. */
  function Position(n: nat, regs: seq<Registration>, p: nat): nat
    requires p < |regs| && regs[p].level < n
  {
    Offset(Grouped(n, regs), regs[p].level) + Slot(regs, p)
  }

  lemma SlotAt(regs: seq<Registration>, p: nat)
    requires p < |regs|
    ensures Slot(regs, p) < |AtLevel(regs, regs[p].level)|
    ensures AtLevel(regs, regs[p].level)[Slot(regs, p)] == regs[p].fn
  {
    assert regs[..p + 1][..p] == regs[..p];
    AtLevelPrefix(regs, p + 1, |regs|, regs[p].level);
    assert regs[..|regs|] == regs;
  }

  /** Registration `p`'s func runs at `Position(n, regs, p)`. */
  lemma TraceAt(n: nat, regs: seq<Registration>, p: nat)
    requires p < |regs| && regs[p].level < n
    ensures Position(n, regs, p) < |Flatten(Grouped(n, regs))|
    ensures Flatten(Grouped(n, regs))[Position(n, regs, p)] == regs[p].fn
  {
    SlotAt(regs, p);
    FlattenAt(Grouped(n, regs), regs[p].level, Slot(regs, p));
  }

  /** A lower level runs first; within one level, registration order is kept. */
  lemma TraceOrder(n: nat, regs: seq<Registration>, p: nat, q: nat)
    requires p < |regs| && regs[p].level < n
    requires q < |regs| && regs[q].level < n
    requires regs[p].level < regs[q].level || (regs[p].level == regs[q].level && p < q)
    ensures Position(n, regs, p) < Position(n, regs, q)
  {
    var bs := Grouped(n, regs);
    if regs[p].level < regs[q].level {
      SlotAt(regs, p);
      OffsetMonotone(bs, regs[p].level, regs[q].level);
    } else {
      assert regs[..p + 1][..p] == regs[..p];
      AtLevelPrefix(regs, p + 1, q, regs[p].level);
    }
  }

  /** Every registered func runs exactly as often as it was registered. */
  lemma {:induction false} TraceMultiset(n: nat, regs: seq<Registration>)
    requires forall k :: 0 <= k < |regs| ==> regs[k].level < n
    ensures multiset(Flatten(Grouped(n, regs))) == multiset(Fns(regs))
  {
    if |regs| == 0 {
      FlattenAllEmpty(Grouped(n, regs));
    } else {
      var pre, r := regs[..|regs| - 1], regs[|regs| - 1];
      assert regs == pre + [r];
      TraceMultiset(n, pre);
      GroupedStep(n, pre, r);
      FlattenAppendAt(Grouped(n, pre), r.level, r.fn);
      assert Fns(regs) == Fns(pre) + [r.fn];
    }
  }
}
