/** The initialization container: a fixed number of levels, each a Level bucket;
    registrations go to one level, and Init runs the levels in index order. */
module InitContainer {
  import opened Actions
  import opened Schedule
  import opened InitContainerLevel

  /** What each of this model's levels reports when run: its funcs, and nil. */
  function Succeeded(bs: seq<seq<Action>>): (rs: seq<Outcome>)
  {
    seq(|bs|, i requires 0 <= i < |bs| => Outcome(bs[i], None))
  }

  class Container {
    /** Levels 0 .. |levels| - 1; the slice itself is never replaced. */
    const levels: seq<Level>
    /** The funcs held by each level, in level order. */
    ghost var Buckets: seq<seq<Action>>

    ghost predicate Valid()
      reads this, levels
    {
      |Buckets| == |levels| &&
      (forall i, j :: 0 <= i < j < |levels| ==> levels[i] != levels[j]) &&
      (forall i :: 0 <= i < |levels| ==> levels[i].fns == Buckets[i])
    }

    /** New: `numLevels` fresh, empty levels. */
    constructor (numLevels: nat)
      ensures Valid()
      ensures |levels| == numLevels && |Buckets| == numLevels
      ensures forall i :: 0 <= i < numLevels ==> Buckets[i] == []
      ensures forall i :: 0 <= i < numLevels ==> fresh(levels[i])
    {
      var ls: seq<Level> := [];
      var i := 0;
      while i < numLevels
        invariant i <= numLevels && |ls| == i
        invariant forall k :: 0 <= k < i ==> fresh(ls[k]) && ls[k].fns == []
        invariant forall k, m :: 0 <= k < m < i ==> ls[k] != ls[m]
      {
        var level := new Level();
        ls := ls + [level];
        i := i + 1;
      }
      levels := ls;
      Buckets := seq(numLevels, k requires 0 <= k < numLevels => []);
    }

    /** RegisterFunc appends `fn` to level `levelNumber` and changes no other
        level. A level outside the slice is a Go index panic, hence the
        precondition. The level's own error is passed on, and it is always nil. */
    method RegisterFunc(fn: Action, levelNumber: nat) returns (err: Option<Error>)
      requires Valid()
      requires levelNumber < |levels|
      modifies this, levels[levelNumber]
      ensures Valid()
      ensures Buckets == old(Buckets)[levelNumber := old(Buckets)[levelNumber] + [fn]]
      ensures err == None
    {
      var level := levels[levelNumber];
      err := level.Register(fn);
      Buckets := Buckets[levelNumber := Buckets[levelNumber] + [fn]];
    }

    /** Register is RegisterFunc applied to the closure that calls `initer.Init()`. */
    method Register(initer: Initializer, levelNumber: nat) returns (err: Option<Error>)
      requires Valid()
      requires levelNumber < |levels|
      modifies this, levels[levelNumber]
      ensures Valid()
      ensures Buckets == old(Buckets)[levelNumber := old(Buckets)[levelNumber] + [InitCall(initer)]]
      ensures err == None
    {
      var fn := InitCall(initer);
      err := RegisterFunc(fn, levelNumber);
    }

    /** Init runs level 0, then level 1, and so on, returning the first level
        error; since no level fails, it runs every func in level order and
        returns nil. It changes nothing. */
    method Init() returns (trace: seq<Action>, err: Option<Error>)
      requires Valid()
      ensures Outcome(trace, err) == RunLevels(Succeeded(Buckets))
      ensures trace == Flatten(Buckets) && err == None
    {
      ghost var rs := Succeeded(Buckets);
      trace, err := [], None;
      var i := 0;
      while i < |levels| && err.None?
        invariant i <= |levels|
        invariant Outcome(trace, err) == RunLevels(rs[..i])
      {
        var t, e := levels[i].Init();
        assert rs[..i + 1][..i] == rs[..i];
        trace, err := trace + t, e;
        i := i + 1;
      }
      RunLevelsStops(rs, i);
      RunLevelsAllOk(rs);
      assert Traces(rs) == Buckets;
    }
  }

  /** The usage of the container's tests: New, a RegisterFunc per registration,
      then Init. Every registered func runs, as often as it was registered,
      level by level and in registration order within a level. */
  method RegisterAllAndInit(numLevels: nat, regs: seq<Registration>)
    returns (trace: seq<Action>, err: Option<Error>)
    requires forall k :: 0 <= k < |regs| ==> regs[k].level < numLevels
    ensures trace == Flatten(Grouped(numLevels, regs))
    ensures multiset(trace) == multiset(Fns(regs))
    ensures err == None
  {
    var c := new Container(numLevels);
    assert c.Buckets == Grouped(numLevels, regs[..0]);
    var k := 0;
    while k < |regs|
      invariant k <= |regs|
      invariant c.Valid() && |c.levels| == numLevels
      invariant forall i :: 0 <= i < numLevels ==> fresh(c.levels[i])
      invariant c.Buckets == Grouped(numLevels, regs[..k])
    {
      assert regs[..k + 1] == regs[..k] + [regs[k]];
      GroupedStep(numLevels, regs[..k], regs[k]);
      var registered := c.RegisterFunc(regs[k].fn, regs[k].level);
      k := k + 1;
    }
    assert regs[..k] == regs;
    trace, err := c.Init();
    TraceMultiset(numLevels, regs);
  }

  /** A container that only ever had New called on it runs nothing and
      returns nil. */
  method NewThenInit(numLevels: nat) returns (trace: seq<Action>, err: Option<Error>)
    ensures trace == [] && err == None
  {
    var c := new Container(numLevels);
    trace, err := c.Init();
    FlattenAllEmpty(c.Buckets);
  }

  /** Three levels; `a` at level 0, `b` and then `c` at level 2, `d` at level 1.
      Init runs them as a, d, b, c, whatever the order of registration. */
  method LevelOrderExample() returns (trace: seq<Action>)
    ensures trace == [Func(0), Func(3), Func(1), Func(2)]
  {
    var container := new Container(3);
    assert container.Buckets == [[], [], []];
    var e := container.RegisterFunc(Func(0), 0);
    assert container.Buckets[0] == [Func(0)];
    e := container.RegisterFunc(Func(1), 2);
    assert container.Buckets[2] == [Func(1)];
    e := container.RegisterFunc(Func(2), 2);
    assert container.Buckets[2] == [Func(1), Func(2)];
    e := container.RegisterFunc(Func(3), 1);
    assert container.Buckets[1] == [Func(3)];
    ghost var bs := container.Buckets;
    assert bs == [[Func(0)], [Func(3)], [Func(1), Func(2)]];
    assert bs[..2] == [[Func(0)], [Func(3)]] && bs[..2][..1] == [[Func(0)]];
    assert Flatten(bs[..2][..1]) == [Func(0)];
    assert Flatten(bs) == [Func(0), Func(3), Func(1), Func(2)];
    trace, e := container.Init();
  }
}
