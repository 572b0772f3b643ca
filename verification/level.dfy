/** One level of the container: an append-only list of actions that are run in
    the order they were appended. */
module InitContainerLevel {
  import opened Actions

  class Level {
    /** The registered funcs, oldest first. */
    var fns: seq<Action>

    /** New: a level with no funcs. */
    constructor ()
      ensures fns == []
    {
      fns := [];
    }

    /** Register appends `fn`; it has no failure case. */
    method Register(fn: Action) returns (err: Option<Error>)
      modifies this
      ensures fns == old(fns) + [fn]
      ensures err == None
    {
      fns := fns + [fn];
      err := None;
    }

    /** Init calls every registered func once, oldest first, and reports no
        error. It changes nothing (no modifies clause). */
    method Init() returns (trace: seq<Action>, err: Option<Error>)
      ensures trace == fns
      ensures err == None
    {
      trace := [];
      var i := 0;
      while i < |fns|
        invariant i <= |fns|
        invariant trace == fns[..i]
      {
        // fns[i]() runs here
        trace := trace + [fns[i]];
        i := i + 1;
      }
      err := None;
    }
  }
}
