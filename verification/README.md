# go-initcontainer in Dafny

A model of a leveled initialization container. Callers create a container with a
fixed number of levels (`New(numLevels)`). They register zero-argument funcs at a
level (`RegisterFunc`), or register objects that have an `Init()` method
(`Register`). One `Init()` call then runs level 0, then level 1, and so on. Within
a level, funcs run in the order they were registered.

Files:

- `actions.dfy` (module `Actions`): the opaque `Action` (a Go `func()`), the
  `Initializer`, the Go `error` and nil (`Option<Error>`).
- `level.dfy` (module `InitContainerLevel`): class `Level`, the per-level bucket of
  `level/level.go`. It holds `fns: seq<Action>`. `Register` appends to it. `Init`
  loops over it and records each func it calls in a trace.
- `schedule.dfy` (module `Schedule`): the container's behaviour on values.
  - `Flatten` concatenates the levels' funcs in index order.
  - `RunLevels` runs levels in order and stops at the first error.
  - `Grouped` gives the levels produced by a sequence of registrations.
  - The lemmas state ordering, position and exactly-once properties.
- `container.dfy` (module `InitContainer`): class `Container` of `container.go`. It
  holds the fixed slice `levels: seq<Level>` and a ghost `Buckets` that mirrors each
  level's `fns`. It also holds three client methods: the tests' usage pattern,
  New-then-Init, and a concrete ordering example.

Running a func is modelled by appending that func to a trace. Its effects are not
modelled. The closure that `Register` builds around an initializer is the action
`InitCall(initer)`.

`container.levels[levelNumber]` in `RegisterFunc` is a plain slice index, so an
out-of-range level makes Go panic; no error value is returned. The model makes
`levelNumber < |levels|` a precondition of `RegisterFunc` and `Register`.

`Container.Init` returns the first error any level reports. The only `Level`
implementation never reports one. The early return is modelled as the loop guard
`err.None?`. The loop is proved to compute `RunLevels` over the levels' outcomes,
and the stop-at-first-error lemmas about `RunLevels` hold for any outcomes.

## Model

| member | source | states |
|---|---|---|
| `InitContainerLevel.Level.constructor` | level/level.go:15-24 | a new level holds no funcs |
| `InitContainerLevel.Level.Register` | level/level.go:27-31 | the new func list is the old list with `fn` appended; the result is always nil |
| `InitContainerLevel.Level.Init` | level/level.go:34-40 | calls every stored func exactly once, in append order (trace equals `fns`); returns nil; changes nothing |
| `InitContainer.Container.constructor` | container.go:76-89 | exactly `numLevels` levels, all empty, pairwise distinct and freshly allocated |
| `InitContainer.Container.RegisterFunc` | container.go:93-101 | appends `fn` to level `levelNumber` only; other levels and the level count are unchanged; needs `levelNumber < numLevels` (an index panic otherwise); passes on the level's error, which is nil |
| `InitContainer.Container.Register` | container.go:104-115 | the same state change and result as `RegisterFunc` with the closure that calls `initer.Init()` |
| `InitContainer.Container.Init` | container.go:118-126 | computes `RunLevels` over the levels' outcomes (index order, stop at first error); with this model's levels the trace is the levels' funcs concatenated by index and the result is nil |
| `InitContainer.RegisterAllAndInit` | container_test.go:64-106 | New, registrations, then Init: the trace is the grouped registrations flattened by level, it holds every registered func exactly as often as it was registered, and the result is nil |
| `InitContainer.NewThenInit` | container.go:118-125 | Init on a container straight from New runs nothing and returns nil |
| `InitContainer.LevelOrderExample` | container.go:50-54 | with `a`@0, `b`@2, `c`@2, `d`@1 registered in that order, Init runs a, d, b, c |
| `Schedule.FlattenPrefix` | container.go:119-123 | running the first `i` levels yields a prefix of running the first `j >= i` |
| `Schedule.FlattenAt` | container.go:119-123 | func `p` of level `i` runs at position `Offset(i) + p` of the whole run |
| `Schedule.OffsetMonotone` | container.go:50-54 | every func of a lower level runs before the first func of any higher level |
| `Schedule.FlattenAllEmpty` | container.go:76-82 | levels that hold nothing produce an empty run |
| `Schedule.FlattenAppendAt` | container.go:93-96 | appending one func to one level adds exactly that func to the run's multiset |
| `Schedule.RunLevelsStops` | container.go:119-123 | once a prefix of the levels has failed, the later levels do not run and the result does not change |
| `Schedule.RunLevelsAllOk` | container.go:118-126 | if no level fails, the run is every level's trace in index order, and nil |
| `Schedule.RunLevelsFirstError` | container.go:119-123 | if level `k` is the first to fail, the run is levels `0..k` and `k`'s error is returned; levels after `k` never run |
| `Schedule.GroupedStep` | container.go:93-96 | one more registration appends its func to its own level and changes no other level |
| `Schedule.AtLevelPrefix` | level/level.go:27-28 | a level's funcs after `i` registrations are a prefix of those after `j >= i` (append-only) |
| `Schedule.SlotAt` | level/level.go:27-37 | registration `p` sits in its level at the index equal to the number of earlier registrations at that level |
| `Schedule.TraceAt` | container.go:118-123 | registration `p`'s func runs at `Position(p)` of the whole run |
| `Schedule.TraceOrder` | container.go:50-54 | a func at a lower level runs before one at a higher level; at the same level, earlier registration runs first |
| `Schedule.TraceMultiset` | container_test.go:98-106 | every registered func appears in the run exactly as many times as it was registered |

## Left out

- Side effects of funcs: an action is an identifier recorded in a trace, not code.
- Go panics: a func that panics during `Init` is not modelled. An out-of-range level panics in Go; here it is the precondition `levelNumber < |levels|`.
- Failing funcs: a Go `func()` cannot return an error. So this model's levels never fail, and the first-error behaviour is proved only for `RunLevels` over arbitrary level outcomes.
- Other implementations of the Go `Level` and `Container` interfaces: only `internalLevel` and `internalContainer` are modelled.
- Repeated `Init`, or registration after `Init`: the code defines no policy. The model only shows that `Init` changes no level.
- The initial slice capacity of 8 in `level/level.go`: it has no observable behaviour.
- Width of Go's `uint`: levels and level counts are unbounded naturals.
- `test_test.go` (a test-only adapter from a func to an `Initializer`) and the tests' random sizes: the tests' usage is modelled as `RegisterAllAndInit` over any registration sequence.
- Concurrency: the container is unsynchronized and is modelled as sequential.
