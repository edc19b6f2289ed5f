# glow: scheduler valuation and agent-server decisions, in Dafny

This project models two pieces of decision logic from the glow distributed
compute system, separated from the networking around them.

- **Scheduler valuation** (`scheduler_score.dfy`, module `SchedulerScore`).
  `Score` ranks a candidate allocation for a task group. The cost starts at 1.
  For each input of the group's first task whose shard location the locator
  knows, the cost grows by 10000 when the group's required resource is
  non-empty and not provided by the allocation, and by the distance from the
  shard to the allocation. The score is `bid / cost`. `Score` and
  `ContainsStr` are loops, as in the source. `ContainsStr` is proved to
  return true exactly when some element equals the string. `Score` is proved
  to return `Valuation`, that is `bid / Cost`, where the function `Cost`
  specifies the cost. The lemmas about `Cost` state the penalty
  per located input, that unknown shards add nothing, that the score is
  exactly the bid when no input is located, and that a higher bid scores
  strictly higher, and that at a positive bid a farther allocation with the
  same penalty scores strictly lower. The locator is a finite map from shard key to location.
  The distance is a function over an opaque location type.
- **Agent server** (`agent_server.dfy`, module `Agent`).
  - `AgentServer.constructor` sets the ledger: total capacity from the options,
    allocated capacity zero. It then runs `AgentServer.Init`.
  - `AgentServer.Init` is the clean-restart purge. It walks the directory
    listing and removes, from a `ShardDirectory` object, every non-directory
    entry whose name ends in `-<port>.dat`.
  - `HandleRequest` classifies one request into an `Outcome`. An incomplete TLS
    handshake or a non-data frame ends the request. Otherwise the payload's
    4-byte ASCII prefix (`PUT `, `GET `, `CMD `) picks the handler, and the
    argument is the payload after byte 4. Any other payload does nothing.
  - The control-message codec and the command handler are function parameters
    (`Handlers`). The listing and the offset read after a `GET` are inputs.
- `wrappers.dfy` holds the `Option` type both modules use.

Two behaviours of the code worth noting:
- A payload with an unknown prefix does nothing at all in
  agent/agent_server.go:170-191. It is not logged, and no error path runs.
- A failed directory listing skips the purge silently (agent/agent_server.go:98).

## Model

| member | source | states |
|---|---|---|
| `SchedulerScore.ContainsStr` | driver/scheduler/scheduler_score.go:28-35 | returns true exactly when some element of the slice equals the string |
| `SchedulerScore.Score` | driver/scheduler/scheduler_score.go:9-26 | the loop (skipping unlocated inputs, penalty only for a non-empty missing resource) returns `bid / Cost`, the specified valuation |
| `SchedulerScore.ShardKey` | driver/scheduler/scheduler_score.go:15 | the locator key is the executable hash, then `-`, then the input name, at those exact positions |
| `SchedulerScore.ShardKeyInjective` | driver/scheduler/scheduler_score.go:15 | for one executable, different input names never share a locator key |
| `SchedulerScore.InputsCostNonNegative` | driver/scheduler/scheduler_score.go:14-24 | with non-negative distances, what the inputs add to the cost is non-negative |
| `SchedulerScore.CostAtLeastOne` | driver/scheduler/scheduler_score.go:13-25 | with non-negative distances the cost is at least 1, so `bid / cost` is defined |
| `SchedulerScore.CostDecomposition` | driver/scheduler/scheduler_score.go:13-24 | the inputs' cost is the penalty times the number of located inputs, plus the distances of the located inputs |
| `SchedulerScore.UnknownInputAddsNothing` | driver/scheduler/scheduler_score.go:15-19 | inserting an input with an unknown location anywhere leaves the cost unchanged |
| `SchedulerScore.OnlyLocatedInputsCount` | driver/scheduler/scheduler_score.go:15-19 | the cost of the inputs equals the cost of the located inputs alone |
| `SchedulerScore.NoLocatedInputScoresBid` | driver/scheduler/scheduler_score.go:13-25 | if no input of the first task is located, including no inputs at all, the cost is 1 and the score is exactly the bid |
| `SchedulerScore.NoPenaltyWhenSatisfied` | driver/scheduler/scheduler_score.go:20-22 | an empty required resource, or one the allocation provides, adds no penalty: cost is 1 plus the distances |
| `SchedulerScore.PenaltyPerLocatedInput` | driver/scheduler/scheduler_score.go:13-24 | a missing required resource costs 10000 per located input, 10000·k in total, plus the distances |
| `SchedulerScore.OnlyFirstTaskMatters` | driver/scheduler/scheduler_score.go:12-14 | two task groups with the same first task and required resource get the same score, whatever their other tasks |
| `SchedulerScore.ScoreIncreasesWithBid` | driver/scheduler/scheduler_score.go:25 | for a fixed group and allocation, a higher bid gives a strictly higher score |
| `SchedulerScore.QuotientDecreasing` | driver/scheduler/scheduler_score.go:25 | at a positive bid, a larger cost gives a strictly smaller score |
| `SchedulerScore.PenaltyDominance` | driver/scheduler/scheduler_score.go:20-25 | at a positive bid, an allocation lacking the required resource scores strictly below one at the same location that provides it, once one input is located |
| `SchedulerScore.DistanceMonotone` | driver/scheduler/scheduler_score.go:20-25 | at a positive bid, of two allocations with the same penalty, the one with the larger distance sum scores strictly lower |
| `SchedulerScore.FoundContains` | driver/scheduler/scheduler_score.go:15-19 | every input with a known location is among the inputs that reach the penalty and distance |
| `SchedulerScore.SameLocationSameDistances` | driver/scheduler/scheduler_score.go:23 | the distance part of the cost depends on the allocation only through its location |
| `Agent.AgentServer.constructor` | agent/agent_server.go:54-81 | total capacity is (MaxExecutor, CPULevel, MemoryMB), allocated is all zero, master and storage come from the options, and the start-up purge has run |
| `Agent.AgentServer.Init` | agent/agent_server.go:97-107 | with CleanRestart and a successful listing, exactly the listed stale names are removed; otherwise the directory is unchanged |
| `Agent.ShardDirectory.Remove` | agent/agent_server.go:104 | removing a file takes exactly that name out of the directory |
| `Agent.StaleNames` | agent/agent_server.go:100-105 | a name is purged exactly when some listed entry with that name is not a directory and ends in `-<port>.dat` |
| `Agent.StaleNamesExtend` | agent/agent_server.go:100-105 | processing one more listed entry adds its name to the purged set exactly when it is stale |
| `Agent.PurgeRemovesExactly` | agent/agent_server.go:97-106 | on a complete listing, the entries left are exactly the directories and the names not ending in `-<port>.dat`, with their kinds unchanged |
| `Agent.NoPurgeWithoutCleanRestart` | agent/agent_server.go:97-98 | with CleanRestart off, or a failed listing, nothing is removed |
| `Agent.PurgeExample` | agent/agent_server.go:97-106 | at port 9000, `x-9000.dat` and `y-9000.dat` are removed and `z-9001.dat` stays |
| `Agent.StaleSuffix9000` | agent/agent_server.go:99 | the suffix for port 9000 is `-9000.dat` |
| `Agent.DigitChar` | agent/agent_server.go:99 | a digit value renders as the matching ASCII digit |
| `Agent.Digits` | agent/agent_server.go:99 | the decimal rendering of the port is non-empty, all digits, and has no leading zero; a number below 10 is one digit, so 0 renders as `0` |
| `Agent.DigitsRoundTrip` | agent/agent_server.go:99 | reading the decimal digits back gives the number |
| `Agent.HasSuffixIff` | agent/agent_server.go:102 | a name has the suffix exactly when it is some string followed by the suffix |
| `Agent.Encode` | agent/agent_server.go:170-177 | a request payload is its 4-byte prefix followed by its argument |
| `Agent.PrefixesExclusive` | agent/agent_server.go:170-177 | no payload starts with two of `PUT `, `GET `, `CMD `, so at most one branch applies |
| `Agent.UnrecognisedIffNoPrefix` | agent/agent_server.go:170-191 | a payload falls through exactly when it has none of the three prefixes |
| `Agent.ClassifyEncode` | agent/agent_server.go:170-177 | classifying an encoded request gives the request and its argument back |
| `Agent.EncodeClassify` | agent/agent_server.go:170-177 | a recognised payload is exactly its prefix followed by the extracted argument |
| `Agent.Int64` | agent/agent_server.go:175-176 | the offset converted to int64 lies in the signed 64-bit range and agrees with the unsigned value modulo 2^64 |
| `Agent.HandleRequest` | agent/agent_server.go:146-193 | an incomplete TLS handshake ends the request first; only a data frame on a usable connection is dispatched; a read error is only logged |
| `Agent.DispatchByPrefix` | agent/agent_server.go:170-182 | `PUT ` writes shard payload[4..]; `GET ` reads shard payload[4..] at the int64 offset read next; `CMD ` decodes payload[4..] and runs the command, or is fatal when decoding fails |
| `Agent.UnrecognisedDoesNothing` | agent/agent_server.go:170-191 | a payload with none of the prefixes runs no handler and writes no reply |
| `Agent.ReadErrorOnlyLogged` | agent/agent_server.go:167-170 | whether the frame read reported an error does not change which handler runs |
| `Agent.ReplyOnlyWhenHandlerReplies` | agent/agent_server.go:183-190 | bytes are written back only when the command handler returned a reply and it encoded; a nil reply writes nothing |

## Left out

- Listener setup, TLS configuration, the HTTP client setup and the `Accept` loop with `os.Exit` (agent/agent_server.go:84-95, 113-138): network I/O.
- Agent.AgentServer.Init: assumes the listener bind succeeded. On a bind error the source's `log.Fatal` (agent/agent_server.go:91-93) ends the process before the purge, so nothing is removed; the model always reaches the purge.
- The goroutine per connection, the wait group drained in `Stop` and the ledger mutex: concurrency, not modelled.
- The heartbeat goroutine and `resource.AddToValues` (agent/agent_server.go:115-121): a background reporter over a client that is not part of this model.
- `filepath.Abs`, `util.CleanPath` and the panic on their error (agent/agent_server.go:55-60): path handling that is not part of this model. The storage directory is the option's `dir` as given.
- `util.ReadBytes` and `util.ReadUint64` are not part of this model. The frame (flag, payload, read error) and the 8-byte offset are inputs.
- Protobuf `Unmarshal` and `Marshal`, and the command handler, are abstract functions in `Handlers`. `log.Fatal` becomes the outcome tags `UnmarshalFatal` and `MarshalFatal`: the process exit itself is not modelled.
- `handleLocalWriteConnection`, `handleReadConnection`, `LocalDatasetShardsManager` and `LocalExecutorManager` are not part of this model. The outcomes `LocalWrite` and `LocalRead` only name the handler and its arguments.
- Logging and `println` output are not modelled; a read error only sets `readErrorLogged`.
- `os.Remove` errors are ignored by the source and by `ShardDirectory.Remove`. The directory listing's sort order does not affect the result.
- SchedulerScore.Score: computes with exact `real` arithmetic, so float64 rounding is not modelled.
- SchedulerScore.Score: requires non-negative distances (`NonNegativeDistance`). The distance function is not part of this model. With a negative distance the Go division could yield an infinite or NaN score, which is not modelled.
- SchedulerScore.Score: requires at least one task. The source indexes `Tasks[0]` without a check and panics on an empty group.
- The type assertions `obj.(resource.Allocation)` and `r.(*plan.TaskGroup)` are replaced by static types; their panics are not modelled.
- Nil option pointers in `AgentServerOption` are not modelled; each option is a plain value.
