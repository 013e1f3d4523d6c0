# ldap3 server pool, modelled in Dafny

This project models the server pool of the ldap3 LDAP client (`ldap3/core/pooling.py`).
A `ServerPool` keeps an ordered list of directory servers, a selection policy and one
`ServerPoolState` per connection. The policy is a strategy (FIRST, ROUND_ROBIN or RANDOM)
plus the `active` and `exhaust` flags. Each state holds its own copy of the list and a
cursor (`last_used_server`). On every `get_server` it moves that cursor according to the
strategy. When `active` is set, it probes servers for liveness with one of two scans:
a circular scan from a starting index, or random sampling without replacement.

The project has three files:

- `results.dfy` (module `Results`) holds the exceptions the pool raises and the
  `Result` and `Outcome` types that carry them.
- `pool_spec.dfy` (module `PoolSpec`) is the value-level part:
  - servers and strategies;
  - the construction-time policy check;
  - Python's `list[i]`, `list.index` and `list.remove`;
  - the effect of `add` on the list;
  - the round-robin cursor;
  - predicates that describe exactly which probe logs each liveness scan can produce,
    and lemmas about them.
- `pooling.dfy` (module `Pooling`) has the two classes, written imperatively:
  - `ServerPoolState` with fields `servers`, `lastUsed` and a ghost probe log;
  - `ServerPool` with `servers` and the `states` map.

  Their methods are proved against the definitions in `PoolSpec`. The copy loop of
  `refresh`, the two nested loops of `find_active_server`, the pop loop of
  `find_active_random_server`, `add`'s element loop and the refresh broadcast are all
  `while` loops, each with its invariants. Both `__len__` methods (lines 142-143 and
  202-203) are the functions `Length`. Their values appear in the contracts of
  `ServerPoolState.Refresh`, `ServerPoolState.Create` and `ServerPool.GetItem`.

The strategy names are the constants FIRST, ROUND_ROBIN and RANDOM, which
`pooling.py` imports at line 30 from `ldap3/__init__.py`. That file is not part of this
model. The model assumes their values are the strings "FIRST", "ROUND_ROBIN" and
"RANDOM". Only the fact that they are distinct matters.

Three parts of the source are modelled as parameters or choices:

- `random.randint(a, b)` is a nondeterministic choice in the inclusive range. When
  `a > b` it raises `ValueError`. This happens when a state is refreshed on an empty
  pool (line 64). Creating a state reaches line 64 through the refresh at line 41, so
  the draw at line 43 is never made on an empty pool.
- `Server.check_availability()` is an oracle whose answer the model leaves open. Every
  answer is appended to the state's ghost `probes` log, and the scans are specified by
  the logs they can leave.
- The scans that do not exhaust (`exhaust=False`) retry forever while nothing answers.
  The model gives them a `fuel` of extra passes. When the fuel runs out they return the
  model-only error `Blocked`, which means "still retrying".

Two behaviours of the code are kept as written:

- Without liveness checks, RANDOM draws from `0..len(servers)` inclusive (line 90).
  The cursor can therefore land one past the end, and the subscript at line 97 then
  raises `IndexError` (`Pooling.ServerPoolState.RandomSelected`).
- A sequence `add` that meets a bad element raises with the earlier elements already
  appended, and does not refresh the states (`PoolSpec.AppendElementsEffect`,
  `Pooling.ServerPool.Add`).

Two edge cases follow directly from the code:

- `get_current_server` on an empty list (or with the cursor past the end) raises
  `IndexError` from the subscript. There is no dedicated "empty pool" error.
- `initialize` on an empty pool raises `ValueError` from `randint` and registers
  nothing.

## Model

| member | source | states |
|---|---|---|
| PoolSpec.ParseStrategy | ldap3/core/pooling.py:153-156 | a name is accepted exactly when it is one of the three strategy names, and then the strategy has that name; otherwise LDAPUnknownStrategyError |
| PoolSpec.ParseStrategyName | ldap3/core/pooling.py:153 | every strategy's name is accepted as that strategy |
| PoolSpec.CheckPolicy | ldap3/core/pooling.py:153-160 | construction succeeds iff the strategy is known and `exhaust ⇒ active`; an unknown strategy is reported first, then exhaust-without-active as LDAPServerPoolError |
| PoolSpec.PyIndex | ldap3/core/pooling.py:205-206 | Python subscript: defined iff `-len <= i < len`, negative indices count from the end, otherwise IndexError |
| PoolSpec.IndexOf | ldap3/core/pooling.py:112 | `list.index`: a position holding the value, with no earlier position holding it |
| PoolSpec.RemoveFirst | ldap3/core/pooling.py:237-238 | `list.remove` drops exactly the first equal element and keeps the order of the rest |
| PoolSpec.RemoveFirstMultiset | ldap3/core/pooling.py:237-238 | `remove` takes away one occurrence and no other element |
| PoolSpec.RemoveFirstKeepsDuplicates | ldap3/core/pooling.py:237-238 | after `remove(x)`, `x` is still present iff it occurred more than once |
| PoolSpec.AppendElementsEffect | ldap3/core/pooling.py:217-226 | a sequence `add` appends the longest prefix of Servers/strings in order, without de-duplication, and raises iff a bad element follows that prefix; the prefix stays appended |
| PoolSpec.AppendElementsServers | ldap3/core/pooling.py:217-222 | the list after a sequence `add` is the old list plus the converted prefix |
| PoolSpec.AppendElementsOutcome | ldap3/core/pooling.py:223-226 | a sequence `add` raises LDAPServerPoolError exactly when some element is neither a Server nor a string |
| PoolSpec.AddServerIdempotent | ldap3/core/pooling.py:212-214 | adding a Server succeeds, leaves it present, changes nothing when an equal one is present, and adding it twice is the same as once |
| PoolSpec.AddSequenceKeepsDuplicates | ldap3/core/pooling.py:217-219 | a sequence of Servers is appended whole, even the ones already present |
| PoolSpec.NextRoundRobin | ldap3/core/pooling.py:84 | the non-active ROUND_ROBIN step stays in range and is `(i + 1) mod n` from a cursor in range |
| PoolSpec.RoundRobinCursorsSplit | ldap3/core/pooling.py:84 | `a + b` round-robin calls are `a` calls followed by `b` calls from where those left the cursor |
| PoolSpec.RoundRobinCursorsLast | ldap3/core/pooling.py:84 | the last of `k` round-robin calls leaves the cursor where `k` steps lead |
| PoolSpec.RoundRobinCursorsRotate | ldap3/core/pooling.py:84 | `k <= n` round-robin calls walk the circular order that starts right after the cursor |
| PoolSpec.RoundRobinCycle | ldap3/core/pooling.py:84 | `n` consecutive non-active ROUND_ROBIN calls visit every index exactly once in cyclic order, return the cursor to where it was, and the next `n` calls repeat them |
| PoolSpec.CircularOrder | ldap3/core/pooling.py:120-132 | one pass of the circular scan visits `starting..n-1`, then `0..starting-1` (position `k` is `starting + k`, wrapped) |
| PoolSpec.CircularOrderIsPermutation | ldap3/core/pooling.py:120-132 | one pass visits every index exactly once and nothing out of range |
| PoolSpec.FirstLoopHit | ldap3/core/pooling.py:120-123 | a live answer in the first inner loop is at position `index - starting` of the pass, after the dead probes before it |
| PoolSpec.SecondLoopHit | ldap3/core/pooling.py:128-131 | a live answer in the second loop is at position `n - starting + index`, after a whole dead first loop |
| PoolSpec.BothLoopsMissed | ldap3/core/pooling.py:121-133 | both inner loops without a live answer probe one whole dead pass |
| PoolSpec.PassHit | ldap3/core/pooling.py:119-140 | a live answer after some dead passes is a found result of the circular scan |
| PoolSpec.PassMissed | ldap3/core/pooling.py:133-139 | a dead pass raises LDAPServerPoolExhaustedError with `exhaust`, and otherwise starts another pass |
| PoolSpec.RepeatAllDead | ldap3/core/pooling.py:119-139 | repeated dead passes hold no live answer |
| PoolSpec.CircularScanFound | ldap3/core/pooling.py:118-140 | a found index is in range; the last probe is that server answering live; every earlier probe answered not live; with `exhaust` at most one pass was made |
| PoolSpec.CircularScanFirstLive | ldap3/core/pooling.py:118-140 | with `exhaust`, the found index is the first index, in circular order from `starting`, whose probe answered live |
| PoolSpec.CircularScanExhausted | ldap3/core/pooling.py:133-137 | an exhausted circular scan made one probe per list entry, covered every server of the list, and no probe answered live |
| PoolSpec.CircularScanBlocked | ldap3/core/pooling.py:138-139 | without `exhaust`, a scan that never hears a live answer is still retrying after `fuel + 1` whole dead passes, `(fuel + 1) * len` probes |
| PoolSpec.RemoveAtDistinct | ldap3/core/pooling.py:109 | popping one element of a list without repetitions leaves a list without repetitions that lacks exactly that element |
| PoolSpec.PopStart | ldap3/core/pooling.py:105 | a fresh copy of the list holds every position once, none popped |
| PoolSpec.PopDead | ldap3/core/pooling.py:106-110 | popping a position whose server answers not live keeps every position either popped or still in the copy, never both, and none popped twice |
| PoolSpec.PopLive | ldap3/core/pooling.py:109-112 | popping a position whose server answers live ends the pass with a hit on the last probe |
| PoolSpec.PopEnd | ldap3/core/pooling.py:106 | a copy popped empty without a live answer has probed every position exactly once |
| PoolSpec.RandomHit | ldap3/core/pooling.py:110-112 | a live answer returns `servers.index` of that server, which is in range |
| PoolSpec.RandomMiss | ldap3/core/pooling.py:113-116 | a pass without a live answer raises LDAPServerPoolExhaustedError with `exhaust`, and otherwise is one more dead pass before a retry |
| PoolSpec.DeadRandomPassesAllDead | ldap3/core/pooling.py:104-116 | the passes before the last one of a random scan heard no live answer |
| PoolSpec.RandomScanFound | ldap3/core/pooling.py:103-112 | a found position is in range and holds the server that answered live; no smaller position holds an equal server; every earlier probe answered not live |
| PoolSpec.RandomScanBlocked | ldap3/core/pooling.py:113-116 | without `exhaust`, a random scan that never hears a live answer is still retrying after `fuel + 1` whole passes, and every probe answered not live |
| PoolSpec.DeadRandomPassesLength | ldap3/core/pooling.py:105-110 | every dead pass of the random scan probes the whole list once |
| PoolSpec.RandomScanExhausted | ldap3/core/pooling.py:113-116 | with `exhaust`, a raised random scan made one probe per list entry, covered every server of the list, and no probe answered live |
| Pooling.RandInt | ldap3/core/pooling.py:43 | `randint(a, b)` returns a value in the inclusive range, and raises ValueError iff the range is empty |
| Pooling.ServerPoolState.constructor | ldap3/core/pooling.py:37-40 | a new state points at its pool, with an empty copy and an empty probe log |
| Pooling.ServerPoolState.Create | ldap3/core/pooling.py:37-43 | a new state holds a copy of the pool's list, so its `len` is the pool's, and a cursor in range; on an empty pool it raises ValueError |
| Pooling.ServerPoolState.Refresh | ldap3/core/pooling.py:60-64 | the copy equals the pool's list element for element, so the state's `len` is the pool's; on a non-empty list the cursor is in range; on an empty list ValueError is raised after the copy, with the cursor unchanged |
| Pooling.ServerPoolState.GetCurrentServer | ldap3/core/pooling.py:66-67 | the server under the cursor, or IndexError when the cursor is out of range |
| Pooling.ServerPoolState.CheckAvailability | ldap3/core/pooling.py:110-130 | each of the three liveness checks (lines 110, 122 and 130) appends exactly its server and answer to the probe log |
| Pooling.ServerPoolState.ProbeRange | ldap3/core/pooling.py:120-132 | one inner loop probes `lo, lo+1, ...` and stops at the first live index, or at `hi` after probing all of them dead |
| Pooling.ServerPoolState.ScanPass | ldap3/core/pooling.py:119-133 | one pass is the dead prefix of the circular order up to the first live answer, and that answer's position, or the whole dead pass |
| Pooling.ServerPoolState.FindActiveServer | ldap3/core/pooling.py:118-140 | the result is in range and the probe log is exactly one the circular scan can produce (CircularScan) |
| Pooling.ServerPoolState.RandomPassProbe | ldap3/core/pooling.py:105-112 | one pass pops distinct positions of a fresh copy until a live answer; without one it popped every position |
| Pooling.ServerPoolState.FindActiveRandomServer | ldap3/core/pooling.py:103-116 | the result is in range and the probe log is exactly one the random scan can produce (RandomScan) |
| Pooling.ServerPoolState.GetFirst | ldap3/core/pooling.py:71-77 | FIRST: without liveness checks the cursor goes to 0; with them it goes to the circular scan's result from 0, or stays when that raises |
| Pooling.ServerPoolState.GetRoundRobin | ldap3/core/pooling.py:78-84 | ROUND_ROBIN: without liveness checks the cursor moves one step round the list; with them it goes to the circular scan's result from `cursor + 1`, or stays when that raises |
| Pooling.ServerPoolState.GetRandom | ldap3/core/pooling.py:85-90 | RANDOM: without liveness checks the cursor is drawn from `0..n` inclusive and a draw of `n` raises IndexError; with them it goes to the random scan's result |
| Pooling.ServerPoolState.GetServer | ldap3/core/pooling.py:69-101 | an empty list raises LDAPServerPoolError and changes nothing; otherwise the strategy's branch, and the server returned is the one under the new cursor |
| Pooling.ServerPool.constructor | ldap3/core/pooling.py:161-164 | a new pool has the given policy, an empty list and no states |
| Pooling.ServerPool.Create | ldap3/core/pooling.py:146-168 | construction fails exactly as CheckPolicy says, or else exactly when adding the initial servers raises; a built pool holds the initial list and no states |
| Pooling.ServerPool.GetItem | ldap3/core/pooling.py:202-206 | `pool[i]` is defined exactly for `-len(pool) <= i < len(pool)` and is the element at index `i`, negative indices counting from the end; any other index raises IndexError |
| Pooling.ServerPool.NotifyStates | ldap3/core/pooling.py:232-234 | every registered state is refreshed to a copy of the list with a cursor in range; on an empty list with a state registered, the first refresh empties that state's copy and raises ValueError: one state holds the empty copy, no other copy changed, and no cursor moved |
| Pooling.ServerPool.Add | ldap3/core/pooling.py:211-234 | the new list is AddValue of the old one; when the argument or one of its elements is rejected, it raises LDAPServerPoolError and no state changed; otherwise the states are refreshed as NotifyStates says, so when the list is empty and a state is registered, one state ends with the empty copy and ValueError is raised |
| Pooling.ServerPool.Remove | ldap3/core/pooling.py:236-246 | an absent server raises LDAPServerPoolError and changes nothing; otherwise the first equal server is removed, then the states are refreshed as NotifyStates says, so removing the last server with a state registered leaves one state holding the empty copy and raises ValueError |
| Pooling.ServerPool.Initialize | ldap3/core/pooling.py:248-251 | registers a fresh state for the connection, replacing any earlier one and leaving the others untouched; raises ValueError and registers nothing on an empty pool |
| Pooling.ServerPool.GetServer | ldap3/core/pooling.py:253-259 | an unregistered connection raises LDAPServerPoolError; otherwise the connection's state selects |
| Pooling.ServerPool.GetCurrentServer | ldap3/core/pooling.py:261-267 | an unregistered connection raises LDAPServerPoolError; otherwise the server under that state's cursor in its own copy, or IndexError when the cursor is out of range |

## Left out

- Logging (`log`, `log_enabled`) is diagnostics only.
- `__str__` and `__repr__` of both classes only format text.
- `initialize_time` (`datetime.now()`) is a clock reading that nothing else uses.
- The `strategy` copy a state keeps (line 39) is read only by `__str__` (line 55), which is
  left out; selection reads the pool's strategy.
- `Server` is a class defined outside this file. The model makes it a value compared by
  its address, and builds one from an address string without parsing it.
- `check_availability` does network I/O. It is an oracle here: the model records its
  answers but says nothing about how they are produced.
- `randint` is a nondeterministic choice, so nothing is claimed about the distribution.
- Concurrency. The pool has no locks, and the model is sequential.
- `Pooling.ServerPoolState.FindActiveServer`: a scan without `exhaust` that never hears a
  live answer does not terminate in the source. The model stops it after `fuel` extra
  passes with the model-only error `Blocked`.
- `Pooling.ServerPoolState.FindActiveRandomServer` has the same `fuel` bound and the same
  `Blocked` error.
- The pool's `strategy`, `active` and `exhaust` are `const`. Python would let them be
  reassigned after construction; with a known strategy fixed at construction, the
  unknown-strategy branch of `get_server` (lines 91-94) cannot be reached.
- `__iter__` only hands out the list's own iterator.
- Slice arguments to `__getitem__` are not modelled; only integer indices are.
- `pool.add(pool.servers)` never ends in the source when the list is non-empty, because
  lines 218-222 iterate over the very list they append to. In the model the argument is a
  plain value, so one copy of the list is appended.
- The defaults of the `ServerPool` constructor (lines 148-151: no servers, ROUND_ROBIN,
  `active=True`, `exhaust=False`) are not modelled. `ServerPool.Create` takes all four
  arguments explicitly.
- `Pooling.ServerPool.NotifyStates`: when the first refresh raises, the contract says that
  one state holds the empty copy and that no other copy changed. It does not say which
  state that is, because the order of the dictionary is not modelled.
- The refresh broadcast goes over the set of registered state objects rather than the
  dictionary's keys. This is the same thing, because `initialize` always registers a
  fresh state.
