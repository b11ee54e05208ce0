# Consumption offsets test script: result bookkeeping and verdict

`tests/API/test_consumptionOffsets.py` is an integration test of the
consumption-offsets API. Beneath its HTTP calls it runs a small engine
over one global `values` record. That record is six dicts keyed by test
id: `elapsed`, `expected`, `response`, `status`, `target` and `tests`.

The engine runs in five stages:

- It draws random fixture values.
- It records each test's expectation and its outcome.
- It runs a status-equality pass and a latency pass that raise per-test
  `fail` flags.
- It scans two getOffsets listings for the watts offsets.
- It decides the exit code.

This project models that engine in Dafny and proves what each stage does.

## Modules

- `Calls` (`calls.dfy`) holds the script's view of an HTTP call.
  - A call is an outcome: a reply (status code, duration, decoded JSON
    listing or none) or a transport failure (Timeout or ConnectionError).
  - `JsonOut` is `getOffsets`' result for that outcome.
- `Fixtures` (`fixtures.dfy`) holds the fixture ranges and the stopping
  condition of the redraw loops.
  - `random.randint` is an oracle: the first draw plus the sequence of
    redraws.
  - `FirstAcceptable` is the redraw at which a loop stops.
- `ResultStore` (`values.dfy`) holds the class `Values`.
  - Its fields are the six dicts, as maps the methods reassign.
  - Its methods are the script's steps, in order: the redraw loop, the
    per-test block, both passes, the listing scan and the exit loop.
  - `tests[id]` is an `Option<int>`: `None` is the empty dict `{}` and
    `Some(v)` is `{"fail": v}`.
  - The uncaught Python exceptions are `PyError` values. A run ends in
    `Exit`: `AllPassed`, `SomeFailed(code)` or `Crash(error)`.
- `Scenario` (`scenario.dfy`) is the script itself.
  - It holds the configuration, the table of tests in send order and the
    whole run from fixtures to exit.
  - Its contract says how every such run ends.

The script's defects are modelled as written:

- The flag lookups at lines 290 and 299 read `"fail"`, so they raise
  `KeyError("fail")` for a test whose dict is still `{}`.
- Line 296 clears `tests["WattsFirst"]`, a key no test has.
- Line 303 compares against `+wattsSecond`, although line 161 posted
  `-1 * wattsSecond`.
- The long-name test is registered and never sent.

Together these give `Run` its contract.

- The first scan never gets to its body. The flag of `addConWattsFirst`
  is either `{}` (a clean POST), which raises `KeyError("fail")`, or 1
  (a failed one), so the scan is skipped.
- The second scan behaves the same way.
- A run therefore crashes with `KeyError("fail")` exactly when one of the
  two watts POSTs was clean. Otherwise it reports a failure with exit
  code 0, because `skipFailure` is 1.
- It never ends with "All tests were successful", and never with 255.
- The code at lines 296 and 303 is reached only through the generic
  scan: `ConsistencyScan` states the `KeyError("WattsFirst")` outcome,
  and `EchoedWattsMatch` shows the sign mismatch. `FirstScanOnEcho` and
  `SecondScanOnEcho` run both scans over listings that echo the watts
  POSTs.

Durations are natural numbers of microseconds, which is a `timedelta`'s
resolution, so `maxRequest` is 2 000 000. Listing values are reals and
are compared exactly with the integer fixture.

## Model

| member | source | states |
|---|---|---|
| Fixtures.FirstAcceptable | tests/API/test_consumptionOffsets.py:55-56 | The redraw loop stops exactly when some redraw is non-zero and differs from the first value. The value it stops at is such a redraw, taken from the draws given. |
| Fixtures.FirstAcceptableIsEarliest | tests/API/test_consumptionOffsets.py:55-56 | The loop stops at the earliest acceptable redraw, not a later one. |
| Fixtures.FixtureInRange | tests/API/test_consumptionOffsets.py:53-61 | With every draw in [lo, hi], the second fixture is in [lo, hi], non-zero, and different from the first. |
| ResultStore.Values.constructor | tests/API/test_consumptionOffsets.py:22-29 | The record starts with six empty dicts. |
| ResultStore.Values.DrawPair | tests/API/test_consumptionOffsets.py:53-61 | The first draw is stored and the second key set to 0, then redrawn. The loop ends acceptably exactly when `FirstAcceptable` finds a redraw, and the stored second value is that one. No other target key changes. |
| ResultStore.Values.Register | tests/API/test_consumptionOffsets.py:65-66 | `expected[id]` is set to the code and `tests[id]` to an empty dict. Nothing else changes. |
| ResultStore.Values.Send | tests/API/test_consumptionOffsets.py:67-76 | On a reply, the duration and status code are recorded under the id and the test's dict is left alone. On Timeout or ConnectionError, elapsed and response are unchanged and the dict becomes `{"fail": 1}`. |
| ResultStore.Values.GetOffsets | tests/API/test_consumptionOffsets.py:31-50 | An answered GET stores its status code under the tag, and a failed one stores nothing. The result is `JsonOut` of the outcome: the decoded listing when the GET answered with a JSON body, and False (None) when the call failed or the body was not JSON. |
| ResultStore.Values.Step | tests/API/test_consumptionOffsets.py:84-105 | One test block: register, POST, then store the listing under its status key. `Stepped` gives the new value of every dict in terms of the old one and the two outcomes. |
| ResultStore.Values.StatusPass | tests/API/test_consumptionOffsets.py:272-278 | The pass succeeds exactly when every mismatching test has a dict. A mismatching test is one whose truthy response differs from its expected code. On success, exactly the mismatching tests get fail = 1 and every other dict, including those with no or a falsy response, is unchanged. Otherwise it raises KeyError on a mismatching test without a dict. |
| ResultStore.Values.LatencyPass | tests/API/test_consumptionOffsets.py:281-284 | The pass succeeds exactly when every test slower than `maxRequest` has a dict. On success, exactly those tests get fail = 1 and every other dict is unchanged. Otherwise it raises KeyError. |
| ResultStore.Values.ConsistencyScan | tests/API/test_consumptionOffsets.py:290-305 | KeyError(id) for a test with no dict, and KeyError("fail") for an empty dict; a truthy flag skips the scan. On a falsy flag, the flag is set to 1 and the listing is walked. A missing or False listing gives KeyError or TypeError. A name match with no fixture key gives KeyError. The dict of `clearId` gets fail = 0 exactly when some entry matches name, value and unit "W", and KeyError when that dict is missing. |
| ResultStore.Values.ExitDecision | tests/API/test_consumptionOffsets.py:313-323 | If some test's `"fail"` is truthy, the exit code is 0 when skipFailure is set and 255 when it is not. Otherwise "All tests were successful". `Exit.Status` gives the process status of each ending: 0 for success, the code passed to `exit` (lines 318, 320, 323) for a reported failure, and 1 for a crash. |
| Scenario.CreatesDistinct | tests/API/test_consumptionOffsets.py:64-226 | The seven written-out tests have distinct ids, status keys and getOffsets tags. |
| Scenario.UpdatesShape | tests/API/test_consumptionOffsets.py:243-269 | After the seven create tests come the four updates, in list order. Each has run name "Update " + offset name, expects 204, and uses the run name as status key and "getOffsets" + run name as tag. |
| Scenario.SentPairwise | tests/API/test_consumptionOffsets.py:64-269 | No two sent tests share an id, a status key or a tag, so no block overwrites another's entries. |
| Scenario.SentApart | tests/API/test_consumptionOffsets.py:64-269 | No test id is also a getOffsets tag, and the long-name test is not among the sent tests. |
| Scenario.Block | tests/API/test_consumptionOffsets.py:84-105 | One block appended to the blocks before it keeps every earlier block's log and adds its own: expected code, dict, duration and code only on success, `{"fail": 1}` only on failure, listing, and GET code under the tag when the GET answered. When the GET failed, nothing is stored under the tag. |
| Scenario.SendCreates | tests/API/test_consumptionOffsets.py:64-226 | The seven create blocks, in order, each logged as `Block` states. |
| Scenario.RegisterLongName | tests/API/test_consumptionOffsets.py:229-240 | The long-name test gets expected = 400 and an empty dict. Nothing is sent for it. |
| Scenario.SendUpdates | tests/API/test_consumptionOffsets.py:243-269 | The update loop runs the four update blocks in list order, each expecting 204. |
| Scenario.SendAll | tests/API/test_consumptionOffsets.py:64-269 | Every sent test is logged and the long-name test is registered. A failed GET leaves its tag out of `response`. No other key is written (`Keyed`): the keys of `expected` and `tests` are exactly the sent ids plus the long name, the keys of `status` are exactly the sent status keys, `elapsed` holds only sent ids, and `response` only sent ids and getOffsets tags. |
| Scenario.KeyedStep | tests/API/test_consumptionOffsets.py:84-105 | A block adds exactly its own id to `expected` and `tests` and its own status key to `status`, and writes `elapsed` and `response` only under its id and tag. |
| Scenario.Passes | tests/API/test_consumptionOffsets.py:272-284 | On a record keyed by the sent tests, neither pass raises. The key set of `tests` is unchanged, and a dict becomes `{"fail": 1}` exactly when its test returned a truthy code other than the expected one or was slower than 2 s. Every other dict is unchanged. |
| Scenario.PassesSettle | tests/API/test_consumptionOffsets.py:272-284 | Raising exactly the flagged dicts of a logged record settles every sent test: the flag is 1 exactly when the test is not clean, and the long-name test keeps `{}`. The record stays keyed. |
| Scenario.RunPasses | tests/API/test_consumptionOffsets.py:272-284 | Neither pass raises. Afterwards a sent test's flag is 1 exactly when it is not clean, i.e. when it failed in transport, returned a truthy code other than the expected one, or took longer than 2 s. A clean test's dict stays `{}`. The long-name test keeps an empty dict, no response and no duration. |
| Scenario.ScanAndExit | tests/API/test_consumptionOffsets.py:290-323 | The run crashes with KeyError("fail") exactly when one of the two watts POSTs was clean. Otherwise the exit decision reports a failure with exit code 0. |
| Scenario.DrawFixtures | tests/API/test_consumptionOffsets.py:53-61 | For both pairs: the first value is the first draw, and the second is the earliest acceptable redraw, in range, non-zero and distinct from the first. `target` gains exactly these four keys and nothing else changes. |
| Scenario.EchoedWattsMatch | tests/API/test_consumptionOffsets.py:159-163 | A listing entry that echoes the second watts POST (value −wattsSecond) never matches the comparison with +wattsSecond made at line 303. One that echoes the first watts POST (line 137, value +wattsFirst) always matches its scan. |
| Scenario.WattsFirstIsNoTest | tests/API/test_consumptionOffsets.py:296 | A record keyed by the sent tests and the long-name test, as the record is when line 296 runs, has no dict under "WattsFirst". Clearing that flag therefore raises KeyError (see `ConsistencyScan`). |
| Scenario.FirstScanOnEcho | tests/API/test_consumptionOffsets.py:290-296 | With a falsy flag, a listing that echoes the first watts POST and no dict under "WattsFirst", the first scan matches its entry and raises KeyError("WattsFirst"). |
| Scenario.SecondScanOnEcho | tests/API/test_consumptionOffsets.py:299-305 | With a falsy flag and a listing that echoes the second watts POST (value −wattsSecond, wattsSecond non-zero), the second scan raises no error and leaves `{"fail": 1}`: the posted entry never clears the flag. |
| Scenario.SendAndScan | tests/API/test_consumptionOffsets.py:64-323 | From a record with no test entries: every test block, both passes, both scans and the exit decision. The verdict, the settled log of every sent test, the long-name entries and the key sets are those `Run` states. |
| Scenario.Run | tests/API/test_consumptionOffsets.py:15-323 | A whole run ends in Crash(KeyError("fail")) exactly when the addConWattsFirst or addConWattsSecond POST was clean, and in SomeFailed(0) otherwise (never AllPassed, never 255). The final record holds, for every sent test, the expected code, the flag that reflects its outcome, its duration and code, its listing and its GET code, and no GET code under the tag of a failed GET. The long-name test ends with expected = 400, an empty dict, no response and no elapsed. The final record is `Keyed`: its `tests` keys are exactly the sent ids plus the long name, so it has no dict under "WattsFirst". The fixtures are in range, non-zero and distinct, and `target` holds exactly the four fixture keys. |

## Left out

- The HTTP session, URLs, timeouts and the `requests` exception classes are not modelled. Each call is given as an outcome: a reply, or a transport failure standing for Timeout and ConnectionError. Other exceptions from `requests` are not modelled.
- The request payloads are not part of the record, so they are not modelled. The two watts payloads needed to show the sign mismatch are `WattsFirstPosted` and `WattsSecondPosted`.
- JSON decoding is not modelled: a reply carries the decoded listing or none. A listing that is valid JSON but not a list of offset objects is not modelled either.
- `random.randint` is not modelled: its draws are given as an oracle. `Run` requires that the given redraws contain an acceptable one, so runs in which the redraw loop never stops are not modelled.
- `time.sleep(2)` (line 78), every `print`, and the report written to `/tmp/twcmanager-tests/consumptionOffsets.json` (lines 309-311) are I/O. The model leaves them out, including a failure to open that file.
- Building the long offset name (lines 229-231) is left out: the name is never sent, so it has no effect.
- The float payload of test 6 (line 185) is left out, because no scan reads it.
- Dict insertion order is not modelled: the passes and the exit loop visit keys in an arbitrary order. The order cannot change the outcome, except which key a KeyError names. The contracts of `StatusPass` and `LatencyPass` leave that key open: it is some test that raises, not necessarily the first in insertion order.
- Durations are natural numbers of microseconds, a `timedelta`'s exact resolution, so the comparison at line 282 loses nothing.
- A crash is given exit status 1 by `Exit.Status`. That is the interpreter's status for an uncaught exception, not something the script states.
