/**
 * The script's global `values` record and every step that updates it.
 * Each Python dict of the record is a map field; the script's blocks are
 * the methods of the class, in the order the script runs them.
 */
module ResultStore {
  import opened Wrappers
  import opened Calls
  import opened Fixtures

  /** The Python exceptions the script leaves uncaught. Either one ends the run. */
  datatype PyError =
    | KeyError(key: string)   // a dict lookup or nested store on a missing key
    | NotIterable             // `for ... in False` (TypeError)

  /** How a run of the script ends. */
  datatype Exit =
    | AllPassed           // "All tests were successful", exit(0)
    | SomeFailed(code: int) // "At least one test failed", exit(code)
    | Crash(error: PyError)
  {
    /** The process exit status; an uncaught exception exits with 1. */
    function Status(): int {
      match this
      case AllPassed => 0
      case SomeFailed(code) => code
      case Crash(_) => 1
    }
  }

  /** The only key the script ever stores in a per-test dict. */
  const FailKey := "fail"

  /** The unit both listing scans demand. */
  const WattUnit := "W"

  /** `tests[id].get("fail", 0)` is truthy; `flag` is None when the dict has no "fail" key. */
  predicate Failed(flag: Option<int>) {
    flag.Some? && flag.value != 0
  }

  /** A listing entry passes the scan: the right name, the given value and the watt unit. */
  predicate Matches(e: Entry, name: string, value: int) {
    e.offsetName == name && e.offsetValue == value as real && e.offsetUnit == WattUnit
  }

  /** The record as a value, for callers that want the final state. */
  datatype Record = Record(
    elapsed: map<string, nat>,
    expected: map<string, int>,
    response: map<string, int>,
    status: map<string, Option<Listing>>,
    target: map<string, int>,
    tests: map<string, Option<int>>)

  /**
   * `r1` is `r0` after one test block: `expected[id] = code` and
   * `tests[id] = {}`; then the POST, which on a reply records its duration
   * and code under `id` and on a transport failure sets `fail = 1`; then
   * getOffsets(tag), whose answered GET records its code under `tag`, and
   * whose listing is stored under `statusKey`.
   */
  predicate Stepped(r0: Record, r1: Record, id: string, code: int, post: CallOutcome,
                    statusKey: string, tag: string, get: CallOutcome) {
    && r1.expected == r0.expected[id := code]
    && r1.tests == r0.tests[id := if post.TransportFailed? then Some(1) else None]
    && r1.elapsed == (if post.Ok? then r0.elapsed[id := post.reply.elapsed] else r0.elapsed)
    && r1.response == (var sent := if post.Ok? then r0.response[id := post.reply.statusCode] else r0.response;
                       if get.Ok? then sent[tag := get.reply.statusCode] else sent)
    && r1.status == r0.status[statusKey := JsonOut(get)]
    && r1.target == r0.target
  }

  class Values {
    /** Duration of each test's POST, in microseconds. */
    var elapsed: map<string, nat>
    /** The status code each test expects. */
    var expected: map<string, int>
    /** Status codes of the POSTs (by test id) and of the GETs (by getOffsets tag). */
    var response: map<string, int>
    /** The listing fetched after each step; None stands for Python's False. */
    var status: map<string, Option<Listing>>
    /** The random fixture values. */
    var target: map<string, int>
    /** Each test's dict: None is `{}`, Some(v) is `{"fail": v}`. */
    var tests: map<string, Option<int>>

    constructor ()
      ensures elapsed == map[] && expected == map[] && response == map[]
      ensures status == map[] && target == map[] && tests == map[]
    {
      elapsed, expected, response := map[], map[], map[];
      status, target, tests := map[], map[], map[];
    }

    /** The current state as a value. */
    function AsRecord(): Record
      reads this
    {
      Record(elapsed, expected, response, status, target, tests)
    }

    /**
     * One fixture pair: store the first draw under `firstKey`, set the
     * second to 0, then re-draw it until it is acceptable. `done` is false
     * when the given re-draws run out before that.
     */
    method DrawPair(firstKey: string, secondKey: string, first: int, redraws: seq<int>) returns (done: bool)
      requires firstKey != secondKey
      modifies this`target
      ensures done <==> FirstAcceptable(first, redraws).Some?
      ensures secondKey in target
      ensures target == old(target)[firstKey := first][secondKey := target[secondKey]]
      ensures done ==> target[secondKey] == FirstAcceptable(first, redraws).value
    {
      target := target[firstKey := first];
      target := target[secondKey := 0];
      var i := 0;
      while (target[secondKey] == 0 || target[firstKey] == target[secondKey]) && i < |redraws|
        invariant 0 <= i <= |redraws|
        invariant firstKey in target && secondKey in target && target[firstKey] == first
        invariant target == old(target)[firstKey := first][secondKey := target[secondKey]]
        invariant Acceptable(first, target[secondKey]) ==> FirstAcceptable(first, redraws) == Some(target[secondKey])
        invariant !Acceptable(first, target[secondKey]) ==> FirstAcceptable(first, redraws) == FirstAcceptable(first, redraws[i..])
      {
        assert redraws[i..][1..] == redraws[i + 1..];
        target := target[secondKey := redraws[i]];
        i := i + 1;
      }
      done := Acceptable(first, target[secondKey]);
      assert !done ==> i == |redraws| && redraws[i..] == [];
    }

    /** `expected[id] = code` and `tests[id] = {}`. */
    method Register(id: string, code: int)
      modifies this`expected, this`tests
      ensures expected == old(expected)[id := code]
      ensures tests == old(tests)[id := None]
    {
      expected := expected[id := code];
      tests := tests[id := None];
    }

    /**
     * The POST of test `id`: on a response record its duration and status
     * code; on Timeout or ConnectionError record nothing but `fail = 1`.
     */
    method Send(id: string, post: CallOutcome)
      requires id in tests
      modifies this`elapsed, this`response, this`tests
      ensures post.Ok? ==> elapsed == old(elapsed)[id := post.reply.elapsed]
      ensures post.Ok? ==> response == old(response)[id := post.reply.statusCode]
      ensures post.Ok? ==> tests == old(tests)
      ensures post.TransportFailed? ==> elapsed == old(elapsed) && response == old(response)
      ensures post.TransportFailed? ==> tests == old(tests)[id := Some(1)]
    {
      match post
      case Ok(reply) =>
        elapsed := elapsed[id := reply.elapsed];
        response := response[id := reply.statusCode];
      case TransportFailed =>
        tests := tests[id := Some(1)];
    }

    /**
     * getOffsets(tag): a GET that answered stores its status code under
     * `tag` in `response`; the result is the decoded listing or False.
     */
    method GetOffsets(tag: string, get: CallOutcome) returns (out: Option<Listing>)
      modifies this`response
      ensures out == JsonOut(get)
      ensures response == if get.Ok? then old(response)[tag := get.reply.statusCode] else old(response)
    {
      if get.Ok? {
        response := response[tag := get.reply.statusCode];
      }
      out := match get
        case Ok(reply) => reply.json
        case TransportFailed => None;
    }

    /**
     * One test block: register the expectation, send the POST, then store
     * the listing of getOffsets(tag) under `statusKey`.
     */
    method Step(id: string, code: int, post: CallOutcome, statusKey: string, tag: string, get: CallOutcome)
      modifies this`expected, this`tests, this`elapsed, this`response, this`status
      ensures Stepped(old(AsRecord()), AsRecord(), id, code, post, statusKey, tag, get)
    {
      Register(id, code);
      Send(id, post);
      var listing := GetOffsets(tag, get);
      status := status[statusKey := listing];
    }

    /** Test `k` answered with a truthy status code other than the one it expects. */
    ghost predicate Mismatch(k: string)
      reads this`expected, this`response
    {
      k in expected && k in response && response[k] != 0 && response[k] != expected[k]
    }

    /**
     * The status-equality pass: every expected test whose response is
     * truthy and differs from its expectation gets `fail = 1`; tests with
     * no (or a falsy) response are skipped. A mismatching test without a
     * dict in `tests` raises KeyError.
     */
    method StatusPass() returns (err: Option<PyError>)
      modifies this`tests
      ensures err.None? <==> forall k :: Mismatch(k) ==> k in old(tests)
      ensures err.Some? ==> exists k :: Mismatch(k) && k !in old(tests) && err == Some(KeyError(k))
      ensures err.None? ==> tests == map k | k in old(tests) :: if Mismatch(k) then Some(1) else old(tests)[k]
      ensures tests.Keys == old(tests).Keys
    {
      var keys := expected.Keys;
      while keys != {}
        invariant keys <= expected.Keys
        invariant tests.Keys == old(tests).Keys
        invariant forall k :: Mismatch(k) && k !in keys ==> k in old(tests)
        invariant forall k :: k in tests ==> tests[k] == if Mismatch(k) && k !in keys then Some(1) else old(tests)[k]
        decreases |keys|
      {
        var k :| k in keys;
        if k in response && response[k] != 0 {
          if response[k] != expected[k] {
            if k !in tests {
              return Some(KeyError(k));
            }
            tests := tests[k := Some(1)];
          }
        }
        keys := keys - {k};
      }
      err := None;
    }

    /** Test `k`'s POST took longer than `maxRequest`. */
    ghost predicate Late(k: string, maxRequest: nat)
      reads this`elapsed
    {
      k in elapsed && elapsed[k] > maxRequest
    }

    /**
     * The latency pass: every test whose recorded duration exceeds
     * `maxRequest` gets `fail = 1`, and no other flag changes.
     */
    method LatencyPass(maxRequest: nat) returns (err: Option<PyError>)
      modifies this`tests
      ensures err.None? <==> forall k :: Late(k, maxRequest) ==> k in old(tests)
      ensures err.Some? ==> exists k :: Late(k, maxRequest) && k !in old(tests) && err == Some(KeyError(k))
      ensures err.None? ==> tests == map k | k in old(tests) :: if Late(k, maxRequest) then Some(1) else old(tests)[k]
      ensures tests.Keys == old(tests).Keys
    {
      var keys := elapsed.Keys;
      while keys != {}
        invariant keys <= elapsed.Keys
        invariant tests.Keys == old(tests).Keys
        invariant forall k :: Late(k, maxRequest) && k !in keys ==> k in old(tests)
        invariant forall k :: k in tests ==> tests[k] == if Late(k, maxRequest) && k !in keys then Some(1) else old(tests)[k]
        decreases |keys|
      {
        var k :| k in keys;
        if elapsed[k] > maxRequest {
          if k !in tests {
            return Some(KeyError(k));
          }
          tests := tests[k := Some(1)];
        }
        keys := keys - {k};
      }
      err := None;
    }

    /**
     * A listing scan. If test `id`'s fail flag is falsy, set it to 1 and
     * walk the listing stored under `statusKey`; each entry that matches
     * `name`, the fixture `target[targetKey]` and the watt unit stores
     * `fail = 0` in the dict of `clearId`. The lookup of the flag itself
     * raises KeyError when the dict has no "fail" key.
     */
    method ConsistencyScan(id: string, statusKey: string, name: string, targetKey: string, clearId: string)
      returns (err: Option<PyError>)
      modifies this`tests
      ensures id !in old(tests) ==> err == Some(KeyError(id)) && tests == old(tests)
      ensures id in old(tests) && old(tests)[id].None? ==> err == Some(KeyError(FailKey)) && tests == old(tests)
      ensures id in old(tests) && Failed(old(tests)[id]) ==> err.None? && tests == old(tests)
      ensures id in old(tests) && old(tests)[id] == Some(0) ==>
        if statusKey !in status then err == Some(KeyError(statusKey))
        else if status[statusKey].None? then err == Some(NotIterable)
        else
          var entries := status[statusKey].value;
          var raised := old(tests)[id := Some(1)];
          if targetKey !in target then
            if exists j :: 0 <= j < |entries| && entries[j].offsetName == name then err == Some(KeyError(targetKey))
            else err.None? && tests == raised
          else if !exists j :: 0 <= j < |entries| && Matches(entries[j], name, target[targetKey]) then
            err.None? && tests == raised
          else if clearId in raised then
            err.None? && tests == raised[clearId := Some(0)]
          else
            err == Some(KeyError(clearId))
    {
      if id !in tests {
        return Some(KeyError(id));
      }
      var flag := tests[id];
      if flag.None? {
        return Some(KeyError(FailKey));
      }
      if flag.value != 0 {
        return None;
      }
      tests := tests[id := Some(1)];
      if statusKey !in status {
        return Some(KeyError(statusKey));
      }
      var listing := status[statusKey];
      if listing.None? {
        return Some(NotIterable);
      }
      var entries := listing.value;
      ghost var raised := tests;
      var i := 0;
      while i < |entries|
        invariant 0 <= i <= |entries|
        invariant targetKey !in target ==> tests == raised && forall j :: 0 <= j < i ==> entries[j].offsetName != name
        invariant targetKey in target ==>
          if exists j :: 0 <= j < i && Matches(entries[j], name, target[targetKey])
          then clearId in raised && tests == raised[clearId := Some(0)]
          else tests == raised
      {
        var e := entries[i];
        if e.offsetName == name {
          if targetKey !in target {
            return Some(KeyError(targetKey));
          }
          if e.offsetValue == target[targetKey] as real {
            if e.offsetUnit == WattUnit {
              if clearId !in tests {
                return Some(KeyError(clearId));
              }
              tests := tests[clearId := Some(0)];
            }
          }
        }
        i := i + 1;
      }
      err := None;
    }

    /**
     * The exit decision: if any test's flag is truthy the suite has
     * failed, and exits 0 under `skipFailure`, 255 otherwise; if none is,
     * it passed.
     */
    method ExitDecision(skipFailure: int) returns (exit: Exit)
      ensures exit == if exists t :: t in tests && Failed(tests[t])
                      then SomeFailed(if skipFailure != 0 then 0 else 255)
                      else AllPassed
    {
      var keys := tests.Keys;
      while keys != {}
        invariant keys <= tests.Keys
        invariant forall t :: t in tests && t !in keys ==> !Failed(tests[t])
        decreases |keys|
      {
        var t :| t in keys;
        if tests[t].Some? && tests[t].value != 0 {
          if skipFailure != 0 {
            return SomeFailed(0);
          } else {
            return SomeFailed(255);
          }
        }
        keys := keys - {t};
      }
      exit := AllPassed;
    }
  }
}
