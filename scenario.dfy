/**
 * The fixed scenario of the script: its configuration, the tests it sends
 * in order, and a whole run from fixture generation to the exit decision.
 */
module Scenario {
  import opened Wrappers
  import opened Calls
  import opened Fixtures
  import opened ResultStore

  /** `skipFailure = 1`: failures do not fail the pipeline. */
  const SkipFailure := 1

  /** `maxRequest = timedelta(seconds=2)`, in microseconds. */
  const MaxRequest: nat := 2_000_000

  /** A test that is sent: its id, expected code, the status key and tag of the getOffsets call after it. */
  datatype Case = Case(id: string, code: int, statusKey: string, tag: string)

  /** The seven blocks that are written out one after another. */
  const Creates: seq<Case> := [
    Case("addConNoArgs", 400, "Before", "getOffsetsBefore"),
    Case("addConAmpsFirst", 204, "AmpsFirst", "getOffsetsAmpsFirst"),
    Case("addConAmpsSecond", 204, "AmpsSecond", "getOffsetsAmpsSecond"),
    Case("addConWattsFirst", 204, "WattsFirst", "getOffsetsWattsFirst"),
    Case("addConWattsSecond", 204, "WattsSecond", "getOffsetsWattsSecond"),
    Case("addConFloat", 204, "addConFloat", "getOffsetsFloat"),
    Case("addConInvalidUnit", 400, "addConInvalidUnit", "getOffsetsInvalidUnit")
  ]

  /** The offsets the update loop sets to 5 A, in the order it visits them. */
  const UpdateNames: seq<string> := [
    "First Amp Offset Positive", "Second Amp Offset Negative",
    "First Watt Offset Positive", "Second Watts Offset Negative"
  ]

  /** The test the update loop runs for one offset name. */
  function UpdateCase(name: string): Case {
    var run := "Update " + name;
    Case(run, 204, run, "getOffsets" + run)
  }

  /** Every test that is sent, in the order it is sent. */
  const Sent: seq<Case> :=
    Creates + [UpdateCase(UpdateNames[0]), UpdateCase(UpdateNames[1]),
               UpdateCase(UpdateNames[2]), UpdateCase(UpdateNames[3])]

  /** The long-name test: given an expectation, never sent. */
  const LongName := "addConLongName"
  const LongNameCode := 400

  /** Positions in `Sent` of the two tests whose listings are scanned. */
  const WattsFirst := 3
  const WattsSecond := 4

  /** A test that passes both verifier passes: it answered, with the expected (or a falsy) code, in time. */
  predicate Clean(c: Case, post: CallOutcome) {
    post.Ok? && (post.reply.statusCode == 0 || post.reply.statusCode == c.code) && post.reply.elapsed <= MaxRequest
  }

  /** What a test block leaves in the record, before the verifier passes. */
  predicate Logged(r: Record, c: Case, post: CallOutcome, get: CallOutcome) {
    && c.id in r.expected && r.expected[c.id] == c.code
    && c.id in r.tests && r.tests[c.id] == (if post.TransportFailed? then Some(1) else None)
    && (post.Ok? ==> c.id in r.elapsed && r.elapsed[c.id] == post.reply.elapsed)
    && (post.Ok? ==> c.id in r.response && r.response[c.id] == post.reply.statusCode)
    && (post.TransportFailed? ==> c.id !in r.elapsed && c.id !in r.response)
    && c.statusKey in r.status && r.status[c.statusKey] == JsonOut(get)
    && (get.Ok? ==> c.tag in r.response && r.response[c.tag] == get.reply.statusCode)
    && (get.TransportFailed? ==> c.tag !in r.response)
  }

  /** A block leaves what an earlier, unrelated block logged. */
  lemma LoggedKept(r0: Record, r1: Record, d: Case, dpost: CallOutcome, dget: CallOutcome,
                   c: Case, post: CallOutcome, get: CallOutcome)
    requires Stepped(r0, r1, c.id, c.code, post, c.statusKey, c.tag, get) && Logged(r0, d, dpost, dget)
    requires d.id != c.id && d.tag != c.id && d.id != c.tag && d.tag != c.tag && d.statusKey != c.statusKey
    ensures Logged(r1, d, dpost, dget)
  {
  }

  /** A block logs its own test. */
  lemma LoggedNew(r0: Record, r1: Record, c: Case, post: CallOutcome, get: CallOutcome,
                  ids: set<string>, tags: set<string>)
    requires Stepped(r0, r1, c.id, c.code, post, c.statusKey, c.tag, get) && c.id != c.tag
    requires r0.elapsed.Keys <= ids && r0.response.Keys <= ids + tags && c.id !in ids && c.id !in tags
    requires c.tag !in ids && c.tag !in tags
    ensures Logged(r1, c, post, get)
  {
  }

  /** What the record holds about a sent test at the end of a run. */
  predicate Settled(r: Record, c: Case, post: CallOutcome, get: CallOutcome) {
    && c.id in r.expected && r.expected[c.id] == c.code
    && c.id in r.tests && (Failed(r.tests[c.id]) <==> !Clean(c, post))
    && r.tests[c.id] == (if Clean(c, post) then None else Some(1))
    && (post.Ok? ==> c.id in r.elapsed && r.elapsed[c.id] == post.reply.elapsed)
    && (post.Ok? ==> c.id in r.response && r.response[c.id] == post.reply.statusCode)
    && (post.TransportFailed? ==> c.id !in r.elapsed && c.id !in r.response && r.tests[c.id] == Some(1))
    && c.statusKey in r.status && r.status[c.statusKey] == JsonOut(get)
    && (get.Ok? ==> c.tag in r.response && r.response[c.tag] == get.reply.statusCode)
    && (get.TransportFailed? ==> c.tag !in r.response)
  }

  /** The ids of the tests in `done`. */
  ghost function IdsOf(done: seq<Case>): set<string> {
    set j | 0 <= j < |done| :: done[j].id
  }

  /** The getOffsets tags of the tests in `done`. */
  ghost function TagsOf(done: seq<Case>): set<string> {
    set j | 0 <= j < |done| :: done[j].tag
  }

  /** The status keys of the tests in `done`. */
  ghost function StatusKeysOf(done: seq<Case>): set<string> {
    set j | 0 <= j < |done| :: done[j].statusKey
  }

  /** Appending a block adds exactly its id, its tag and its status key. */
  lemma KeysOfSnoc(done: seq<Case>, c: Case)
    ensures IdsOf(done + [c]) == IdsOf(done) + {c.id}
    ensures TagsOf(done + [c]) == TagsOf(done) + {c.tag}
    ensures StatusKeysOf(done + [c]) == StatusKeysOf(done) + {c.statusKey}
  {
    var d := done + [c];
    assert d[|done|] == c;
    forall j | 0 <= j < |done| ensures d[j] == done[j] { }
  }

  /**
   * The keys of the record after the blocks of `done` (and, when
   * `registered`, the long-name expectation): `expected` and `tests` hold
   * exactly the tests' ids, `status` exactly their status keys, and
   * `elapsed` and `response` nothing but their ids and getOffsets tags.
   */
  ghost predicate Keyed(r: Record, done: seq<Case>, registered: bool) {
    && r.expected.Keys == IdsOf(done) + (if registered then {LongName} else {})
    && r.tests.Keys == r.expected.Keys
    && r.status.Keys == StatusKeysOf(done)
    && r.elapsed.Keys <= IdsOf(done)
    && r.response.Keys <= IdsOf(done) + TagsOf(done)
  }

  /** A block adds its own id, status key and tag to the keys, and no other. */
  lemma KeyedStep(r0: Record, r1: Record, done: seq<Case>, c: Case, registered: bool, post: CallOutcome, get: CallOutcome)
    requires Keyed(r0, done, registered) && Stepped(r0, r1, c.id, c.code, post, c.statusKey, c.tag, get)
    ensures Keyed(r1, done + [c], registered)
  {
    KeysOfSnoc(done, c);
    KeysAdd(r0.expected, c.id, c.code);
    KeysAdd(r0.tests, c.id, if post.TransportFailed? then Some(1) else None);
    KeysAdd(r0.status, c.statusKey, JsonOut(get));
  }

  /** Storing under `k` adds exactly `k` to the keys. */
  lemma KeysAdd<V>(m: map<string, V>, k: string, x: V)
    ensures m[k := x].Keys == m.Keys + {k}
  {
  }

  /**
   * The record after the blocks of `done` (and, when `registered`, the
   * long-name expectation): each block is logged, and no other key has
   * been written.
   */
  ghost predicate Prefix(r: Record, done: seq<Case>, registered: bool, posts: seq<CallOutcome>, gets: seq<CallOutcome>) {
    && |done| <= |posts| && |done| <= |gets|
    && (forall j :: 0 <= j < |done| ==> Logged(r, done[j], posts[j], gets[j]))
    && Keyed(r, done, registered)
    && (registered ==> LongName in r.expected && r.expected[LongName] == LongNameCode)
    && (registered ==> LongName in r.tests && r.tests[LongName] == None)
  }

  /** `c` shares no id, tag or status key with the tests already in `done`, nor with the long-name test. */
  predicate Apart(done: seq<Case>, c: Case) {
    && c.id != c.tag && c.id != LongName
    && forall j :: 0 <= j < |done| ==>
         done[j].id != c.id && done[j].tag != c.id && done[j].id != c.tag && done[j].tag != c.tag &&
         done[j].statusKey != c.statusKey
  }

  /** Each create block is apart from the ones before it. */
  lemma CreatesApart()
    ensures forall i :: 0 <= i < |Creates| ==> Apart(Creates[..i], Creates[i]) && Creates[..i] + [Creates[i]] == Creates[..i + 1]
    ensures Creates[..|Creates|] == Creates
  {
    forall i | 0 <= i < |Creates|
      ensures Apart(Creates[..i], Creates[i]) && Creates[..i] + [Creates[i]] == Creates[..i + 1]
    {
      SentApartAt(i);
      CreatesShape();
      assert Creates[..i] == Sent[..i];
      assert Creates[..i + 1] == Sent[..i + 1];
    }
  }

  /** The create blocks use distinct ids, status keys and tags. */
  lemma CreatesDistinct()
    ensures forall j, l :: 0 <= j < |Creates| && 0 <= l < |Creates| && j != l ==>
        Creates[j].id != Creates[l].id && Creates[j].statusKey != Creates[l].statusKey && Creates[j].tag != Creates[l].tag
  {
  }

  /** How create-block names begin: ids with "a", tags with "getOffsets" not followed by "U". */
  lemma CreatesShape()
    ensures forall j :: 0 <= j < |Creates| ==>
      Sent[j] == Creates[j] && Sent[j].id[0] == 'a' && Sent[j].tag[0] == 'g' &&
      |Sent[j].tag| > 10 && Sent[j].tag[10] != 'U' && Sent[j].statusKey[0] != 'U'
  {
  }

  /** The update blocks follow the create blocks, one per offset name, in list order. */
  lemma UpdatesShape()
    ensures |Sent| == |Creates| + |UpdateNames|
    ensures forall k :: 0 <= k < |UpdateNames| ==>
      var c := Sent[|Creates| + k];
      c == UpdateCase(UpdateNames[k]) && c.id[0] == 'U' && |c.id| > 7 && c.id[7..] == UpdateNames[k] &&
      c.tag[0] == 'g' && |c.tag| > 10 && c.tag[10] == 'U' && c.tag[10..] == c.id && c.statusKey == c.id
  {
    forall k | 0 <= k < |UpdateNames|
      ensures var c := Sent[|Creates| + k];
        c == UpdateCase(UpdateNames[k]) && c.id[0] == 'U' && |c.id| > 7 && c.id[7..] == UpdateNames[k] &&
        c.tag[0] == 'g' && |c.tag| > 10 && c.tag[10] == 'U' && c.tag[10..] == c.id && c.statusKey == c.id
    {
      var run := "Update " + UpdateNames[k];
      assert run[7..] == UpdateNames[k];
      assert ("getOffsets" + run)[10..] == run;
    }
  }

  /** No two sent tests share an id, a status key or a tag. */
  lemma SentPairwise()
    ensures forall j, l :: 0 <= j < |Sent| && 0 <= l < |Sent| && j != l ==>
        Sent[j].id != Sent[l].id && Sent[j].statusKey != Sent[l].statusKey && Sent[j].tag != Sent[l].tag
  {
    CreatesDistinct();
    CreatesShape();
    UpdatesShape();
    forall j, l | 0 <= j < |Sent| && 0 <= l < |Sent| && j != l
      ensures Sent[j].id != Sent[l].id && Sent[j].statusKey != Sent[l].statusKey && Sent[j].tag != Sent[l].tag
    {
      if j >= |Creates| && l >= |Creates| {
        assert UpdateNames[j - |Creates|] != UpdateNames[l - |Creates|];
        assert Sent[j].id[7..] != Sent[l].id[7..];
      }
    }
  }

  /** No test id is also a getOffsets tag, and the long-name test is not among the sent ones. */
  lemma SentApart()
    ensures forall j, l :: 0 <= j < |Sent| && 0 <= l < |Sent| ==> Sent[j].id != Sent[l].tag
    ensures forall j :: 0 <= j < |Sent| ==> Sent[j].id != LongName && Sent[j].tag != LongName
  {
    CreatesShape();
    UpdatesShape();
  }

  /** The long name is neither a sent id nor a getOffsets tag. */
  lemma LongNameApart()
    ensures LongName !in IdsOf(Sent) + TagsOf(Sent)
  {
    SentApart();
  }

  /**
   * The block of one test, written out in the script with the literal
   * arguments of `c`: register, POST, and store the listing fetched after.
   */
  method Block(v: Values, ghost done: seq<Case>, c: Case, post: CallOutcome, get: CallOutcome,
               ghost registered: bool, ghost posts: seq<CallOutcome>, ghost gets: seq<CallOutcome>)
    requires |done| < |posts| && |done| < |gets| && posts[|done|] == post && gets[|done|] == get
    requires Prefix(v.AsRecord(), done, registered, posts, gets) && Apart(done, c)
    modifies v`expected, v`tests, v`elapsed, v`response, v`status
    ensures Prefix(v.AsRecord(), done + [c], registered, posts, gets)
    ensures v.target == old(v.target)
  {
    ghost var n := |done|;
    ghost var r0 := v.AsRecord();
    v.Step(c.id, c.code, post, c.statusKey, c.tag, get);
    ghost var r1 := v.AsRecord();
    assert Stepped(r0, r1, c.id, c.code, post, c.statusKey, c.tag, get);
    ghost var d := done + [c];
    forall j | 0 <= j < n
      ensures Logged(r1, d[j], posts[j], gets[j])
    {
      assert d[j] == done[j];
      LoggedKept(r0, r1, done[j], posts[j], gets[j], c, posts[n], gets[n]);
    }
    LoggedNew(r0, r1, c, posts[n], gets[n], IdsOf(done), TagsOf(done));
    assert d[n] == c;
    KeyedStep(r0, r1, done, c, registered, post, get);
  }

  /** Registering the long-name test leaves what the sent blocks logged. */
  lemma LoggedRegistered(r0: Record, r1: Record, d: Case, dpost: CallOutcome, dget: CallOutcome)
    requires r1 == r0.(expected := r0.expected[LongName := LongNameCode], tests := r0.tests[LongName := None])
    requires Logged(r0, d, dpost, dget) && d.id != LongName
    ensures Logged(r1, d, dpost, dget)
  {
  }

  /** The prefix of `Sent` before test `m`, and `Sent[m]`, are apart. */
  lemma SentApartAt(m: nat)
    requires m < |Sent|
    ensures Apart(Sent[..m], Sent[m]) && Sent[..m] + [Sent[m]] == Sent[..m + 1]
  {
    SentPairwise();
    SentApart();
  }

  /** The update block for offset `k` is apart from every block before it. */
  lemma UpdateApartAt(k: nat)
    requires k < |UpdateNames|
    ensures |Creates| + k < |Sent|
    ensures var m := |Creates| + k;
      Apart(Sent[..m], UpdateCase(UpdateNames[k])) && Sent[..m] + [UpdateCase(UpdateNames[k])] == Sent[..m + 1]
    ensures Sent[..|Creates|] == Creates && Sent[..|Sent|] == Sent
  {
    UpdatesShape();
    CreatesShape();
    SentApartAt(|Creates| + k);
    assert Sent[..|Creates|] == Creates;
  }

  /** The seven create blocks, each written out with its literal arguments (`Creates`). */
  method SendCreates(v: Values, posts: seq<CallOutcome>, gets: seq<CallOutcome>)
    requires |posts| == |Sent| && |gets| == |Sent|
    requires v.expected == map[] && v.tests == map[] && v.elapsed == map[] && v.response == map[] && v.status == map[]
    modifies v`expected, v`tests, v`elapsed, v`response, v`status
    ensures Prefix(v.AsRecord(), Creates, false, posts, gets)
    ensures v.target == old(v.target)
  {
    CreatesApart();
    Block(v, Creates[..0], Creates[0], posts[0], gets[0], false, posts, gets);
    Block(v, Creates[..1], Creates[1], posts[1], gets[1], false, posts, gets);
    Block(v, Creates[..2], Creates[2], posts[2], gets[2], false, posts, gets);
    Block(v, Creates[..3], Creates[3], posts[3], gets[3], false, posts, gets);
    Block(v, Creates[..4], Creates[4], posts[4], gets[4], false, posts, gets);
    Block(v, Creates[..5], Creates[5], posts[5], gets[5], false, posts, gets);
    Block(v, Creates[..6], Creates[6], posts[6], gets[6], false, posts, gets);
  }

  /** The long-name test: its expectation and empty dict are registered, and nothing is sent. */
  method RegisterLongName(v: Values, ghost posts: seq<CallOutcome>, ghost gets: seq<CallOutcome>)
    requires Prefix(v.AsRecord(), Creates, false, posts, gets)
    modifies v`expected, v`tests
    ensures Prefix(v.AsRecord(), Creates, true, posts, gets)
  {
    ghost var r0 := v.AsRecord();
    v.Register(LongName, LongNameCode);
    LongNameNotCreated();
    RegisteredPrefix(r0, v.AsRecord(), Creates, posts, gets);
  }

  /** The long name is not the id of a create test. */
  lemma LongNameNotCreated()
    ensures LongName !in IdsOf(Creates)
  {
    SentApart();
    CreatesShape();
  }

  /** Registering the long-name test on a record keeps every log and adds its key. */
  lemma RegisteredPrefix(r0: Record, r1: Record, done: seq<Case>, posts: seq<CallOutcome>, gets: seq<CallOutcome>)
    requires Prefix(r0, done, false, posts, gets) && LongName !in IdsOf(done)
    requires r1 == r0.(expected := r0.expected[LongName := LongNameCode], tests := r0.tests[LongName := None])
    ensures Prefix(r1, done, true, posts, gets)
  {
    forall j | 0 <= j < |done|
      ensures Logged(r1, done[j], posts[j], gets[j])
    {
      LoggedRegistered(r0, r1, done[j], posts[j], gets[j]);
    }
    KeyedRegistered(r0, r1, done);
  }

  /** Registering the long-name test adds exactly its key to `expected` and `tests`. */
  lemma KeyedRegistered(r0: Record, r1: Record, done: seq<Case>)
    requires Keyed(r0, done, false)
    requires r1 == r0.(expected := r0.expected[LongName := LongNameCode], tests := r0.tests[LongName := None])
    ensures Keyed(r1, done, true)
  {
    assert r1.expected.Keys == r0.expected.Keys + {LongName};
    assert r1.tests.Keys == r0.tests.Keys + {LongName};
  }

  /** The update loop: one block per offset name, run name "Update " + name. */
  method SendUpdates(v: Values, posts: seq<CallOutcome>, gets: seq<CallOutcome>)
    requires |posts| == |Sent| && |gets| == |Sent|
    requires Prefix(v.AsRecord(), Creates, true, posts, gets)
    modifies v`expected, v`tests, v`elapsed, v`response, v`status
    ensures Prefix(v.AsRecord(), Sent, true, posts, gets)
    ensures v.target == old(v.target)
  {
    UpdateApartAt(0);
    for k := 0 to |UpdateNames|
      invariant Prefix(v.AsRecord(), Sent[..|Creates| + k], true, posts, gets)
      invariant v.target == old(v.target)
    {
      var runname := "Update " + UpdateNames[k];
      UpdateApartAt(k);
      Block(v, Sent[..|Creates| + k], Case(runname, 204, runname, "getOffsets" + runname),
            posts[|Creates| + k], gets[|Creates| + k], true, posts, gets);
    }
  }

  /**
   * Everything the script sends, in order: the create blocks, the
   * long-name expectation and the update loop.
   */
  method SendAll(v: Values, posts: seq<CallOutcome>, gets: seq<CallOutcome>)
    requires |posts| == |Sent| && |gets| == |Sent|
    requires v.expected == map[] && v.tests == map[] && v.elapsed == map[] && v.response == map[] && v.status == map[]
    modifies v`expected, v`tests, v`elapsed, v`response, v`status
    ensures Prefix(v.AsRecord(), Sent, true, posts, gets)
    ensures v.target == old(v.target)
  {
    SendCreates(v, posts, gets);
    RegisterLongName(v, posts, gets);
    SendUpdates(v, posts, gets);
  }

  /** Either pass raises the flag of test `id` in the record `r` the blocks leave. */
  predicate Flagged(r: Record, id: string) {
    || (id in r.expected && id in r.response && r.response[id] != 0 && r.response[id] != r.expected[id])
    || (id in r.elapsed && r.elapsed[id] > MaxRequest)
  }

  /** A logged test whose flag the passes raised exactly when flagged ends settled. */
  lemma SettledAfterPasses(r0: Record, r1: Record, c: Case, post: CallOutcome, get: CallOutcome)
    requires Logged(r0, c, post, get)
    requires r1 == r0.(tests := r1.tests)
    requires c.id in r1.tests && r1.tests[c.id] == if Flagged(r0, c.id) then Some(1) else r0.tests[c.id]
    ensures Settled(r1, c, post, get)
  {
  }

  /** Every expected or timed test of a keyed record has a dict. */
  lemma KeyedCovers(r: Record, done: seq<Case>, registered: bool)
    requires Keyed(r, done, registered)
    ensures r.expected.Keys == r.tests.Keys && r.elapsed.Keys <= r.tests.Keys
  {
  }

  /**
   * What the two passes leave, on records: `t` raises exactly the flagged
   * tests of `r0` and keeps every other dict.
   */
  lemma PassesSettle(r0: Record, t: map<string, Option<int>>, done: seq<Case>,
                     posts: seq<CallOutcome>, gets: seq<CallOutcome>)
    requires Prefix(r0, done, true, posts, gets) && LongName !in IdsOf(done) + TagsOf(done)
    requires t.Keys == r0.tests.Keys
    requires forall k :: k in t ==> t[k] == if Flagged(r0, k) then Some(1) else r0.tests[k]
    ensures forall i :: 0 <= i < |done| ==> Settled(r0.(tests := t), done[i], posts[i], gets[i])
    ensures Keyed(r0.(tests := t), done, true)
    ensures LongName in t && t[LongName] == None
    ensures LongName in r0.expected && r0.expected[LongName] == LongNameCode
    ensures LongName !in r0.response && LongName !in r0.elapsed
  {
    var r1 := r0.(tests := t);
    forall i | 0 <= i < |done|
      ensures Settled(r1, done[i], posts[i], gets[i])
    {
      assert Logged(r0, done[i], posts[i], gets[i]);
      SettledAfterPasses(r0, r1, done[i], posts[i], gets[i]);
    }
  }

  /**
   * Both passes over a keyed record: neither raises, and each dict is
   * raised to `{"fail": 1}` exactly when its test is flagged.
   */
  method Passes(v: Values, ghost done: seq<Case>)
    requires Keyed(v.AsRecord(), done, true)
    modifies v`tests
    ensures v.tests.Keys == old(v.tests).Keys
    ensures forall k :: k in v.tests ==> v.tests[k] == if Flagged(old(v.AsRecord()), k) then Some(1) else old(v.tests)[k]
  {
    ghost var r0 := v.AsRecord();
    KeyedCovers(r0, done, true);
    var err := v.StatusPass();
    assert err.None?;
    ghost var t1 := v.tests;
    err := v.LatencyPass(MaxRequest);
    assert err.None?;
    forall k | k in v.tests
      ensures v.tests[k] == if Flagged(r0, k) then Some(1) else r0.tests[k]
    {
      assert k in t1;
    }
  }

  /**
   * The status-equality pass and then the latency pass, over the record
   * the sending phases leave. Neither raises: every expected test has a
   * dict in `tests`, and every timed test is expected.
   */
  method RunPasses(v: Values, ghost done: seq<Case>, ghost posts: seq<CallOutcome>, ghost gets: seq<CallOutcome>)
    requires Prefix(v.AsRecord(), done, true, posts, gets) && LongName !in IdsOf(done) + TagsOf(done)
    modifies v`tests
    ensures forall i :: 0 <= i < |done| ==> Settled(v.AsRecord(), done[i], posts[i], gets[i])
    ensures Keyed(v.AsRecord(), done, true)
    ensures LongName in v.tests && v.tests[LongName] == None
    ensures LongName in v.expected && v.expected[LongName] == LongNameCode
    ensures LongName !in v.response && LongName !in v.elapsed
  {
    ghost var r0 := v.AsRecord();
    Passes(v, done);
    PassesSettle(r0, v.tests, done, posts, gets);
  }

  /**
   * The two watts listing scans and the exit decision. A scanned test
   * whose dict is still empty makes the flag lookup raise KeyError("fail");
   * a failed one is skipped, so neither scan body runs.
   */
  method ScanAndExit(v: Values, ghost posts: seq<CallOutcome>, ghost gets: seq<CallOutcome>) returns (exit: Exit)
    requires |posts| == |Sent| && |gets| == |Sent|
    requires Settled(v.AsRecord(), Sent[WattsFirst], posts[WattsFirst], gets[WattsFirst])
    requires Settled(v.AsRecord(), Sent[WattsSecond], posts[WattsSecond], gets[WattsSecond])
    modifies v`tests
    ensures exit == if Clean(Sent[WattsFirst], posts[WattsFirst]) || Clean(Sent[WattsSecond], posts[WattsSecond])
                    then Crash(KeyError(FailKey)) else SomeFailed(0)
    ensures v.tests == old(v.tests) && v.AsRecord() == old(v.AsRecord())
  {
    CreatesShape();
    var err := v.ConsistencyScan("addConWattsFirst", "WattsFirst", "First Watt Offset Positive", "wattsFirst", "WattsFirst");
    if err.Some? {
      return Crash(err.value);
    }
    err := v.ConsistencyScan("addConWattsSecond", "WattsSecond", "Second Watts Offset Negative", "wattsSecond", "addConWattsSecond");
    if err.Some? {
      return Crash(err.value);
    }
    exit := v.ExitDecision(SkipFailure);
  }

  /** The fixtures in `target`: both first draws, and acceptable second values in range. */
  predicate Fixed(target: map<string, int>, ampsFirst: int, wattsFirst: int) {
    && "ampsFirst" in target && target["ampsFirst"] == ampsFirst
    && "ampsSecond" in target && AmpsLow <= target["ampsSecond"] <= AmpsHigh
    && target["ampsSecond"] != 0 && target["ampsSecond"] != ampsFirst
    && "wattsFirst" in target && target["wattsFirst"] == wattsFirst
    && "wattsSecond" in target && WattsLow <= target["wattsSecond"] <= WattsHigh
    && target["wattsSecond"] != 0 && target["wattsSecond"] != wattsFirst
  }

  /** The two fixture pairs, drawn before any test is sent. */
  method DrawFixtures(v: Values, ampsFirst: int, ampsRedraws: seq<int>, wattsFirst: int, wattsRedraws: seq<int>)
    requires AmpsLow <= ampsFirst <= AmpsHigh
    requires forall k :: 0 <= k < |ampsRedraws| ==> AmpsLow <= ampsRedraws[k] <= AmpsHigh
    requires WattsLow <= wattsFirst <= WattsHigh
    requires forall k :: 0 <= k < |wattsRedraws| ==> WattsLow <= wattsRedraws[k] <= WattsHigh
    requires FirstAcceptable(ampsFirst, ampsRedraws).Some? && FirstAcceptable(wattsFirst, wattsRedraws).Some?
    modifies v`target
    ensures Fixed(v.target, ampsFirst, wattsFirst)
    ensures v.target == old(v.target)["ampsFirst" := ampsFirst]
                                     ["ampsSecond" := FirstAcceptable(ampsFirst, ampsRedraws).value]
                                     ["wattsFirst" := wattsFirst]
                                     ["wattsSecond" := FirstAcceptable(wattsFirst, wattsRedraws).value]
  {
    var done := v.DrawPair("ampsFirst", "ampsSecond", ampsFirst, ampsRedraws);
    done := v.DrawPair("wattsFirst", "wattsSecond", wattsFirst, wattsRedraws);
    FixtureInRange(AmpsLow, AmpsHigh, ampsFirst, ampsRedraws);
    FixtureInRange(WattsLow, WattsHigh, wattsFirst, wattsRedraws);
  }

  /** The entry the first watts block posts: the fixture itself, in watts. */
  function WattsFirstPosted(w: int): Entry {
    Entry("First Watt Offset Positive", w as real, WattUnit)
  }

  /** The entry the second watts block posts: the negated fixture, in watts. */
  function WattsSecondPosted(w: int): Entry {
    Entry("Second Watts Offset Negative", (-1 * w) as real, WattUnit)
  }

  /**
   * The comparison of the second watts scan is against the fixture
   * itself, not its negation: a listing that echoes the posted entry
   * never matches, while the first watts entry echoed back always does.
   */
  lemma EchoedWattsMatch(target: map<string, int>, ampsFirst: int, wattsFirst: int)
    requires Fixed(target, ampsFirst, wattsFirst)
    ensures Matches(WattsFirstPosted(target["wattsFirst"]), "First Watt Offset Positive", target["wattsFirst"])
    ensures !Matches(WattsSecondPosted(target["wattsSecond"]), "Second Watts Offset Negative", target["wattsSecond"])
  {
  }

  /**
   * The second watts scan, reached with a falsy flag, over a listing that
   * echoes the second watts POST: the flag is raised to 1 and no entry
   * clears it again.
   */
  method SecondScanOnEcho(v: Values) returns (err: Option<PyError>)
    requires "addConWattsSecond" in v.tests && v.tests["addConWattsSecond"] == Some(0)
    requires "wattsSecond" in v.target && v.target["wattsSecond"] != 0
    requires "WattsSecond" in v.status && v.status["WattsSecond"] == Some([WattsSecondPosted(v.target["wattsSecond"])])
    modifies v`tests
    ensures err.None? && v.tests == old(v.tests)["addConWattsSecond" := Some(1)]
  {
    err := v.ConsistencyScan("addConWattsSecond", "WattsSecond", "Second Watts Offset Negative", "wattsSecond", "addConWattsSecond");
  }

  /**
   * The first watts scan, reached with a falsy flag, over a listing that
   * echoes the first watts POST: the entry matches, and clearing the flag
   * of "WattsFirst" raises KeyError("WattsFirst").
   */
  method FirstScanOnEcho(v: Values) returns (err: Option<PyError>)
    requires "addConWattsFirst" in v.tests && v.tests["addConWattsFirst"] == Some(0)
    requires "WattsFirst" !in v.tests
    requires "wattsFirst" in v.target
    requires "WattsFirst" in v.status && v.status["WattsFirst"] == Some([WattsFirstPosted(v.target["wattsFirst"])])
    modifies v`tests
    ensures err == Some(KeyError("WattsFirst"))
  {
    ghost var entries := v.status["WattsFirst"].value;
    assert Matches(entries[0], "First Watt Offset Positive", v.target["wattsFirst"]);
    err := v.ConsistencyScan("addConWattsFirst", "WattsFirst", "First Watt Offset Positive", "wattsFirst", "WattsFirst");
  }

  /**
   * The first watts scan clears the flag of "WattsFirst", which is a
   * status key and not a test: a record keyed by the sent tests and the
   * long-name test has no dict under it, so by the contract of
   * `ConsistencyScan` a matching entry raises KeyError("WattsFirst").
   */
  lemma WattsFirstIsNoTest(r: Record)
    requires Keyed(r, Sent, true)
    ensures "WattsFirst" !in r.tests
  {
    WattsFirstNotSent();
    assert LongName != "WattsFirst";
  }

  /** No sent test has the id "WattsFirst". */
  lemma WattsFirstNotSent()
    ensures "WattsFirst" !in IdsOf(Sent)
  {
    CreatesShape();
    UpdatesShape();
    forall i | 0 <= i < |Sent| ensures Sent[i].id != "WattsFirst" {
      assert Sent[i].id[0] == 'a' || Sent[i].id[0] == 'U';
    }
  }

  /**
   * Everything after the fixture draw: all test blocks, both passes, both
   * scans and the exit decision, from a record with no test entries yet.
   */
  method SendAndScan(v: Values, posts: seq<CallOutcome>, gets: seq<CallOutcome>) returns (exit: Exit)
    requires |posts| == |Sent| && |gets| == |Sent|
    requires v.expected == map[] && v.tests == map[] && v.elapsed == map[] && v.response == map[] && v.status == map[]
    modifies v`expected, v`tests, v`elapsed, v`response, v`status
    ensures exit == if Clean(Sent[WattsFirst], posts[WattsFirst]) || Clean(Sent[WattsSecond], posts[WattsSecond])
                    then Crash(KeyError(FailKey)) else SomeFailed(0)
    ensures forall i :: 0 <= i < |Sent| ==> Settled(v.AsRecord(), Sent[i], posts[i], gets[i])
    ensures LongName in v.expected && v.expected[LongName] == LongNameCode
    ensures LongName in v.tests && v.tests[LongName] == None
    ensures LongName !in v.response && LongName !in v.elapsed
    ensures Keyed(v.AsRecord(), Sent, true) && "WattsFirst" !in v.tests
  {
    SendAll(v, posts, gets);
    LongNameApart();
    RunPasses(v, Sent, posts, gets);
    WattsFirstIsNoTest(v.AsRecord());
    exit := ScanAndExit(v, posts, gets);
  }

  /**
   * One run of the script. The fixtures are the first draw and the
   * re-draws of each pair; `posts[i]` and `gets[i]` are the outcomes of
   * the POST of `Sent[i]` and of the getOffsets call that follows it.
   */
  method Run(ampsFirst: int, ampsRedraws: seq<int>, wattsFirst: int, wattsRedraws: seq<int>,
             posts: seq<CallOutcome>, gets: seq<CallOutcome>)
    returns (exit: Exit, final: Record)
    requires AmpsLow <= ampsFirst <= AmpsHigh
    requires forall k :: 0 <= k < |ampsRedraws| ==> AmpsLow <= ampsRedraws[k] <= AmpsHigh
    requires WattsLow <= wattsFirst <= WattsHigh
    requires forall k :: 0 <= k < |wattsRedraws| ==> WattsLow <= wattsRedraws[k] <= WattsHigh
    requires FirstAcceptable(ampsFirst, ampsRedraws).Some? && FirstAcceptable(wattsFirst, wattsRedraws).Some?
    requires |posts| == |Sent| && |gets| == |Sent|
    // the run crashes on the "fail" lookup exactly when a scanned watts test passed; otherwise it reports failure
    ensures exit == if Clean(Sent[WattsFirst], posts[WattsFirst]) || Clean(Sent[WattsSecond], posts[WattsSecond])
                    then Crash(KeyError(FailKey)) else SomeFailed(0)
    ensures exit != AllPassed && exit.Status() != 255
    ensures forall i :: 0 <= i < |Sent| ==> Settled(final, Sent[i], posts[i], gets[i])
    ensures LongName in final.expected && final.expected[LongName] == LongNameCode
    ensures LongName in final.tests && final.tests[LongName] == None
    ensures LongName !in final.response && LongName !in final.elapsed
    ensures Keyed(final, Sent, true) && "WattsFirst" !in final.tests
    ensures Fixed(final.target, ampsFirst, wattsFirst)
    ensures final.target == map["ampsFirst" := ampsFirst, "ampsSecond" := FirstAcceptable(ampsFirst, ampsRedraws).value,
                                "wattsFirst" := wattsFirst, "wattsSecond" := FirstAcceptable(wattsFirst, wattsRedraws).value]
  {
    var v := new Values();
    DrawFixtures(v, ampsFirst, ampsRedraws, wattsFirst, wattsRedraws);
    exit := SendAndScan(v, posts, gets);
    final := v.AsRecord();
  }
}
