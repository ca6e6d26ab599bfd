/**
 The benchmark evidence: the keys the runner emits over all its chunks, and the validator
 that accepts exactly one good record for each expected key.
 */
module Benchmark {
  import opened Options

  datatype Availability = Supported | Unsupported | HardwareGated | OutOfScope
  datatype Tool = Docker | Lightr | Skip | OtherTool(name: string)
  datatype Outcome = Passed | Failed | Skipped | TimedOut | OtherOutcome(name: string)

  datatype Assertion =
    | ExitCode(expected: int)
    | StdoutRegex(pattern: string)
    | StderrRegex(pattern: string)
    | FileSha256(path: string)
    | HttpStatus(status: nat)
    | Command(command: string)

  datatype Fixture = Fixture(project: string, path: string, context: string)

  datatype Scenario = Scenario(
    id: string, category: string, availability: Availability, reason: Option<string>, fixture: Fixture,
    docker: string, lightr: string, metrics: seq<string>, tags: seq<string>, assertions: seq<Assertion>)

  // What identifies a record.
  datatype Key = Key(id: string, tool: Tool, round: int)

  // ── Expected keys ─────────────────────────────────────────────────────────

  function RoundKeys(id: string, rounds: nat): set<Key> {
    (set r | 0 <= r < rounds :: Key(id, Docker, r)) + (set r | 0 <= r < rounds :: Key(id, Lightr, r))
  }

  function KeysOf(id: string, availability: Availability, rounds: nat): set<Key> {
    if availability == Supported then RoundKeys(id, rounds) else {Key(id, Skip, 0)}
  }

  // Both tools in every round of a supported scenario, one skip for any other.
  function Expected(scenarios: map<string, Availability>, rounds: nat): set<Key> {
    set id, k | id in scenarios && k in KeysOf(id, scenarios[id], rounds) :: k
  }

  function SupportedIds(scenarios: map<string, Availability>): set<string> {
    set id | id in scenarios && scenarios[id] == Supported
  }

  lemma KeysCarryTheirId(id: string, availability: Availability, rounds: nat)
    ensures forall k | k in KeysOf(id, availability, rounds) :: k.id == id
  {
  }

  function LastRound(id: string, round: nat): set<Key> { {Key(id, Docker, round), Key(id, Lightr, round)} }

  lemma RoundKeysStep(id: string, rounds: nat)
    ensures RoundKeys(id, rounds + 1) == RoundKeys(id, rounds) + LastRound(id, rounds)
    ensures RoundKeys(id, rounds) !! LastRound(id, rounds) && |LastRound(id, rounds)| == 2
  {
  }

  lemma NoRounds(id: string)
    ensures RoundKeys(id, 0) == {}
  {
  }

  lemma Union(a: set<Key>, b: set<Key>)
    requires a !! b
    ensures |a + b| == |a| + |b| && multiset(a + b) == multiset(a) + multiset(b)
  {
  }

  lemma {:induction false} RoundKeysCount(id: string, rounds: nat)
    ensures |RoundKeys(id, rounds)| == 2 * rounds
  {
    hide *;
    if rounds == 0 {
      NoRounds(id);
    } else {
      RoundKeysCount(id, rounds - 1);
      RoundKeysStep(id, rounds - 1);
      Union(RoundKeys(id, rounds - 1), LastRound(id, rounds - 1));
    }
  }

  lemma ExpectedStep(scenarios: map<string, Availability>, rounds: nat, id: string)
    requires id in scenarios
    ensures Expected(scenarios, rounds) == Expected(scenarios - {id}, rounds) + KeysOf(id, scenarios[id], rounds)
    ensures Expected(scenarios - {id}, rounds) !! KeysOf(id, scenarios[id], rounds)
  {
    hide KeysOf;
    KeysCarryTheirId(id, scenarios[id], rounds);
    forall k | k in Expected(scenarios - {id}, rounds) ensures k.id != id && k in Expected(scenarios, rounds) {
      var other :| other in scenarios - {id} && k in KeysOf(other, (scenarios - {id})[other], rounds);
      KeysCarryTheirId(other, scenarios[other], rounds);
    }
    forall k | k in Expected(scenarios, rounds)
      ensures k in Expected(scenarios - {id}, rounds) + KeysOf(id, scenarios[id], rounds)
    {
      var other :| other in scenarios && k in KeysOf(other, scenarios[other], rounds);
      if other != id {
        assert other in scenarios - {id} && (scenarios - {id})[other] == scenarios[other];
        assert k in KeysOf(other, (scenarios - {id})[other], rounds);
      }
    }
  }

  function ExpectedSize(rounds: nat, supported: nat, scenarios: nat): int {
    2 * rounds * supported + (scenarios - supported)
  }

  lemma SizeStep(rounds: nat, supported: nat, scenarios: nat)
    ensures ExpectedSize(rounds, supported + 1, scenarios + 1) ==
            ExpectedSize(rounds, supported, scenarios) + 2 * rounds
    ensures ExpectedSize(rounds, supported, scenarios + 1) == ExpectedSize(rounds, supported, scenarios) + 1
    ensures ExpectedSize(rounds, 0, 0) == 0
  {
    assert 2 * rounds * (supported + 1) == 2 * rounds * supported + 2 * rounds;
  }

  // The number of expected keys: two per round of each supported scenario, one per other.
  lemma {:induction false} ExpectedCount(scenarios: map<string, Availability>, rounds: nat)
    ensures |Expected(scenarios, rounds)| == ExpectedSize(rounds, |SupportedIds(scenarios)|, |scenarios.Keys|)
    decreases |scenarios.Keys|
  {
    hide *;
    if scenarios.Keys == {} {
      NoScenarios(scenarios, rounds);
      SizeStep(rounds, 0, 0);
    } else {
      var id :| id in scenarios.Keys;
      OneLess(scenarios, id);
      ExpectedCount(scenarios - {id}, rounds);
      CountStep(scenarios, rounds, id);
      SizeStep(rounds, |SupportedIds(scenarios - {id})|, |(scenarios - {id}).Keys|);
    }
  }

  lemma OneLess(scenarios: map<string, Availability>, id: string)
    requires id in scenarios
    ensures |scenarios.Keys| == |(scenarios - {id}).Keys| + 1
  {
    assert (scenarios - {id}).Keys == scenarios.Keys - {id};
  }

  lemma CountStep(scenarios: map<string, Availability>, rounds: nat, id: string)
    requires id in scenarios
    ensures |Expected(scenarios, rounds)| ==
            |Expected(scenarios - {id}, rounds)| + if scenarios[id] == Supported then 2 * rounds else 1
    ensures |SupportedIds(scenarios)| == |SupportedIds(scenarios - {id})| + if scenarios[id] == Supported then 1 else 0
  {
    hide *;
    ExpectedStep(scenarios, rounds, id);
    Union(Expected(scenarios - {id}, rounds), KeysOf(id, scenarios[id], rounds));
    KeysOfCount(id, scenarios[id], rounds);
    SupportedStep(scenarios, id);
  }

  lemma NoScenarios(scenarios: map<string, Availability>, rounds: nat)
    requires scenarios.Keys == {}
    ensures Expected(scenarios, rounds) == {} && SupportedIds(scenarios) == {}
  {
  }

  lemma KeysOfCount(id: string, availability: Availability, rounds: nat)
    ensures |KeysOf(id, availability, rounds)| == if availability == Supported then 2 * rounds else 1
  {
    hide RoundKeys;
    RoundKeysCount(id, rounds);
  }

  lemma SupportedStep(scenarios: map<string, Availability>, id: string)
    requires id in scenarios
    ensures |SupportedIds(scenarios)| == |SupportedIds(scenarios - {id})| + if scenarios[id] == Supported then 1 else 0
  {
    var rest := scenarios - {id};
    assert SupportedIds(scenarios) == SupportedIds(rest) + if scenarios[id] == Supported then {id} else {};
  }

  // ── The specification file ────────────────────────────────────────────────

  predicate DistinctIds(scenarios: seq<Scenario>) {
    forall i, j | 0 <= i < j < |scenarios| :: scenarios[i].id != scenarios[j].id
  }

  function Availabilities(scenarios: seq<Scenario>): map<string, Availability> {
    if scenarios == [] then map[]
    else
      var last := scenarios[|scenarios| - 1];
      Availabilities(scenarios[..|scenarios| - 1])[last.id := last.availability]
  }

  const CATEGORIES: set<string> :=
    {"build", "buildkit", "run", "compose", "network", "volume", "security", "resources", "logging", "registry",
     "health", "plugin", "swarm"}

  predicate AssertionOk(a: Assertion, isRegex: string -> bool) {
    match a
    case ExitCode(_) => true
    case StdoutRegex(pattern) => isRegex(pattern)
    case StderrRegex(pattern) => isRegex(pattern)
    case FileSha256(path) => path != ""
    case HttpStatus(status) => 100 <= status <= 599
    case Command(command) => command != ""
  }

  // What a scenario must have on its own.
  predicate ScenarioOk(s: Scenario, isRegex: string -> bool) {
    && s.category in CATEGORIES && (s.availability != Supported ==> s.reason.Some?)
    && |s.metrics| >= 4 && |s.tags| >= 2
    && (s.availability == Supported ==>
          && s.fixture.project != "" && s.fixture.path != "" && s.fixture.context != ""
          && s.docker != "" && s.lightr != "" && s.assertions != [])
    && forall a | a in s.assertions :: AssertionOk(a, isRegex)
  }

  predicate SpecOk(scenarios: seq<Scenario>, isRegex: string -> bool) {
    DistinctIds(scenarios) && forall s | s in scenarios :: ScenarioOk(s, isRegex)
  }

  method ValidateScenario(s: Scenario, isRegex: string -> bool) returns (ok: bool)
    ensures ok <==> ScenarioOk(s, isRegex)
  {
    if s.category !in CATEGORIES || (s.availability != Supported && s.reason.None?) {
      return false;
    }
    if |s.metrics| < 4 || |s.tags| < 2 {
      return false;
    }
    if s.availability == Supported {
      if s.fixture.project == "" || s.fixture.path == "" || s.fixture.context == "" {
        return false;
      }
      if s.docker == "" || s.lightr == "" || s.assertions == [] {
        return false;
      }
    }
    for i := 0 to |s.assertions|
      invariant forall k | 0 <= k < i :: AssertionOk(s.assertions[k], isRegex)
    {
      if !AssertionOk(s.assertions[i], isRegex) {
        return false;
      }
    }
    ok := true;
  }

  // Spec::validate: accepts exactly good specifications, and otherwise stops at the first
  // scenario that repeats an id or is not well formed.
  method ValidateSpec(scenarios: seq<Scenario>, isRegex: string -> bool) returns (bad: Option<nat>)
    ensures bad.None? <==> SpecOk(scenarios, isRegex)
    ensures bad.Some? ==>
              && bad.value < |scenarios|
              && SpecOk(scenarios[..bad.value], isRegex) && !SpecOk(scenarios[..bad.value + 1], isRegex)
  {
    hide ScenarioOk;
    var ids: set<string> := {};
    for i := 0 to |scenarios|
      invariant forall id :: id in ids <==> exists k :: 0 <= k < i && scenarios[k].id == id
      invariant SpecOk(scenarios[..i], isRegex)
    {
      var s := scenarios[i];
      assert scenarios[..i + 1] == scenarios[..i] + [s];
      assert s in scenarios[..i + 1] && s in scenarios;
      if s.id in ids {
        return Some(i);
      }
      var ok := ValidateScenario(s, isRegex);
      if !ok {
        return Some(i);
      }
      assert forall k | 0 <= k < i :: scenarios[k].id in ids;
      ids := ids + {s.id};
    }
    assert scenarios[..|scenarios|] == scenarios;
    bad := None;
  }

  // ── The runner ────────────────────────────────────────────────────────────

  // The keys of one scenario, in the order the runner writes them.
  function RoundSeq(id: string, rounds: nat): seq<Key> {
    if rounds == 0 then [] else RoundSeq(id, rounds - 1) + [Key(id, Docker, rounds - 1), Key(id, Lightr, rounds - 1)]
  }

  function KeySeq(s: Scenario, rounds: nat): seq<Key> {
    if s.availability == Supported then RoundSeq(s.id, rounds) else [Key(s.id, Skip, 0)]
  }

  // The output of one of `total` runners, which takes every total-th scenario.
  function ChunkOutput(scenarios: seq<Scenario>, rounds: nat, chunk: nat, total: nat): seq<Key>
    requires total > 0
  {
    if scenarios == [] then []
    else
      var n := |scenarios| - 1;
      ChunkOutput(scenarios[..n], rounds, chunk, total)
      + if n % total == chunk then KeySeq(scenarios[n], rounds) else []
  }

  // The outputs of the first `chunks` runners, one after the other.
  function AllOutputs(scenarios: seq<Scenario>, rounds: nat, chunks: nat, total: nat): seq<Key>
    requires total > 0
  {
    if chunks == 0 then []
    else AllOutputs(scenarios, rounds, chunks - 1, total) + ChunkOutput(scenarios, rounds, chunks - 1, total)
  }

  // execute over one chunk.
  method RunChunk(scenarios: seq<Scenario>, rounds: nat, chunk: nat, total: nat) returns (out: seq<Key>)
    requires total > 0
    ensures out == ChunkOutput(scenarios, rounds, chunk, total)
  {
    out := [];
    for i := 0 to |scenarios|
      invariant out == ChunkOutput(scenarios[..i], rounds, chunk, total)
    {
      assert scenarios[..i + 1][..i] == scenarios[..i];
      if i % total == chunk {
        var s := scenarios[i];
        if s.availability == Supported {
          var before := out;
          for round := 0 to rounds
            invariant out == before + RoundSeq(s.id, round)
          {
            out := out + [Key(s.id, Docker, round)];
            out := out + [Key(s.id, Lightr, round)];
          }
        } else {
          out := out + [Key(s.id, Skip, 0)];
        }
      }
    }
    assert scenarios[..|scenarios|] == scenarios;
  }

  lemma ChunkStep(scenarios: seq<Scenario>, rounds: nat, chunk: nat, total: nat, n: nat)
    requires total > 0 && |scenarios| == n + 1
    ensures multiset(ChunkOutput(scenarios, rounds, chunk, total)) ==
            multiset(ChunkOutput(scenarios[..n], rounds, chunk, total))
            + if n % total == chunk then multiset(KeySeq(scenarios[n], rounds)) else multiset{}
  {
    hide KeySeq;
  }

  lemma ChunksStep(scenarios: seq<Scenario>, rounds: nat, chunks: nat, total: nat)
    requires total > 0
    ensures multiset(AllOutputs(scenarios, rounds, chunks + 1, total)) ==
            multiset(AllOutputs(scenarios, rounds, chunks, total))
            + multiset(ChunkOutput(scenarios, rounds, chunks, total))
  {
    hide ChunkOutput;
  }

  lemma NoChunks(scenarios: seq<Scenario>, rounds: nat, total: nat)
    requires total > 0
    ensures AllOutputs(scenarios, rounds, 0, total) == []
  {
  }

  lemma {:induction false} OneMoreScenario(scenarios: seq<Scenario>, rounds: nat, chunks: nat, total: nat, n: nat)
    requires total > 0 && |scenarios| == n + 1
    ensures multiset(AllOutputs(scenarios, rounds, chunks, total)) ==
            multiset(AllOutputs(scenarios[..n], rounds, chunks, total))
            + if n % total < chunks then multiset(KeySeq(scenarios[n], rounds)) else multiset{}
  {
    hide *;
    if chunks == 0 {
      NoChunks(scenarios, rounds, total);
      NoChunks(scenarios[..n], rounds, total);
    } else {
      OneMoreScenario(scenarios, rounds, chunks - 1, total, n);
      ChunksStep(scenarios, rounds, chunks - 1, total);
      ChunksStep(scenarios[..n], rounds, chunks - 1, total);
      ChunkStep(scenarios, rounds, chunks - 1, total, n);
    }
  }

  lemma RoundSeqStep(id: string, rounds: nat)
    ensures multiset(RoundSeq(id, rounds + 1)) == multiset(RoundSeq(id, rounds)) + multiset(LastRound(id, rounds))
  {
    var pair := [Key(id, Docker, rounds), Key(id, Lightr, rounds)];
    assert multiset(pair) == multiset(LastRound(id, rounds));
    assert RoundSeq(id, rounds + 1) == RoundSeq(id, rounds) + pair;
  }

  lemma {:induction false} RoundSeqOnce(id: string, rounds: nat)
    ensures multiset(RoundSeq(id, rounds)) == multiset(RoundKeys(id, rounds))
  {
    if rounds == 0 {
      NoRounds(id);
    } else {
      hide *;
      RoundSeqOnce(id, rounds - 1);
      RoundSeqStep(id, rounds - 1);
      RoundKeysStep(id, rounds - 1);
      Union(RoundKeys(id, rounds - 1), LastRound(id, rounds - 1));
    }
  }

  lemma KeySeqOnce(s: Scenario, rounds: nat)
    ensures multiset(KeySeq(s, rounds)) == multiset(KeysOf(s.id, s.availability, rounds))
  {
    RoundSeqOnce(s.id, rounds);
  }

  lemma {:induction false} AvailabilityKeys(scenarios: seq<Scenario>)
    ensures forall id :: id in Availabilities(scenarios) <==> exists k :: 0 <= k < |scenarios| && scenarios[k].id == id
  {
    if scenarios != [] {
      var n := |scenarios| - 1;
      AvailabilityKeys(scenarios[..n]);
    }
  }

  // Over all chunks, however many there are, every expected key is written exactly once.
  lemma {:induction false} EveryKeyOnce(scenarios: seq<Scenario>, rounds: nat, total: nat)
    requires total > 0 && DistinctIds(scenarios)
    ensures multiset(AllOutputs(scenarios, rounds, total, total)) ==
            multiset(Expected(Availabilities(scenarios), rounds))
    decreases |scenarios|
  {
    if scenarios == [] {
      NoOutput(rounds, total, total);
      assert Expected(map[], rounds) == {};
    } else {
      hide Expected, AllOutputs, KeySeq, KeysOf;
      var n := |scenarios| - 1;
      var rest, s := scenarios[..n], scenarios[n];
      EveryKeyOnce(rest, rounds, total);
      OneMoreScenario(scenarios, rounds, total, total, n);
      KeySeqOnce(s, rounds);
      LastIsNew(scenarios, n);
      ExpectedStep(Availabilities(scenarios), rounds, s.id);
      Union(Expected(Availabilities(rest), rounds), KeysOf(s.id, s.availability, rounds));
    }
  }

  lemma LastIsNew(scenarios: seq<Scenario>, n: nat)
    requires |scenarios| == n + 1 && DistinctIds(scenarios)
    ensures var s, now := scenarios[n], Availabilities(scenarios);
            s.id in now && now[s.id] == s.availability && now - {s.id} == Availabilities(scenarios[..n])
  {
    AvailabilityKeys(scenarios[..n]);
    var before := Availabilities(scenarios[..n]);
    assert scenarios[n].id !in before;
  }

  lemma {:induction false} NoOutput(rounds: nat, chunks: nat, total: nat)
    requires total > 0
    ensures AllOutputs([], rounds, chunks, total) == []
  {
    if chunks > 0 {
      NoOutput(rounds, chunks - 1, total);
    }
  }

  // ── The validator ─────────────────────────────────────────────────────────

  // One raw record. `fieldErrors` counts what the field-by-field check reports; it reports
  // something for every record that lacks a required field.
  datatype Record = Record(
    complete: bool, fieldErrors: nat, id: string, tool: Tool, round: int, availability: Availability, spec: string,
    outcome: Outcome, exitZero: bool, assertionsHold: bool, started: int, ended: int, elapsed: int)

  function KeyOf(r: Record): Key { Key(r.id, r.tool, r.round) }

  function KeysIn(records: seq<Record>): (ks: seq<Key>)
    ensures |ks| == |records| && forall i | 0 <= i < |ks| :: ks[i] == KeyOf(records[i])
  {
    seq(|records|, i requires 0 <= i < |records| => KeyOf(records[i]))
  }

  predicate Reported(r: Record) { !r.complete ==> r.fieldErrors > 0 }

  // A record that agrees with the specification in every respect.
  predicate Good(r: Record, scenarios: map<string, Availability>, rounds: nat, spec: string) {
    && r.complete && r.fieldErrors == 0 && r.id in scenarios && r.availability == scenarios[r.id]
    && r.spec == spec && r.elapsed == r.ended - r.started
    && if scenarios[r.id] == Supported then
         && (r.tool == Docker || r.tool == Lightr) && 0 <= r.round < rounds
         && r.outcome == Passed && r.exitZero && r.assertionsHold
       else
         r.tool == Skip && r.round == 0 && r.outcome == Skipped
  }

  datatype Problem = FieldError | Duplicate | AbsentScenario | Disagrees | NotPassing | NotTypedSkip | MissingRecord

  method CheckRecord(r: Record, seen: set<Key>, scenarios: map<string, Availability>, rounds: nat, spec: string)
      returns (errors: seq<Problem>, supported: set<Key>, skips: set<Key>)
    requires Reported(r)
    ensures errors == [] <==> Good(r, scenarios, rounds, spec) && KeyOf(r) !in seen
    ensures errors == [] ==> supported + skips == {KeyOf(r)} && OnlySkips(skips) && NoSkips(supported)
  {
    errors, supported, skips := [], {}, {};
    if r.fieldErrors > 0 {
      errors := errors + [FieldError];
    }
    if !r.complete {
      return;
    }
    var key := KeyOf(r);
    if key in seen {
      errors := errors + [Duplicate];
    }
    if r.id !in scenarios {
      errors := errors + [AbsentScenario];
      return;
    }
    if r.availability != scenarios[r.id] || r.spec != spec || r.elapsed != r.ended - r.started {
      errors := errors + [Disagrees];
    }
    if scenarios[r.id] == Supported {
      if !(r.tool == Docker || r.tool == Lightr) || !(0 <= r.round < rounds)
         || r.outcome != Passed || !r.exitZero || !r.assertionsHold {
        errors := errors + [NotPassing];
      }
      supported := {key};
    } else if r.tool != Skip || r.round != 0 || r.outcome != Skipped {
      errors := errors + [NotTypedSkip];
    } else {
      skips := {key};
    }
  }

  predicate OnlySkips(keys: set<Key>) { forall k | k in keys :: k.tool == Skip }
  predicate NoSkips(keys: set<Key>) { forall k | k in keys :: k.tool != Skip }

  function KeySet(records: seq<Record>): set<Key> { set r | r in records :: KeyOf(r) }

  // The loop over the records: nothing reported exactly when all are good with distinct keys.
  method CheckRecords(records: seq<Record>, scenarios: map<string, Availability>, rounds: nat, spec: string)
      returns (errors: seq<Problem>, supportedSeen: set<Key>, skipsSeen: set<Key>)
    requires forall r | r in records :: Reported(r)
    ensures errors == [] <==> (forall r | r in records :: Good(r, scenarios, rounds, spec)) && Once(KeysIn(records))
    ensures errors == [] ==>
              supportedSeen + skipsSeen == KeySet(records) && OnlySkips(skipsSeen) && NoSkips(supportedSeen)
  {
    hide Good, Once, KeyOf;
    errors, supportedSeen, skipsSeen := [], {}, {};
    var seen: set<Key> := {};
    NoRecords(records);
    for i := 0 to |records|
      invariant errors == [] <==>
                (forall r | r in records[..i] :: Good(r, scenarios, rounds, spec)) && Once(KeysIn(records[..i]))
      invariant seen <= KeySet(records[..i]) && (errors == [] ==> seen == KeySet(records[..i]))
      invariant errors == [] ==>
                  supportedSeen + skipsSeen == KeySet(records[..i]) && OnlySkips(skipsSeen) && NoSkips(supportedSeen)
    {
      var r := records[i];
      assert r in records;
      KeysNext(records, i);
      var problems, supported, skips := CheckRecord(r, seen, scenarios, rounds, spec);
      if r.complete {
        seen := seen + {KeyOf(r)};
      } else {
        Incomplete(r, scenarios, rounds, spec);
      }
      errors := errors + problems;
      supportedSeen, skipsSeen := supportedSeen + supported, skipsSeen + skips;
    }
    assert records[..|records|] == records;
  }

  lemma Incomplete(r: Record, scenarios: map<string, Availability>, rounds: nat, spec: string)
    requires !r.complete
    ensures !Good(r, scenarios, rounds, spec)
  {
  }

  lemma NoRecords(records: seq<Record>)
    ensures Once(KeysIn(records[..0])) && KeySet(records[..0]) == {}
  {
  }

  predicate Once(keys: seq<Key>) {
    forall i, j | 0 <= i < j < |keys| :: keys[i] != keys[j]
  }

  lemma KeysNext(records: seq<Record>, i: nat)
    requires i < |records|
    ensures KeySet(records[..i + 1]) == KeySet(records[..i]) + {KeyOf(records[i])}
    ensures forall r :: r in records[..i + 1] <==> r in records[..i] || r == records[i]
    ensures Once(KeysIn(records[..i + 1])) <==> Once(KeysIn(records[..i])) && KeyOf(records[i]) !in KeySet(records[..i])
  {
    assert records[..i + 1] == records[..i] + [records[i]];
    var ks, more := KeysIn(records[..i]), KeysIn(records[..i + 1]);
    assert more == ks + [KeyOf(records[i])];
    OnceAppend(ks, KeyOf(records[i]));
    KeysInSet(records[..i]);
  }

  lemma OnceAppend(ks: seq<Key>, k: Key)
    ensures Once(ks + [k]) <==> Once(ks) && k !in ks
  {
    var more := ks + [k];
    if Once(more) {
      forall a, b | 0 <= a < b < |ks| ensures ks[a] != ks[b] {
        assert more[a] != more[b];
      }
      forall a | 0 <= a < |ks| ensures ks[a] != k {
        assert more[a] != more[|ks|];
      }
    }
  }

  lemma KeysInSet(records: seq<Record>)
    ensures forall k :: k in KeysIn(records) <==> k in KeySet(records)
  {
    forall k | k in KeySet(records) ensures k in KeysIn(records) {
      var r :| r in records && KeyOf(r) == k;
      var i :| 0 <= i < |records| && records[i] == r;
      assert KeysIn(records)[i] == k;
    }
  }

  // Every key of this scenario was seen, among the kind of records it should have.
  predicate Seen(id: string, availability: Availability, rounds: nat, supportedSeen: set<Key>, skipsSeen: set<Key>) {
    KeysOf(id, availability, rounds) <= if availability == Supported then supportedSeen else skipsSeen
  }

  // The loop over the scenarios: every key that should have been seen was.
  method CheckMissing(scenarios: map<string, Availability>, rounds: nat, supportedSeen: set<Key>, skipsSeen: set<Key>)
      returns (errors: seq<Problem>)
    ensures errors == [] <==>
            forall id | id in scenarios :: Seen(id, scenarios[id], rounds, supportedSeen, skipsSeen)
  {
    errors := [];
    var left := scenarios.Keys;
    while left != {}
      invariant left <= scenarios.Keys
      invariant errors == [] <==>
                forall id | id in scenarios.Keys - left :: Seen(id, scenarios[id], rounds, supportedSeen, skipsSeen)
    {
      hide Seen;
      var id :| id in left;
      var missing := CheckScenario(id, scenarios[id], rounds, supportedSeen, skipsSeen);
      errors := errors + missing;
      assert scenarios.Keys - (left - {id}) == (scenarios.Keys - left) + {id};
      left := left - {id};
    }
  }

  method CheckScenario(id: string, availability: Availability, rounds: nat, supportedSeen: set<Key>,
                       skipsSeen: set<Key>)
      returns (errors: seq<Problem>)
    ensures errors == [] <==> Seen(id, availability, rounds, supportedSeen, skipsSeen)
  {
    hide RoundKeys;
    errors := [];
    if availability == Supported {
      NoRounds(id);
      for round := 0 to rounds
        invariant errors == [] <==> RoundKeys(id, round) <= supportedSeen
      {
        RoundKeysStep(id, round);
        if Key(id, Docker, round) !in supportedSeen {
          errors := errors + [MissingRecord];
        }
        if Key(id, Lightr, round) !in supportedSeen {
          errors := errors + [MissingRecord];
        }
      }
    } else if Key(id, Skip, 0) !in skipsSeen {
      errors := [MissingRecord];
    }
  }

  // Every record is good, and the keys are the expected ones, each once.
  ghost predicate Clean(records: seq<Record>, scenarios: map<string, Availability>, rounds: nat, spec: string) {
    && (forall r | r in records :: Good(r, scenarios, rounds, spec))
    && multiset(KeysIn(records)) == multiset(Expected(scenarios, rounds))
  }

  // validate_records: silent exactly when every record is good and the keys are the
  // expected ones, each once.
  method ValidateRecords(records: seq<Record>, scenarios: map<string, Availability>, rounds: nat, spec: string)
      returns (errors: seq<Problem>)
    requires forall r | r in records :: Reported(r)
    ensures errors == [] <==> Clean(records, scenarios, rounds, spec)
  {
    hide Good, Once, KeyOf, Expected, Seen, OnlySkips, NoSkips;
    var supportedSeen, skipsSeen;
    errors, supportedSeen, skipsSeen := CheckRecords(records, scenarios, rounds, spec);
    var missing := CheckMissing(scenarios, rounds, supportedSeen, skipsSeen);
    OnceExactly(KeysIn(records), Expected(scenarios, rounds));
    KeysInSet(records);
    if errors == [] {
      GoodKeysExpected(records, scenarios, rounds, spec);
      NothingMissing(scenarios, rounds, supportedSeen, skipsSeen, KeySet(records));
    }
    errors := errors + missing;
  }

  lemma GoodKeysExpected(records: seq<Record>, scenarios: map<string, Availability>, rounds: nat, spec: string)
    requires forall r | r in records :: Good(r, scenarios, rounds, spec)
    ensures KeySet(records) <= Expected(scenarios, rounds)
  {
    forall r | r in records ensures KeyOf(r) in Expected(scenarios, rounds) {
      assert KeyOf(r) in KeysOf(r.id, scenarios[r.id], rounds);
    }
  }

  // Every expected key was seen, exactly when the expected keys are among those recorded.
  lemma NothingMissing(scenarios: map<string, Availability>, rounds: nat, supported: set<Key>, skips: set<Key>,
                       keys: set<Key>)
    requires supported + skips == keys && OnlySkips(skips) && NoSkips(supported)
    ensures (forall id | id in scenarios :: Seen(id, scenarios[id], rounds, supported, skips)) <==>
            Expected(scenarios, rounds) <= keys
  {
    forall id | id in scenarios
      ensures KeysOf(id, scenarios[id], rounds) <= keys <==> Seen(id, scenarios[id], rounds, supported, skips)
    {
      ToolsOf(id, scenarios[id], rounds);
    }
    hide KeysOf, Seen;
    if Expected(scenarios, rounds) <= keys {
      forall id | id in scenarios ensures KeysOf(id, scenarios[id], rounds) <= keys {
        assert KeysOf(id, scenarios[id], rounds) <= Expected(scenarios, rounds);
      }
    }
  }

  lemma ToolsOf(id: string, availability: Availability, rounds: nat)
    ensures forall k | k in KeysOf(id, availability, rounds) :: k.tool == Skip <==> availability != Supported
  {
  }

  function KeysAmong(keys: seq<Key>): set<Key> { set k | k in keys }

  lemma {:induction false} OnceMultiset(keys: seq<Key>)
    requires Once(keys)
    ensures multiset(keys) == multiset(KeysAmong(keys))
  {
    if keys != [] {
      hide Once, KeysAmong;
      var n := |keys| - 1;
      assert keys == keys[..n] + [keys[n]];
      OnceAppend(keys[..n], keys[n]);
      OnceMultiset(keys[..n]);
      AmongAppend(keys[..n], keys[n]);
      Union(KeysAmong(keys[..n]), {keys[n]});
    }
  }

  lemma AmongAppend(keys: seq<Key>, k: Key)
    ensures KeysAmong(keys + [k]) == KeysAmong(keys) + {k} && (k in KeysAmong(keys) <==> k in keys)
  {
  }

  lemma OnceExactly(keys: seq<Key>, expected: set<Key>)
    ensures multiset(keys) == multiset(expected) <==> Once(keys) && forall k :: k in keys <==> k in expected
  {
    if multiset(keys) == multiset(expected) {
      forall i, j | 0 <= i < j < |keys| ensures keys[i] != keys[j] {
        assert keys == keys[..j] + keys[j..];
        assert keys[i] in keys[..j] && keys[j] in keys[j..];
        assert multiset(keys)[keys[i]] <= 1;
      }
      assert forall k :: k in keys <==> k in multiset(keys);
      assert forall k :: k in multiset(keys) <==> k in multiset(expected);
    }
    if Once(keys) && forall k :: k in keys <==> k in expected {
      OnceMultiset(keys);
      assert KeysAmong(keys) == expected;
    }
  }

  // So accepted evidence has exactly two records per round of each supported scenario and
  // one for every other.
  lemma AcceptedCount(records: seq<Record>, scenarios: map<string, Availability>, rounds: nat, spec: string)
    requires Clean(records, scenarios, rounds, spec)
    ensures |records| == ExpectedSize(rounds, |SupportedIds(scenarios)|, |scenarios.Keys|)
  {
    hide Expected, ExpectedSize, SupportedIds;
    ExpectedCount(scenarios, rounds);
    assert |multiset(KeysIn(records))| == |records|;
  }

  // From specification to verdict: for any chunk count, records with the keys the runners of
  // a valid specification write over all chunks are accepted exactly when each is good.
  lemma RunnersSatisfyTheValidator(scenarios: seq<Scenario>, isRegex: string -> bool, rounds: nat, total: nat,
                                   records: seq<Record>, spec: string)
    requires total > 0 && SpecOk(scenarios, isRegex)
    requires multiset(KeysIn(records)) == multiset(AllOutputs(scenarios, rounds, total, total))
    ensures Clean(records, Availabilities(scenarios), rounds, spec) <==>
            forall r | r in records :: Good(r, Availabilities(scenarios), rounds, spec)
    ensures forall r | r in records :: r.id in Availabilities(scenarios)
  {
    hide Good, ScenarioOk, AllOutputs;
    EveryKeyOnce(scenarios, rounds, total);
    forall r | r in records ensures r.id in Availabilities(scenarios) {
      var i :| 0 <= i < |records| && records[i] == r;
      assert KeysIn(records)[i] in multiset(KeysIn(records));
      var id :| id in Availabilities(scenarios) && KeyOf(r) in KeysOf(id, Availabilities(scenarios)[id], rounds);
      KeysCarryTheirId(id, Availabilities(scenarios)[id], rounds);
    }
  }
}
