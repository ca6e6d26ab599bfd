/**
 The snapshot-metadata codec: checksummed frames around a JSON body, and the checks each
 kind of body must pass. Hashing, JSON parsing, UTF-8 and the base64 library are functions
 of the environment.
 */
module SchemaCodec {
  import opened Options
  import opened Bytes
  import opened Base64
  import opened RefRecord

  // ── Values and the environment ────────────────────────────────────────────

  // The member names the format uses; any other name is unexpected.
  datatype Key =
    | Version | Digest | Length | Assurance | Record | Config | ImageManifest | Provenance
    | OperationId | OperationKind | RefName | RefKey | Phase | Before | After | Slot
    | ExpectedEnvelope | Retirement | Entries | GenerationDigest | Unexpected(text: string)

  // A parsed JSON value; object keys are distinct and keep their order.
  datatype Value = Null | Int(n: int) | Str(s: string) | Obj(fields: seq<(Key, Value)>) | Other(code: nat)

  type Hash = h: seq<Byte> -> seq<Byte> | forall x :: |h(x)| == 32 witness _ => seq(32, _ => 0)

  datatype Env = Env(
    hash: Hash, loads: seq<Byte> -> Option<Value>, utf8: seq<Byte> -> bool, b64: string -> Option<seq<Byte>>)

  function Ascii(s: string): (b: seq<Byte>)
    ensures |b| == |s|
  {
    if s == [] then [] else [s[0] as nat % 256] + Ascii(s[1..])
  }

  function HexDigit(v: nat): char
    requires v < 16
  {
    if v < 10 then '0' + v as char else 'a' + (v - 10) as char
  }

  function Hex(b: seq<Byte>): string {
    if b == [] then [] else [HexDigit(b[0] / 16), HexDigit(b[0] % 16)] + Hex(b[1..])
  }

  // ── Frames ────────────────────────────────────────────────────────────────

  datatype Kind = Ready | History | Pending

  function Tag(kind: Kind): (t: seq<Byte>)
    ensures |t| == 8
  {
    [0, 0, 76, 83, 73, match kind { case Ready => 82 case History => 72 case Pending => 80 }, 48, 49]
  }

  function Limit(kind: Kind): (n: nat)
    ensures n <= 1048576
  {
    match kind
    case Ready => 4096
    case History => 196608
    case Pending => 1048576
  }

  function Domain(): seq<Byte> { Ascii("lightr/snapshot-integrity/metadata/v1/") }

  function Prefix(kind: Kind, body: seq<Byte>): seq<Byte> {
    Tag(kind) + LittleEndian(|body|, 4) + body
  }

  function Frame(env: Env, kind: Kind, body: seq<Byte>): Option<seq<Byte>> {
    if |body| > Limit(kind) then None
    else Some(Prefix(kind, body) + env.hash(Domain() + Prefix(kind, body)))
  }

  // The framing half of `decode`: the body of a frame of this kind whose checksum holds.
  function Unframe(env: Env, raw: seq<Byte>, kind: Kind): Option<seq<Byte>> {
    if |raw| < 44 || raw[..8] != Tag(kind) then None
    else
      var size := FromLittleEndian(raw[8..12]);
      if size > Limit(kind) || |raw| != 44 + size then None
      else if env.hash(Domain() + raw[..|raw| - 32]) != raw[|raw| - 32..] then None
      else Some(raw[12..|raw| - 32])
  }

  // ── Body checks ───────────────────────────────────────────────────────────

  function Keys(fields: seq<(Key, Value)>): (ks: seq<Key>)
    ensures |ks| == |fields| && forall i | 0 <= i < |ks| :: ks[i] == fields[i].0
  {
    if fields == [] then [] else [fields[0].0] + Keys(fields[1..])
  }

  predicate HasFields(v: Value, expected: seq<Key>) {
    v.Obj? && multiset(Keys(v.fields)) == multiset(expected)
  }

  function At(v: Value, key: Key): Value {
    if v.Obj? then Lookup(v.fields, key) else Null
  }

  function Lookup(fields: seq<(Key, Value)>, key: Key): Value {
    if fields == [] then Null else if fields[0].0 == key then fields[0].1 else Lookup(fields[1..], key)
  }

  predicate IsU64(v: Value) { v.Int? && 0 <= v.n <= 0xFFFF_FFFF_FFFF_FFFF }

  predicate LowerHex(s: string, width: nat) {
    |s| == width && forall c | c in s :: '0' <= c <= '9' || 'a' <= c <= 'f'
  }

  predicate IsDigest(v: Value) { v.Str? && LowerHex(v.s, 64) }

  predicate NullOrDigest(v: Value) { v.Null? || IsDigest(v) }

  predicate IsRefName(s: string) {
    (forall c | c in s :: c as nat < 128) && IsName(Ascii(s))
  }

  datatype NamedResult = Bad | Absent | Present(ref: Ref)

  ghost function RecordOf(env: Env, v: Value): NamedResult {
    if v.Null? then Absent
    else if !v.Str? then Bad
    else
      var raw := Unbase(env.b64, v.s, MAX_RECORD);
      if raw.None? then Bad
      else
        var ref := Parse(env.utf8, raw.value);
        if ref.None? then Bad else Present(ref.value)
  }

  // The three pointers of one named state.
  ghost function Named(env: Env, record: Value, config: Value, manifest: Value): NamedResult {
    var ref := RecordOf(env, record);
    if ref.Bad? || !NullOrDigest(config) || !NullOrDigest(manifest) then Bad
    else if ref.Absent? && !(config.Null? && manifest.Null?) then Bad
    else ref
  }

  const NAMED_KEYS: seq<Key> := [Record, Config, ImageManifest]

  ghost function NamedObject(env: Env, v: Value): NamedResult {
    if !HasFields(v, NAMED_KEYS) then Bad
    else Named(env, At(v, Record), At(v, Config), At(v, ImageManifest))
  }

  predicate VersionOne(v: Value) { At(v, Version) == Int(1) }

  predicate OneOf(v: Value, choices: set<string>) { v.Str? && v.s in choices }

  const READY_KEYS: seq<Key> := [Version, Digest, Length, Assurance]

  predicate ReadyCheck(v: Value) {
    && HasFields(v, READY_KEYS)
    && IsDigest(At(v, Digest)) && IsU64(At(v, Length))
    && OneOf(At(v, Assurance), {"unix-file-directory-v1", "windows-file-v1"})
    && VersionOne(v)
  }

  const HISTORY_KEYS: seq<Key> := [Version, Record, Config, ImageManifest, Provenance]

  ghost predicate HistoryCheck(env: Env, v: Value) {
    && HasFields(v, HISTORY_KEYS)
    && Named(env, At(v, Record), At(v, Config), At(v, ImageManifest)).Present?
    && OneOf(At(v, Provenance), {"COMMITTED", "ADOPTED_BASELINE"})
    && VersionOne(v)
  }

  const PENDING_KEYS: seq<Key> :=
    [Version, OperationId, OperationKind, RefName, RefKey, Phase, Before, After, Slot,
     ExpectedEnvelope, Retirement]

  const OPERATIONS: set<string> :=
    {"SNAPSHOT", "BUILD", "IMPORT", "PULL", "LOAD", "TAG", "UNDO", "UNTAG", "ADOPT", "METADATA"}

  ghost function DecodeHistory(env: Env, raw: seq<Byte>): Option<Value> {
    var body := Unframe(env, raw, History);
    if body.None? then None
    else
      var value := env.loads(body.value);
      if value.Some? && HistoryCheck(env, value.value) then value else None
  }

  const RETIREMENT_KEYS: seq<Key> := [Entries, GenerationDigest]

  predicate RetirementCheck(v: Value) {
    HasFields(v, RETIREMENT_KEYS) && IsU64(At(v, Entries)) && IsDigest(At(v, GenerationDigest))
  }

  function ProvenanceFor(operation: Value): string {
    if operation == Str("ADOPT") then "ADOPTED_BASELINE" else "COMMITTED"
  }

  // The envelope of a publishing record frames a history of exactly the `after` pointers.
  ghost predicate EnvelopeCheck(env: Env, v: Value) {
    && At(v, ExpectedEnvelope).Str?
    && var frame := Unbase(env.b64, At(v, ExpectedEnvelope).s, Limit(History) + 44);
    && frame.Some?
    && var hist := DecodeHistory(env, frame.value);
    && hist.Some?
    && (forall k | k in NAMED_KEYS :: At(hist.value, k) == At(At(v, After), k))
    && At(hist.value, Provenance) == Str(ProvenanceFor(At(v, OperationKind)))
  }

  ghost predicate TransitionCheck(env: Env, v: Value, before: NamedResult, after: NamedResult) {
    && (OneOf(At(v, OperationKind), {"UNDO", "ADOPT"}) ==> before.Present?)
    && if At(v, OperationKind) == Str("UNTAG") then
         && before.Present? && after.Absent?
         && At(v, Slot).Null? && At(v, ExpectedEnvelope).Null? && RetirementCheck(At(v, Retirement))
       else
         && after.Present? && At(v, Retirement).Null? && IsU64(At(v, Slot)) && EnvelopeCheck(env, v)
  }

  ghost predicate HeaderCheck(env: Env, v: Value) {
    && HasFields(v, PENDING_KEYS)
    && At(v, OperationId).Str? && LowerHex(At(v, OperationId).s, 32)
    && OneOf(At(v, OperationKind), OPERATIONS)
    && At(v, RefName).Str? && IsRefName(At(v, RefName).s)
    && IsDigest(At(v, RefKey))
    && Hex(env.hash(Ascii("lightr/ref/v1/") + Ascii(At(v, RefName).s))) == At(v, RefKey).s
    && OneOf(At(v, Phase), {"PREPARED", "COMMIT_DECIDED"})
  }

  function RefText(v: Value): string { if At(v, RefName).Str? then At(v, RefName).s else "" }

  // A present reference carries the record's name.
  predicate NameMatches(ref: NamedResult, name: string) {
    !ref.Bad? && (ref.Present? ==> ref.ref.name == Ascii(name))
  }

  ghost predicate PendingCheck(env: Env, v: Value) {
    && HeaderCheck(env, v)
    && var before, after := NamedObject(env, At(v, Before)), NamedObject(env, At(v, After));
    && NameMatches(before, RefText(v)) && NameMatches(after, RefText(v))
    && TransitionCheck(env, v, before, after)
    && VersionOne(v)
  }

  ghost predicate BodyCheck(env: Env, kind: Kind, v: Value) {
    match kind
    case Ready => ReadyCheck(v)
    case History => HistoryCheck(env, v)
    case Pending => PendingCheck(env, v)
  }

  ghost function Decode(env: Env, raw: seq<Byte>, kind: Kind): Option<Value> {
    var body := Unframe(env, raw, kind);
    if body.None? then None
    else
      var value := env.loads(body.value);
      if value.Some? && BodyCheck(env, kind, value.value) then value else None
  }

  // ── Frames and bytes ──────────────────────────────────────────────────────

  lemma FrameParts(env: Env, kind: Kind, body: seq<Byte>)
    requires |body| <= Limit(kind)
    ensures var raw := Frame(env, kind, body).value;
            && |raw| == 44 + |body| && raw[..8] == Tag(kind) && raw[8..12] == LittleEndian(|body|, 4)
            && raw[12..|raw| - 32] == body && raw[..|raw| - 32] == Prefix(kind, body)
            && raw[|raw| - 32..] == env.hash(Domain() + Prefix(kind, body))
  {
    hide LittleEndian, Domain, Tag;
    var raw := Frame(env, kind, body).value;
    assert raw[..|raw| - 32] == Prefix(kind, body);
  }

  lemma PrefixOf(raw: seq<Byte>, kind: Kind)
    requires |raw| >= 44 && raw[..8] == Tag(kind) && |raw| == 44 + FromLittleEndian(raw[8..12])
    ensures raw[..|raw| - 32] == Prefix(kind, raw[12..|raw| - 32])
  {
    FromLittleEndianInverts(raw[8..12]);
    hide LittleEndian, FromLittleEndian, Tag;
    var n := |raw| - 32;
    assert raw[..n] == raw[..8] + raw[8..12] + raw[12..n];
  }

  // Unframing a byte string succeeds exactly on the frames of bodies within the limit.
  lemma UnframeExact(env: Env, raw: seq<Byte>, kind: Kind, body: seq<Byte>)
    ensures Unframe(env, raw, kind) == Some(body) <==> Frame(env, kind, body) == Some(raw)
  {
    hide LittleEndian, FromLittleEndian, Domain, Tag, Prefix;
    if Frame(env, kind, body) == Some(raw) {
      FrameParts(env, kind, body);
      Powers256();
      LittleEndianInverts(|body|, 4);
    }
    if Unframe(env, raw, kind) == Some(body) {
      PrefixOf(raw, kind);
      assert raw == raw[..|raw| - 32] + raw[|raw| - 32..];
    }
  }

  // The body parses and passes the check of its kind.
  ghost predicate Sound(env: Env, kind: Kind, body: seq<Byte>) {
    env.loads(body).Some? && BodyCheck(env, kind, env.loads(body).value)
  }

  // decode accepts a byte string exactly when it is the frame of a valid body in bounds.
  lemma DecodeExact(env: Env, raw: seq<Byte>, kind: Kind)
    ensures Decode(env, raw, kind).Some? <==>
            exists body :: Frame(env, kind, body) == Some(raw) && Sound(env, kind, body)
    ensures Decode(env, raw, kind).Some? ==>
            var body := Unframe(env, raw, kind).value;
            Frame(env, kind, body) == Some(raw) && env.loads(body) == Decode(env, raw, kind)
  {
    hide Frame, Unframe, BodyCheck;
    if Decode(env, raw, kind).Some? {
      var body := Unframe(env, raw, kind).value;
      UnframeExact(env, raw, kind, body);
      assert Frame(env, kind, body) == Some(raw) && Sound(env, kind, body);
    }
    forall body | Frame(env, kind, body) == Some(raw) && Sound(env, kind, body)
      ensures Decode(env, raw, kind).Some?
    {
      UnframeExact(env, raw, kind, body);
    }
  }

  lemma DecodeFrame(env: Env, kind: Kind, body: seq<Byte>)
    requires |body| <= Limit(kind) && env.loads(body).Some? && BodyCheck(env, kind, env.loads(body).value)
    ensures Frame(env, kind, body).Some? && Decode(env, Frame(env, kind, body).value, kind) == env.loads(body)
  {
    hide Unframe, BodyCheck;
    UnframeExact(env, Frame(env, kind, body).value, kind, body);
  }

  lemma TagsDiffer(k: Kind, l: Kind)
    ensures Tag(k) == Tag(l) <==> k == l
  {
    assert Tag(Ready)[5] == 82 && Tag(History)[5] == 72 && Tag(Pending)[5] == 80;
  }

  // No accepted frame starts another accepted frame, of its own kind or any other.
  lemma FramesArePrefixFree(env: Env, raw: seq<Byte>, k: Kind, other: seq<Byte>, l: Kind)
    requires Decode(env, raw, k).Some? && Decode(env, other, l).Some? && raw <= other
    ensures raw == other && k == l
  {
    hide BodyCheck, Domain, Tag, Limit;
    TagsDiffer(k, l);
    assert other[..8] == raw[..8];
    assert other[8..12] == raw[8..12];
  }

  // A frame is never read as a reference record.
  lemma FramesAreNotRecords(env: Env, raw: seq<Byte>, kind: Kind)
    requires Decode(env, raw, kind).Some?
    ensures Parse(env.utf8, raw) == None
  {
    hide BodyCheck, Parse, Domain;
    assert raw[..8][0] == 0 && raw[..8][1] == 0;
    FrameTagsAreNotRecords(env.utf8, raw);
  }

  // ── What an accepted publishing record carries ────────────────────────────

  // The text is the canonical form of a framed history body that holds these pointers.
  ghost predicate Publishes(env: Env, text: string, after: Value, body: seq<Byte>) {
    && Frame(env, History, body).Some? && text == Encode(Frame(env, History, body).value)
    && Holds(env, env.loads(body), after)
  }

  // The body parses as a history with the three pointers of `after`.
  ghost predicate Holds(env: Env, hist: Option<Value>, after: Value) {
    && hist.Some? && HistoryCheck(env, hist.value)
    && forall k | k in NAMED_KEYS :: At(hist.value, k) == At(after, k)
  }

  lemma EnvelopeOpens(env: Env, v: Value, text: string, after: Value)
    requires Undoes(env.b64) && EnvelopeCheck(env, v) && At(v, ExpectedEnvelope) == Str(text) && after == At(v, After)
    ensures exists body :: Publishes(env, text, after, body)
  {
    hide Undoes, Unbase, Unframe, Frame, HistoryCheck, Encode, At;
    var raw := Unbase(env.b64, text, Limit(History) + 44).value;
    UnbaseExact(env.b64, text, Limit(History) + 44, raw);
    var body := Unframe(env, raw, History).value;
    UnframeExact(env, raw, History, body);
    assert Publishes(env, text, after, body);
  }

  lemma PublishingHasEnvelope(env: Env, v: Value)
    requires PendingCheck(env, v) && At(v, OperationKind) != Str("UNTAG")
    ensures EnvelopeCheck(env, v) && At(v, ExpectedEnvelope).Str?
  {
    hide At, NamedObject, HeaderCheck, Ascii, DecodeHistory, Unbase, RetirementCheck;
  }

  // The envelope of an accepted publishing record is the canonical text of one framed
  // history, and that history holds exactly the three pointers the record publishes.
  lemma EnvelopePublishesAfter(env: Env, v: Value)
    requires Undoes(env.b64) && PendingCheck(env, v) && At(v, OperationKind) != Str("UNTAG")
    ensures At(v, ExpectedEnvelope).Str?
    ensures exists body :: Publishes(env, At(v, ExpectedEnvelope).s, At(v, After), body)
  {
    hide *;
    PublishingHasEnvelope(env, v);
    EnvelopeOpens(env, v, At(v, ExpectedEnvelope).s, At(v, After));
  }
}
