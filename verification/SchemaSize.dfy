/**
 Every body that passes its check fits its frame: the size of the compact printing of an
 accepted object, whatever order its members are in.
 */
module SchemaSize {
  import opened Options
  import opened Bytes
  import opened Base64
  import opened RefRecord
  import opened SchemaCodec

  // ── Compact printing ──────────────────────────────────────────────────────

  // How the JSON library writes one character of a string, and values the format never uses.
  datatype Printer = Printer(escape: char -> string, other: nat -> string)

  predicate PlainChar(c: char) {
    ' ' <= c <= '~' && c != '"' && c != '\\'
  }

  ghost predicate KeepsPlain(p: Printer) {
    forall c | PlainChar(c) :: p.escape(c) == [c]
  }

  function Spelling(k: Key): string {
    match k
    case Version => "version"
    case Digest => "digest"
    case Length => "length"
    case Assurance => "assurance"
    case Record => "record"
    case Config => "config"
    case ImageManifest => "image_manifest"
    case Provenance => "provenance"
    case OperationId => "operation_id"
    case OperationKind => "operation_kind"
    case RefName => "ref_name"
    case RefKey => "ref_key"
    case Phase => "phase"
    case Before => "before"
    case After => "after"
    case Slot => "slot"
    case ExpectedEnvelope => "expected_envelope"
    case Retirement => "retirement"
    case Entries => "entries"
    case GenerationDigest => "generation_digest"
    case Unexpected(text) => text
  }

  function Digits(n: nat): string {
    (if n < 10 then [] else Digits(n / 10)) + ['0' + (n % 10) as char]
  }

  function Escaped(p: Printer, s: string): string {
    if s == [] then [] else p.escape(s[0]) + Escaped(p, s[1..])
  }

  function Quoted(p: Printer, s: string): string {
    "\"" + Escaped(p, s) + "\""
  }

  function Compact(p: Printer, v: Value): string
    decreases v, if v.Obj? then |v.fields| + 1 else 0
  {
    match v
    case Null => "null"
    case Int(n) => if n < 0 then "-" + Digits(-n) else Digits(n)
    case Str(s) => Quoted(p, s)
    case Obj(fields) => "{" + Members(p, v, 0) + "}"
    case Other(code) => p.other(code)
  }

  // The members of an object from the i-th on, joined by commas.
  function Members(p: Printer, v: Value, i: nat): string
    requires v.Obj? && i <= |v.fields|
    decreases v, |v.fields| - i
  {
    if i == |v.fields| then []
    else
      (if i == 0 then "" else ",") + Quoted(p, Spelling(v.fields[i].0)) + ":" + Compact(p, v.fields[i].1)
      + Members(p, v, i + 1)
  }

  // ── Sizes of the parts ────────────────────────────────────────────────────

  predicate PlainText(s: string) {
    forall c | c in s :: PlainChar(c)
  }

  lemma {:induction false} QuotedSize(p: Printer, s: string)
    requires KeepsPlain(p) && PlainText(s)
    ensures Escaped(p, s) == s && |Quoted(p, s)| == |s| + 2
  {
    if s != [] {
      QuotedSize(p, s[1..]);
      assert p.escape(s[0]) == [s[0]];
    }
  }

  function Pow(w: nat): nat {
    if w == 0 then 1 else 10 * Pow(w - 1)
  }

  lemma {:induction false} DigitsSize(n: nat, w: nat)
    requires w >= 1 && n < Pow(w)
    ensures |Digits(n)| <= w
  {
    if n >= 10 {
      DigitsSize(n / 10, w - 1);
    }
  }

  lemma U64Size(p: Printer, v: Value)
    requires IsU64(v)
    ensures |Compact(p, v)| <= 20
  {
    assert Pow(3) == 1000 && Pow(6) == 1000 * Pow(3) && Pow(9) == 1000 * Pow(6) && Pow(12) == 1000 * Pow(9);
    assert Pow(15) == 1000 * Pow(12) && Pow(18) == 1000 * Pow(15) && Pow(20) == 100 * Pow(18);
    DigitsSize(v.n, 20);
  }

  lemma HexIsPlain(s: string, w: nat)
    requires LowerHex(s, w)
    ensures PlainText(s)
  {
  }

  lemma DigestSize(p: Printer, v: Value)
    requires KeepsPlain(p) && NullOrDigest(v)
    ensures |Compact(p, v)| <= 66
  {
    if v.Str? {
      HexIsPlain(v.s, 64);
      QuotedSize(p, v.s);
    }
  }

  lemma {:induction false} EncodingIsPlain(x: seq<Byte>)
    ensures PlainText(Encode(x))
  {
    forall n: nat | n < 64 ensures PlainChar(Letter(n)) {
    }
    if |x| >= 3 {
      EncodingIsPlain(x[3..]);
    }
  }

  // Accepted base64 text of at most `limit` bytes.
  lemma Base64Size(p: Printer, dec: string -> Option<seq<Byte>>, text: string, limit: nat)
    requires KeepsPlain(p) && Undoes(dec) && Unbase(dec, text, limit).Some?
    ensures |Compact(p, Str(text))| <= 4 * ((limit + 2) / 3) + 2
  {
    hide Undoes, KeepsPlain, Encode;
    var raw := Unbase(dec, text, limit).value;
    UnbaseExact(dec, text, limit, raw);
    EncodingIsPlain(raw);
    EncodeLength(raw);
    QuotedSize(p, text);
  }

  lemma SpellingSize(p: Printer, k: Key)
    requires KeepsPlain(p) && !k.Unexpected?
    ensures |Quoted(p, Spelling(k))| <= 19
  {
    assert PlainText(Spelling(k)) && |Spelling(k)| <= 17;
    hide Spelling, PlainText, KeepsPlain;
    QuotedSize(p, Spelling(k));
  }

  // ── Objects ───────────────────────────────────────────────────────────────

  const RECORD_TEXT: nat := 174866      // a quoted base64 reference record
  const ENVELOPE_TEXT: nat := 262206    // a quoted base64 history frame

  // How long the printed value of a member may be.
  function BoundOf(k: Key): nat {
    match k
    case Record => RECORD_TEXT
    case ExpectedEnvelope => ENVELOPE_TEXT
    case Before => 175100
    case After => 175100
    case Retirement => 200
    case RefName => 100
    case _ => 66
  }

  // Room for the members: 19 for a quoted name, a colon, a comma, and the value.
  function Room(keys: seq<Key>): nat {
    if keys == [] then 0 else 21 + BoundOf(keys[0]) + Room(keys[1..])
  }

  lemma {:induction false} RoomSplit(a: seq<Key>, b: seq<Key>)
    ensures Room(a + b) == Room(a) + Room(b)
  {
    hide BoundOf;
    if a == [] {
      assert a + b == b;
    } else {
      assert (a + b)[1..] == a[1..] + b;
      RoomSplit(a[1..], b);
    }
  }

  lemma RoomCons(k: Key, ks: seq<Key>)
    ensures Room([k] + ks) == 21 + BoundOf(k) + Room(ks)
  {
    hide BoundOf;
    assert ([k] + ks)[1..] == ks;
  }

  lemma RoomOut(b: seq<Key>, i: nat)
    requires i < |b|
    ensures Room(b) == 21 + BoundOf(b[i]) + Room(b[..i] + b[i + 1..])
  {
    hide BoundOf, Room;
    var tail := [b[i]] + b[i + 1..];
    assert b == b[..i] + tail;
    RoomSplit(b[..i], tail);
    RoomSplit(b[..i], b[i + 1..]);
    RoomCons(b[i], b[i + 1..]);
  }

  lemma KeysOut(b: seq<Key>, i: nat)
    requires i < |b|
    ensures multiset(b[..i] + b[i + 1..]) == multiset(b) - multiset{b[i]}
  {
    assert b == b[..i] + [b[i]] + b[i + 1..];
  }

  // The order of the members does not matter.
  lemma {:induction false} RoomIgnoresOrder(a: seq<Key>, b: seq<Key>)
    requires multiset(a) == multiset(b)
    ensures Room(a) == Room(b)
    decreases |a|
  {
    if a == [] {
      assert |b| == |multiset(b)| == 0;
    } else {
      hide Room, BoundOf;
      var k, rest := a[0], a[1..];
      assert a == [k] + rest;
      RoomCons(k, rest);
      var b' := WithoutKey(b, k, rest);
      RoomIgnoresOrder(rest, b');
    }
  }

  // b, which holds k and the keys of rest, with one k taken out.
  lemma WithoutKey(b: seq<Key>, k: Key, rest: seq<Key>) returns (b': seq<Key>)
    requires multiset(b) == multiset([k] + rest)
    ensures multiset(b') == multiset(rest) && Room(b) == 21 + BoundOf(k) + Room(b')
  {
    hide Room, BoundOf;
    assert multiset([k] + rest) == multiset{k} + multiset(rest);
    assert k in multiset(b);
    var i :| 0 <= i < |b| && b[i] == k;
    b' := b[..i] + b[i + 1..];
    KeysOut(b, i);
    RoomOut(b, i);
  }

  predicate Distinct(keys: seq<Key>) {
    forall i, j | 0 <= i < j < |keys| :: keys[i] != keys[j]
  }

  lemma SameKeysDistinct(a: seq<Key>, b: seq<Key>)
    requires multiset(a) == multiset(b) && Distinct(b)
    ensures Distinct(a)
  {
    forall i, j | 0 <= i < j < |a| ensures a[i] != a[j] {
      if a[i] == a[j] {
        Repeated(a, i, j);
        OnlyOnce(b, a[i]);
      }
    }
  }

  lemma Repeated(a: seq<Key>, i: nat, j: nat)
    requires i < j < |a| && a[i] == a[j]
    ensures multiset(a)[a[i]] >= 2
  {
    assert a == a[..j] + a[j..];
    assert a[i] in a[..j] && a[j] in a[j..];
  }

  lemma {:induction false} OnlyOnce(b: seq<Key>, k: Key)
    requires Distinct(b)
    ensures multiset(b)[k] <= 1
  {
    if b != [] {
      assert b == [b[0]] + b[1..];
      OnlyOnce(b[1..], k);
      if k == b[0] {
        assert k !in b[1..];
      }
    }
  }

  lemma {:induction false} LookupAt(fields: seq<(Key, Value)>, i: nat)
    requires i < |fields| && Distinct(Keys(fields))
    ensures Lookup(fields, fields[i].0) == fields[i].1
  {
    if i > 0 {
      assert Keys(fields)[0] != Keys(fields)[i];
      assert Keys(fields)[1..] == Keys(fields[1..]);
      LookupAt(fields[1..], i - 1);
    }
  }

  // A member of v is no longer than its bound says.
  predicate Fits(p: Printer, v: Value, k: Key) {
    |Compact(p, At(v, k))| <= BoundOf(k)
  }

  predicate AllFit(p: Printer, v: Value, keys: seq<Key>) {
    forall i | 0 <= i < |keys| :: Fits(p, v, keys[i])
  }

  predicate Expected(keys: seq<Key>) {
    Distinct(keys) && forall i | 0 <= i < |keys| :: !keys[i].Unexpected?
  }

  lemma {:induction false} MembersFit(p: Printer, v: Value, keys: seq<Key>, i: nat)
    requires KeepsPlain(p) && HasFields(v, keys) && Expected(keys) && AllFit(p, v, keys) && i <= |v.fields|
    ensures |Members(p, v, i)| <= Room(Keys(v.fields)[i..])
    decreases |v.fields| - i
  {
    hide KeepsPlain, Spelling, Compact, Quoted, BoundOf;
    if i < |v.fields| {
      var ks := Keys(v.fields);
      assert ks[i] in multiset(ks);
      assert ks[i] in keys;
      SameKeysDistinct(ks, keys);
      LookupAt(v.fields, i);
      SpellingSize(p, ks[i]);
      MembersFit(p, v, keys, i + 1);
      assert ks[i..][1..] == ks[i + 1..];
    }
  }

  lemma ObjectFits(p: Printer, v: Value, keys: seq<Key>)
    requires KeepsPlain(p) && HasFields(v, keys) && Expected(keys) && AllFit(p, v, keys)
    ensures |Compact(p, v)| <= 2 + Room(keys)
  {
    hide KeepsPlain, Members, AllFit, Expected;
    MembersFit(p, v, keys, 0);
    assert Keys(v.fields)[0..] == Keys(v.fields);
    RoomIgnoresOrder(Keys(v.fields), keys);
  }

  // ── Accepted bodies ───────────────────────────────────────────────────────

  lemma RecordFits(p: Printer, env: Env, v: Value)
    requires KeepsPlain(p) && Undoes(env.b64) && !RecordOf(env, v).Bad?
    ensures |Compact(p, v)| <= RECORD_TEXT
  {
    hide KeepsPlain, Undoes, Parse, Unbase;
    if v.Str? {
      Base64Size(p, env.b64, v.s, MAX_RECORD);
    }
  }

  lemma ChoiceFits(p: Printer, v: Value, choices: set<string>)
    requires KeepsPlain(p) && OneOf(v, choices) && forall s | s in choices :: PlainText(s) && |s| <= 64
    ensures |Compact(p, v)| <= 66
  {
    hide KeepsPlain;
    QuotedSize(p, v.s);
  }

  // The member checks of a named state bound its printed members.
  lemma NamedFits(p: Printer, env: Env, v: Value)
    requires KeepsPlain(p) && Undoes(env.b64) && !Named(env, At(v, Record), At(v, Config), At(v, ImageManifest)).Bad?
    ensures Fits(p, v, Record) && Fits(p, v, Config) && Fits(p, v, ImageManifest)
  {
    hide KeepsPlain, Undoes, RecordOf, NullOrDigest, Compact, At;
    RecordFits(p, env, At(v, Record));
    DigestSize(p, At(v, Config));
    DigestSize(p, At(v, ImageManifest));
  }

  lemma VersionFits(p: Printer, v: Value)
    requires VersionOne(v)
    ensures Fits(p, v, Version)
  {
    U64Size(p, At(v, Version));
  }

  lemma NamedRoom()
    ensures Expected(NAMED_KEYS) && Room(NAMED_KEYS) <= 175098
  {
    RoomCons(Record, [Config, ImageManifest]);
  }

  lemma NamedObjectFits(p: Printer, env: Env, v: Value)
    requires KeepsPlain(p) && Undoes(env.b64) && !NamedObject(env, v).Bad?
    ensures |Compact(p, v)| <= 175100
  {
    hide KeepsPlain, Undoes, Named, HasFields, Compact, At, Fits, Room, Expected;
    NamedFits(p, env, v);
    NamedRoom();
    ObjectFits(p, v, NAMED_KEYS);
  }

  lemma HistoryRoom()
    ensures Expected(HISTORY_KEYS) && Room(HISTORY_KEYS) <= 175300
  {
    assert HISTORY_KEYS == [Version] + ([Record] + [Config, ImageManifest, Provenance]);
    RoomCons(Version, [Record] + [Config, ImageManifest, Provenance]);
    RoomCons(Record, [Config, ImageManifest, Provenance]);
    RoomCons(Config, [ImageManifest, Provenance]);
  }

  lemma PlainProvenances()
    ensures PlainText("COMMITTED") && PlainText("ADOPTED_BASELINE")
  {
  }

  lemma ProvenanceFits(p: Printer, v: Value)
    requires KeepsPlain(p) && OneOf(At(v, Provenance), {"COMMITTED", "ADOPTED_BASELINE"})
    ensures Fits(p, v, Provenance)
  {
    hide KeepsPlain, Compact, At, PlainText;
    PlainProvenances();
    ChoiceFits(p, At(v, Provenance), {"COMMITTED", "ADOPTED_BASELINE"});
  }

  // A history that passes its check fits a history frame.
  lemma HistoryFits(p: Printer, env: Env, v: Value)
    requires KeepsPlain(p) && Undoes(env.b64) && HistoryCheck(env, v)
    ensures |Compact(p, v)| <= Limit(History)
  {
    hide KeepsPlain, Undoes, Named, HasFields, Compact, At, OneOf, VersionOne, Fits, Room, Expected;
    NamedFits(p, env, v);
    VersionFits(p, v);
    ProvenanceFits(p, v);
    HistoryRoom();
    ObjectFits(p, v, HISTORY_KEYS);
  }

  lemma ReadyRoom()
    ensures Expected(READY_KEYS) && Room(READY_KEYS) <= 400
  {
    assert READY_KEYS == [Version] + ([Digest] + [Length, Assurance]);
    RoomCons(Version, [Digest] + [Length, Assurance]);
    RoomCons(Digest, [Length, Assurance]);
  }

  lemma PlainAssurances()
    ensures PlainText("unix-file-directory-v1") && PlainText("windows-file-v1")
  {
  }

  lemma AssuranceFits(p: Printer, v: Value)
    requires KeepsPlain(p) && OneOf(At(v, Assurance), {"unix-file-directory-v1", "windows-file-v1"})
    ensures Fits(p, v, Assurance)
  {
    hide KeepsPlain, Compact, At, PlainText;
    PlainAssurances();
    ChoiceFits(p, At(v, Assurance), {"unix-file-directory-v1", "windows-file-v1"});
  }

  lemma DigestAndLengthFit(p: Printer, v: Value)
    requires KeepsPlain(p) && IsDigest(At(v, Digest)) && IsU64(At(v, Length))
    ensures Fits(p, v, Digest) && Fits(p, v, Length)
  {
    hide KeepsPlain, Compact, At, IsU64, IsDigest;
    DigestSize(p, At(v, Digest));
    U64Size(p, At(v, Length));
  }

  lemma ReadyFits(p: Printer, v: Value)
    requires KeepsPlain(p) && ReadyCheck(v)
    ensures |Compact(p, v)| <= Limit(Ready)
  {
    hide KeepsPlain, HasFields, Compact, At, OneOf, VersionOne, IsU64, IsDigest, Fits, Room, Expected;
    VersionFits(p, v);
    DigestAndLengthFit(p, v);
    AssuranceFits(p, v);
    ReadyRoom();
    ObjectFits(p, v, READY_KEYS);
  }

  lemma RetirementRoom()
    ensures Expected(RETIREMENT_KEYS) && Room(RETIREMENT_KEYS) <= 190
  {
  }

  lemma RetirementFits(p: Printer, v: Value)
    requires KeepsPlain(p) && (v.Null? || RetirementCheck(v))
    ensures |Compact(p, v)| <= 200
  {
    if v.Obj? {
      assert AllFit(p, v, RETIREMENT_KEYS) by {
        hide KeepsPlain, HasFields, Compact, At, IsU64, IsDigest;
        U64Size(p, At(v, Entries));
        DigestSize(p, At(v, GenerationDigest));
      }
      hide KeepsPlain, HasFields, Compact, At, IsU64, IsDigest, AllFit, Room, Expected;
      RetirementRoom();
      ObjectFits(p, v, RETIREMENT_KEYS);
    }
  }

  lemma {:induction false} AsciiAt(s: string, i: nat)
    requires i < |s|
    ensures Ascii(s)[i] == s[i] as nat % 256
  {
    if i > 0 {
      AsciiAt(s[1..], i - 1);
    }
  }

  lemma NameByte(b: seq<Byte>, i: nat)
    requires IsName(b) && i < |b|
    ensures 45 <= b[i] <= 122 && b[i] != 92
  {
    if b[0] == 64 {
      var k := Find(b, 47);
      if i > k {
        assert b[i] == b[k + 1..][i - k - 1];
        assert b[i] in b[k + 1..];
      } else if 0 < i < k {
        assert b[i] == b[1..k][i - 1];
        assert b[i] in b[1..k];
      }
    } else {
      assert b[i] in b;
    }
  }

  lemma NameIsPlainText(s: string)
    requires IsRefName(s)
    ensures PlainText(s)
  {
    hide IsName, Ascii;
    forall c | c in s ensures PlainChar(c) {
      var i :| 0 <= i < |s| && s[i] == c;
      AsciiAt(s, i);
      NameByte(Ascii(s), i);
    }
  }

  lemma NameFits(p: Printer, v: Value)
    requires KeepsPlain(p) && At(v, RefName).Str? && IsRefName(At(v, RefName).s)
    ensures Fits(p, v, RefName)
  {
    hide KeepsPlain, IsName, At;
    var s := At(v, RefName).s;
    NameLength(Ascii(s));
    NameIsPlainText(s);
    QuotedSize(p, s);
  }

  lemma OperationIdFits(p: Printer, v: Value)
    requires KeepsPlain(p) && At(v, OperationId).Str? && LowerHex(At(v, OperationId).s, 32)
    ensures Fits(p, v, OperationId)
  {
    hide KeepsPlain, At;
    HexIsPlain(At(v, OperationId).s, 32);
    QuotedSize(p, At(v, OperationId).s);
  }

  lemma OperationsArePlain()
    ensures forall s | s in OPERATIONS :: PlainText(s) && |s| <= 64
  {
    assert PlainText("SNAPSHOT") && PlainText("BUILD") && PlainText("IMPORT") && PlainText("PULL") && PlainText("LOAD");
    assert PlainText("TAG") && PlainText("UNDO") && PlainText("UNTAG") && PlainText("ADOPT") && PlainText("METADATA");
    hide PlainText;
  }

  lemma OperationKindFits(p: Printer, v: Value)
    requires KeepsPlain(p) && OneOf(At(v, OperationKind), OPERATIONS)
    ensures Fits(p, v, OperationKind)
  {
    OperationsArePlain();
    hide KeepsPlain, Compact, At, PlainText, OneOf;
    ChoiceFits(p, At(v, OperationKind), OPERATIONS);
  }

  lemma PlainPhases()
    ensures PlainText("PREPARED") && PlainText("COMMIT_DECIDED")
  {
  }

  lemma PhaseFits(p: Printer, v: Value)
    requires KeepsPlain(p) && OneOf(At(v, Phase), {"PREPARED", "COMMIT_DECIDED"})
    ensures Fits(p, v, Phase)
  {
    hide KeepsPlain, Compact, At, PlainText;
    PlainPhases();
    ChoiceFits(p, At(v, Phase), {"PREPARED", "COMMIT_DECIDED"});
  }

  lemma RefKeyFits(p: Printer, v: Value)
    requires KeepsPlain(p) && IsDigest(At(v, RefKey))
    ensures Fits(p, v, RefKey)
  {
    hide KeepsPlain, Compact, At, IsDigest;
    DigestSize(p, At(v, RefKey));
  }

  lemma HeaderFits(p: Printer, env: Env, v: Value)
    requires KeepsPlain(p) && HeaderCheck(env, v)
    ensures Fits(p, v, OperationId) && Fits(p, v, OperationKind) && Fits(p, v, RefName) && Fits(p, v, RefKey)
    ensures Fits(p, v, Phase)
  {
    hide KeepsPlain, HasFields, At, Hex, Ascii, IsRefName, LowerHex, OneOf, IsDigest, Fits;
    OperationIdFits(p, v);
    OperationKindFits(p, v);
    NameFits(p, v);
    RefKeyFits(p, v);
    PhaseFits(p, v);
  }

  lemma EnvelopeText(env: Env, v: Value)
    requires EnvelopeCheck(env, v)
    ensures At(v, ExpectedEnvelope).Str? && Unbase(env.b64, At(v, ExpectedEnvelope).s, Limit(History) + 44).Some?
  {
    hide At, Unbase, DecodeHistory;
  }

  lemma SlotFits(p: Printer, v: Value)
    requires At(v, Slot).Null? || IsU64(At(v, Slot))
    ensures Fits(p, v, Slot)
  {
    if !At(v, Slot).Null? {
      U64Size(p, At(v, Slot));
    }
  }

  lemma EnvelopeFits(p: Printer, env: Env, v: Value)
    requires KeepsPlain(p) && Undoes(env.b64) && (At(v, ExpectedEnvelope).Null? || EnvelopeCheck(env, v))
    ensures Fits(p, v, ExpectedEnvelope)
  {
    hide KeepsPlain, Undoes, EnvelopeCheck, At, Unbase, Compact;
    if At(v, ExpectedEnvelope).Null? {
      NullFits(p);
    } else {
      EnvelopeText(env, v);
      Base64Size(p, env.b64, At(v, ExpectedEnvelope).s, Limit(History) + 44);
    }
  }

  lemma NullFits(p: Printer)
    ensures |Compact(p, Null)| <= 66
  {
  }

  lemma TransitionFits(p: Printer, env: Env, v: Value, before: NamedResult, after: NamedResult)
    requires KeepsPlain(p) && Undoes(env.b64) && TransitionCheck(env, v, before, after)
    ensures Fits(p, v, Slot) && Fits(p, v, ExpectedEnvelope) && Fits(p, v, Retirement)
  {
    hide KeepsPlain, Undoes, Compact, At, RetirementCheck, EnvelopeCheck, OneOf, IsU64;
    RetirementFits(p, At(v, Retirement));
    SlotFits(p, v);
    EnvelopeFits(p, env, v);
  }

  lemma PendingExpected()
    ensures Expected(PENDING_KEYS)
  {
  }

  lemma PendingRoom()
    ensures Room(PENDING_KEYS) <= 700_000
  {
    hide BoundOf;
    var tail := [Slot, ExpectedEnvelope, Retirement];
    var mid := [RefKey, Phase, Before, After];
    var head := [Version, OperationId, OperationKind, RefName];
    assert PENDING_KEYS == head + (mid + tail);
    RoomSplit(head, mid + tail);
    RoomSplit(mid, tail);
    HeadRoom();
    MidRoom();
    TailRoom();
  }

  lemma HeadRoom()
    ensures Room([Version, OperationId, OperationKind, RefName]) <= 1000
  {
    RoomCons(Version, [OperationId] + [OperationKind, RefName]);
    RoomCons(OperationId, [OperationKind, RefName]);
    assert [Version, OperationId, OperationKind, RefName] == [Version] + ([OperationId] + [OperationKind, RefName]);
  }

  lemma MidRoom()
    ensures Room([RefKey, Phase, Before, After]) <= 352_000
  {
    RoomCons(RefKey, [Phase] + [Before, After]);
    RoomCons(Phase, [Before, After]);
    assert [RefKey, Phase, Before, After] == [RefKey] + ([Phase] + [Before, After]);
  }

  lemma TailRoom()
    ensures Room([Slot, ExpectedEnvelope, Retirement]) <= 265_000
  {
    RoomCons(Slot, [ExpectedEnvelope, Retirement]);
    assert [Slot, ExpectedEnvelope, Retirement] == [Slot] + [ExpectedEnvelope, Retirement];
  }

  lemma PendingMembersFit(p: Printer, env: Env, v: Value)
    requires KeepsPlain(p) && Undoes(env.b64) && PendingCheck(env, v)
    ensures AllFit(p, v, PENDING_KEYS)
  {
    hide KeepsPlain, Undoes, HeaderCheck, TransitionCheck, NamedObject, VersionOne, Ascii, At, Compact;
    NamedObjectFits(p, env, At(v, Before));
    NamedObjectFits(p, env, At(v, After));
    assert Fits(p, v, Before) && Fits(p, v, After);
    hide Fits;
    HeaderFits(p, env, v);
    TransitionFits(p, env, v, NamedObject(env, At(v, Before)), NamedObject(env, At(v, After)));
    VersionFits(p, v);
  }

  // A pending record that passes its check, envelope and all, fits a pending frame.
  lemma PendingFits(p: Printer, env: Env, v: Value)
    requires KeepsPlain(p) && Undoes(env.b64) && PendingCheck(env, v)
    ensures |Compact(p, v)| <= Limit(Pending)
  {
    PendingMembersFit(p, env, v);
    assert HasFields(v, PENDING_KEYS) by {
      hide KeepsPlain, Undoes, AllFit, TransitionCheck, NamedObject, At;
      hide Ascii, Hex, OneOf, LowerHex, IsRefName, IsDigest;
    }
    hide *;
    PendingExpected();
    PendingRoom();
    ObjectFits(p, v, PENDING_KEYS);
    PendingLimit();
  }

  lemma PendingLimit()
    ensures Limit(Pending) == 1048576
  {
  }

  // ── Printed, framed and read back ─────────────────────────────────────────

  lemma CheckedFits(p: Printer, env: Env, kind: Kind, v: Value)
    requires KeepsPlain(p) && Undoes(env.b64) && BodyCheck(env, kind, v)
    ensures |Compact(p, v)| <= Limit(kind)
  {
    hide KeepsPlain, Undoes, ReadyCheck, HistoryCheck, PendingCheck, Compact;
    match kind
    case Ready => ReadyFits(p, v);
    case History => HistoryFits(p, env, v);
    case Pending => PendingFits(p, env, v);
  }

  // Every object that passes its check, printed compactly, can be framed, and the frame
  // decodes to that object, if the JSON library reads back what it prints.
  lemma CheckedObjectsRoundTrip(p: Printer, env: Env, kind: Kind, v: Value)
    requires KeepsPlain(p) && Undoes(env.b64) && BodyCheck(env, kind, v)
    requires env.loads(Ascii(Compact(p, v))) == Some(v)
    ensures var frame := Frame(env, kind, Ascii(Compact(p, v)));
            frame.Some? && SchemaCodec.Decode(env, frame.value, kind) == Some(v)
  {
    hide *;
    CheckedFits(p, env, kind, v);
    DecodeFrame(env, kind, Ascii(Compact(p, v)));
  }
}
