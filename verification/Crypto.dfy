/** Ciphertext formats and master-key rotation (src/core/crypto.ts). AES-256-GCM is an ideal AEAD: the
    set of (key, body) pairs that authenticate, with their plaintexts. */
module Crypto {
  import opened Base

  type Byte = b: int | 0 <= b < 256

  type Bytes = seq<Byte>

  datatype Result<+T, +E> = Ok(value: T) | Err(error: E)

  const SCHEME_ENVELOPE: Byte := 1
  const SCHEME_KEYED: Byte := 2

  /** iv(12) | tag(16), before the ciphertext. */
  const BODY_HEADER: nat := 28

  predicate KeyIdByte(b: Byte) {
    || 'A' as int <= b <= 'Z' as int || 'a' as int <= b <= 'z' as int || '0' as int <= b <= '9' as int
    || b == '.' as int || b == '_' as int || b == '-' as int
  }

  /** `[A-Za-z0-9._-]{1,32}` over the id's bytes. */
  predicate ValidKeyId(id: Bytes) {
    1 <= |id| <= 32 && forall i :: 0 <= i < |id| ==> KeyIdByte(id[i])
  }

  /** A decryption candidate; no id is the single `VOUCHR_MASTER_KEY`. */
  datatype Candidate = Candidate(id: Option<Bytes>, key: Bytes)

  datatype Keyring = Keyring(primary: Candidate, byId: map<Bytes, Bytes>, legacy: seq<Candidate>)

  // ---------------------------------------------------------------------------------------------
  // Loading the keyring
  // ---------------------------------------------------------------------------------------------

  /** The two variables: `VOUCHR_MASTER_KEY`, and the trimmed non-empty entries of `VOUCHR_MASTER_KEYS`. */
  datatype Env = Env(single: Option<Bytes>, entries: seq<Bytes>)

  datatype Fault = NotIdAndKey | BadId | ListedTwice | BadKey

  datatype LoadError = BadSingle | BadEntry(position: nat, fault: Fault) | NoKey

  type Base64 = Bytes -> Bytes

  const COLON: Byte := ':' as int

  predicate HasColon(e: Bytes) {
    exists i :: 0 <= i < |e| && e[i] == COLON
  }

  function ColonAt(e: Bytes): (i: nat)
    requires HasColon(e)
    ensures i < |e| && e[i] == COLON && forall j :: 0 <= j < i ==> e[j] != COLON
  {
    if e[0] == COLON then 0
    else
      assert HasColon(e[1..]) by {
        var i :| 0 <= i < |e| && e[i] == COLON;
        assert e[1..][i - 1] == COLON;
      }
      1 + ColonAt(e[1..])
  }

  /** What is wrong with one entry taken alone. */
  function EntryFault(decode: Base64, e: Bytes): Option<Fault> {
    if !HasColon(e) || ColonAt(e) == 0 then Some(NotIdAndKey)
    else if !ValidKeyId(e[..ColonAt(e)]) then Some(BadId)
    else if |decode(e[ColonAt(e) + 1..])| != 32 then Some(BadKey)
    else None
  }

  predicate GoodEntry(decode: Base64, e: Bytes) {
    EntryFault(decode, e).None?
  }

  function EntryId(e: Bytes): Bytes
    requires HasColon(e)
  {
    e[..ColonAt(e)]
  }

  function EntryOf(decode: Base64, e: Bytes): Candidate
    requires GoodEntry(decode, e)
  {
    Candidate(Some(EntryId(e)), decode(e[ColonAt(e) + 1..]))
  }

  predicate GoodEntries(decode: Base64, entries: seq<Bytes>) {
    && (forall i :: 0 <= i < |entries| ==> GoodEntry(decode, entries[i]))
    && (forall i, j :: 0 <= i < j < |entries| ==> EntryId(entries[i]) != EntryId(entries[j]))
  }

  /** What a list of good entries contributes. */
  ghost predicate Lists(decode: Base64, entries: seq<Bytes>, listed: seq<Candidate>, byId: map<Bytes, Bytes>)
    requires GoodEntries(decode, entries)
  {
    && |listed| == |entries|
    && (forall i :: 0 <= i < |entries| ==> listed[i] == EntryOf(decode, entries[i]))
    && (forall id :: id in byId <==> exists i :: 0 <= i < |entries| && EntryId(entries[i]) == id)
    && (forall i :: 0 <= i < |entries| ==> byId[EntryId(entries[i])] == listed[i].key)
  }

  lemma ListsNone(decode: Base64)
    ensures GoodEntries(decode, []) && Lists(decode, [], [], map[])
  {
  }

  lemma ListsLength(decode: Base64, entries: seq<Bytes>, listed: seq<Candidate>, byId: map<Bytes, Bytes>)
    requires GoodEntries(decode, entries) && Lists(decode, entries, listed, byId)
    ensures |listed| == |entries|
    ensures entries != [] ==> GoodEntry(decode, entries[0]) && listed[0] == EntryOf(decode, entries[0])
  {
  }

  lemma ListsOneMore(decode: Base64, entries: seq<Bytes>, e: Bytes, listed: seq<Candidate>, byId: map<Bytes, Bytes>)
    requires GoodEntries(decode, entries) && Lists(decode, entries, listed, byId)
    requires GoodEntry(decode, e) && EntryId(e) !in byId
    ensures GoodEntries(decode, entries + [e])
    ensures Lists(decode, entries + [e], listed + [EntryOf(decode, e)], byId[EntryId(e) := EntryOf(decode, e).key])
  {
    hide EntryFault, ColonAt;
    var all := entries + [e];
    assert all[|entries|] == e;
    var more := byId[EntryId(e) := EntryOf(decode, e).key];
    forall id | id in more ensures exists i :: 0 <= i < |all| && EntryId(all[i]) == id {
      if id in byId {
        var i :| 0 <= i < |entries| && EntryId(entries[i]) == id;
        assert all[i] == entries[i];
      } else {
        assert EntryId(all[|entries|]) == id;
      }
    }
  }

  predicate Accepted(decode: Base64, env: Env) {
    && (env.single.Some? ==> |decode(env.single.value)| == 32)
    && GoodEntries(decode, env.entries)
    && (env.single.Some? || env.entries != [])
  }

  /** The ring an accepted environment stands for: the id-less key is tried first, the first listed key (or
      else the id-less one) encrypts. */
  ghost predicate RingOf(decode: Base64, env: Env, ring: Keyring)
    requires Accepted(decode, env)
  {
    var n := if env.single.Some? then 1 else 0;
    && |ring.legacy| >= n
    && (env.single.Some? ==> ring.legacy[0] == Candidate(None, decode(env.single.value)))
    && Lists(decode, env.entries, ring.legacy[n..], ring.byId)
    && ring.primary == (if env.entries == [] then ring.legacy[0] else EntryOf(decode, env.entries[0]))
  }

  /** The reported entry is the first that cannot be added, and the error says why. */
  predicate FirstFault(decode: Base64, env: Env, e: LoadError) {
    match e
    case BadSingle => env.single.Some? && |decode(env.single.value)| != 32
    case NoKey => env.single.None? && env.entries == []
    case BadEntry(i, fault) =>
      && i < |env.entries| && GoodEntries(decode, env.entries[..i])
      && if fault == ListedTwice then HasColon(env.entries[i]) && exists k :: 0 <= k < i && EntryId(env.entries[..i][k]) == EntryId(env.entries[i])
         else EntryFault(decode, env.entries[i]) == Some(fault)
  }

  method LoadKeyring(decode: Base64, env: Env) returns (r: Result<Keyring, LoadError>)
    ensures r.Ok? <==> Accepted(decode, env)
    ensures r.Ok? ==> RingOf(decode, env, r.value)
    ensures r.Err? ==> FirstFault(decode, env, r.error)
  {
    hide GoodEntries, Lists, EntryFault, GoodEntry;
    if env.single.Some? && |decode(env.single.value)| != 32 {
      return Err(BadSingle);
    }
    var listed, byId, fault := ListEntries(decode, env.entries);
    if fault.Some? {
      return Err(fault.value);
    }
    ListsLength(decode, env.entries, listed, byId);
    if env.single.None? && listed == [] {
      return Err(NoKey);
    }
    var idless := if env.single.Some? then [Candidate(None, decode(env.single.value))] else [];
    r := Ok(Keyring(if listed != [] then listed[0] else idless[0], byId, idless + listed));
    assert r.value.legacy[|idless|..] == listed;
  }

  /** The parse loop over the entries. */
  method ListEntries(decode: Base64, entries: seq<Bytes>)
    returns (listed: seq<Candidate>, byId: map<Bytes, Bytes>, fault: Option<LoadError>)
    ensures fault.None? <==> GoodEntries(decode, entries)
    ensures fault.None? ==> Lists(decode, entries, listed, byId)
    ensures fault.Some? ==> fault.value.BadEntry? && FirstFault(decode, Env(None, entries), fault.value)
  {
    hide GoodEntries, Lists, EntryFault, GoodEntry;
    ListsNone(decode);
    listed, byId, fault := [], map[], None;
    var i := 0;
    while i < |entries|
      invariant 0 <= i <= |entries|
      invariant GoodEntries(decode, entries[..i]) && Lists(decode, entries[..i], listed, byId)
    {
      var e := entries[i];
      var wrong := CheckEntry(decode, e, byId);
      if wrong.Some? {
        Unacceptable(decode, entries, i, wrong.value, listed, byId);
        return listed, byId, Some(BadEntry(i, wrong.value));
      }
      ListsOneMore(decode, entries[..i], e, listed, byId);
      listed, byId := listed + [EntryOf(decode, e)], byId[EntryId(e) := EntryOf(decode, e).key];
      i := i + 1;
      assert entries[..i] == entries[..i - 1] + [e];
    }
    assert entries[..i] == entries;
  }

  /** One entry's checks in the source's order: shape, id, repetition, key bytes. */
  method CheckEntry(decode: Base64, e: Bytes, byId: map<Bytes, Bytes>) returns (fault: Option<Fault>)
    ensures fault.None? <==> GoodEntry(decode, e) && EntryId(e) !in byId
    ensures fault == Some(ListedTwice) ==> HasColon(e) && EntryId(e) in byId
    ensures fault.Some? && fault != Some(ListedTwice) ==> EntryFault(decode, e) == fault
  {
    if !HasColon(e) || ColonAt(e) == 0 {
      return Some(NotIdAndKey);
    }
    var colon := ColonAt(e);
    if !ValidKeyId(e[..colon]) {
      return Some(BadId);
    }
    if e[..colon] in byId {
      return Some(ListedTwice);
    }
    if |decode(e[colon + 1..])| != 32 {
      return Some(BadKey);
    }
    return None;
  }

  lemma Unacceptable(decode: Base64, entries: seq<Bytes>, i: nat, fault: Fault, listed: seq<Candidate>, byId: map<Bytes, Bytes>)
    requires i < |entries| && GoodEntries(decode, entries[..i]) && Lists(decode, entries[..i], listed, byId)
    requires if fault == ListedTwice then HasColon(entries[i]) && EntryId(entries[i]) in byId
      else EntryFault(decode, entries[i]) == Some(fault)
    ensures !GoodEntries(decode, entries)
    ensures fault == ListedTwice ==> exists k :: 0 <= k < i && EntryId(entries[..i][k]) == EntryId(entries[i])
  {
    hide EntryFault, ColonAt;
    if fault == ListedTwice {
      var k :| 0 <= k < i && EntryId(entries[..i][k]) == EntryId(entries[i]);
      assert entries[..i][k] == entries[k];
    } else {
      BadEntryFails(decode, entries[i]);
    }
  }

  lemma BadEntryFails(decode: Base64, e: Bytes)
    ensures GoodEntry(decode, e) <==> EntryFault(decode, e).None?
  {
  }

  // ---------------------------------------------------------------------------------------------
  // Layouts
  // ---------------------------------------------------------------------------------------------

  /** The (key, body) pairs that authenticate. */
  type Aead = map<(Bytes, Bytes), string>

  function DecryptBody(aead: Aead, key: Bytes, body: Bytes): Option<string> {
    if |body| >= BODY_HEADER && (key, body) in aead then Some(aead[(key, body)]) else None
  }

  /** What a stored blob means: which key and body, in which of the three layouts. */
  datatype Layout =
    | Idless(key: Bytes, body: Bytes)
    | Keyed(id: Bytes, key: Bytes, body: Bytes)
    | Enveloped(wrapped: Bytes, key: Bytes, body: Bytes)

  predicate WellFormed(l: Layout) {
    && |l.body| >= BODY_HEADER && |l.key| == 32
    && (l.Keyed? ==> ValidKeyId(l.id))
    && (l.Enveloped? ==> 1 <= |l.wrapped| <= 0xffff)
  }

  function Encode(l: Layout): Bytes
    requires WellFormed(l)
  {
    match l
    case Idless(_, body) => body
    case Keyed(id, _, body) => [SCHEME_KEYED, |id|] + id + body
    case Enveloped(wrapped, _, body) => [SCHEME_ENVELOPE, |wrapped| / 256, |wrapped| % 256] + wrapped + body
  }

  /** One secret's fresh randomness: the AEAD body, and under an envelope the data key and its wrapping. */
  datatype Sealing = Sealing(body: Bytes, envelope: Option<(Bytes, Bytes)>)

  datatype SealError = InvalidPrimaryId | BadWrappedKey

  /** `seal`: the layout follows the configuration; impossible header fields are refused. */
  function Seal(ring: Keyring, s: Sealing): Result<Layout, SealError> {
    match s.envelope
    case Some((wrapped, dek)) =>
      if |wrapped| < 1 || |wrapped| > 0xffff then Err(BadWrappedKey) else Ok(Enveloped(wrapped, dek, s.body))
    case None =>
      match ring.primary.id
      case None => Ok(Idless(ring.primary.key, s.body))
      case Some(id) => if !ValidKeyId(id) then Err(InvalidPrimaryId) else Ok(Keyed(id, ring.primary.key, s.body))
  }

  // ---------------------------------------------------------------------------------------------
  // Direct decryption
  // ---------------------------------------------------------------------------------------------

  /** The first candidate, in trial order, under which the whole blob authenticates. */
  function FirstThatOpens(aead: Aead, blob: Bytes, candidates: seq<Candidate>): (r: Option<(string, Option<Bytes>)>)
    ensures r.None? <==> forall c :: c in candidates ==> DecryptBody(aead, c.key, blob).None?
    ensures r.Some? ==> exists i :: (
      && 0 <= i < |candidates| && DecryptBody(aead, candidates[i].key, blob) == Some(r.value.0) && candidates[i].id == r.value.1
      && forall j :: 0 <= j < i ==> DecryptBody(aead, candidates[j].key, blob).None?)
  {
    if candidates == [] then None
    else if DecryptBody(aead, candidates[0].key, blob).Some? then
      Some((DecryptBody(aead, candidates[0].key, blob).value, candidates[0].id))
    else
      FirstThatOpens(aead, blob, candidates[1..])
  }

  /** `tryLegacy`. */
  method TryLegacy(aead: Aead, blob: Bytes, ring: Keyring) returns (r: Option<(string, Option<Bytes>)>)
    ensures r == FirstThatOpens(aead, blob, ring.legacy)
  {
    var i := 0;
    while i < |ring.legacy|
      invariant 0 <= i <= |ring.legacy|
      invariant FirstThatOpens(aead, blob, ring.legacy) == FirstThatOpens(aead, blob, ring.legacy[i..])
    {
      var plaintext := DecryptBody(aead, ring.legacy[i].key, blob);
      if plaintext.Some? {
        return Some((plaintext.value, ring.legacy[i].id));
      }
      i := i + 1;
    }
    return None;
  }

  datatype DirectDecrypt =
    | Opened(plaintext: string, scheme: nat, keyId: Option<Bytes>)
    | UnknownKeyId(id: Bytes)
    | MaybeEnvelope
    | Undecryptable

  /** The keyed header, when the blob has one that parses. */
  function ParseKeyed(blob: Bytes): Option<(Bytes, Bytes)> {
    if |blob| > 2 && blob[0] == SCHEME_KEYED && 1 <= blob[1] <= 32 && |blob| >= 2 + blob[1] + BODY_HEADER && ValidKeyId(blob[2..2 + blob[1]])
    then Some((blob[2..2 + blob[1]], blob[2 + blob[1]..]))
    else None
  }

  predicate StartsWithByte(blob: Bytes, b: Byte) {
    |blob| > 0 && blob[0] == b
  }

  function TryDecryptDirect(aead: Aead, ring: Keyring, blob: Bytes): DirectDecrypt {
    var legacy := FirstThatOpens(aead, blob, ring.legacy);
    match ParseKeyed(blob)
    case Some((id, body)) =>
      if id in ring.byId && DecryptBody(aead, ring.byId[id], body).Some? then
        Opened(DecryptBody(aead, ring.byId[id], body).value, 2, Some(id))
      else if legacy.Some? then Opened(legacy.value.0, 0, legacy.value.1)
      else if id !in ring.byId then UnknownKeyId(id)
      else Undecryptable
    case None =>
      if legacy.Some? then Opened(legacy.value.0, 0, legacy.value.1)
      else if StartsWithByte(blob, SCHEME_ENVELOPE) then MaybeEnvelope
      else Undecryptable
  }

  datatype OpenError = KeyNotConfigured(id: Bytes) | NoKeyDecrypts | EnvelopeFailed

  function Decrypt(aead: Aead, ring: Keyring, blob: Bytes): Result<string, OpenError> {
    match TryDecryptDirect(aead, ring, blob)
    case Opened(plaintext, _, _) => Ok(plaintext)
    case UnknownKeyId(id) => Err(KeyNotConfigured(id))
    case _ => Err(NoKeyDecrypts)
  }

  /** A bare key as a ring. */
  function ToKeyring(key: Bytes): Keyring {
    Keyring(Candidate(None, key), map[], [Candidate(None, key)])
  }

  /** `decrypt` under a bare key: the raw path unless the blob looks keyed. */
  function DecryptBare(aead: Aead, key: Bytes, blob: Bytes): Result<string, OpenError> {
    if !StartsWithByte(blob, SCHEME_KEYED) then
      match DecryptBody(aead, key, blob)
      case Some(plaintext) => Ok(plaintext)
      case None => Err(NoKeyDecrypts)
    else Decrypt(aead, ToKeyring(key), blob)
  }

  // ---------------------------------------------------------------------------------------------
  // Envelopes
  // ---------------------------------------------------------------------------------------------

  /** `readUInt16BE`. */
  function BigEndian(high: Byte, low: Byte): nat {
    high as int * 256 + low as int
  }

  /** What the external key service answers for a wrapped key, if it answers. */
  type Unwrapper = Bytes -> Option<Bytes>

  function UnwrapEnvelope(aead: Aead, unwrap: Unwrapper, blob: Bytes): Option<string> {
    if |blob| < 3 then None
    else
      var dekLen := BigEndian(blob[1], blob[2]);
      var offset := 3 + dekLen;
      if dekLen < 1 || offset > |blob| || |blob| - offset < BODY_HEADER then None
      else
        match unwrap(blob[3..offset])
        case None => None
        case Some(dek) => if |dek| != 32 then None else DecryptBody(aead, dek, blob[offset..])
  }

  /** `open`: an envelope failure is probed as a legacy row and otherwise reported as it is. */
  function Open(aead: Aead, ring: Keyring, envelope: Option<Unwrapper>, blob: Bytes): Result<string, OpenError> {
    if envelope.None? || !StartsWithByte(blob, SCHEME_ENVELOPE) then Decrypt(aead, ring, blob)
    else
      match UnwrapEnvelope(aead, envelope.value, blob)
      case Some(plaintext) => Ok(plaintext)
      case None =>
        match TryDecryptDirect(aead, ring, blob)
        case Opened(plaintext, _, _) => Ok(plaintext)
        case _ => Err(EnvelopeFailed)
  }

  // ---------------------------------------------------------------------------------------------
  // What a stored blob decrypts to
  // ---------------------------------------------------------------------------------------------

  /** The layout's own pair authenticates to `p`, and no other key or suffix of the blob does. */
  ghost predicate Authentic(aead: Aead, l: Layout, p: string) {
    && WellFormed(l)
    && (l.key, l.body) in aead && aead[(l.key, l.body)] == p
    && forall key: Bytes, n: nat {:trigger (key, Encode(l)[n..]) in aead} ::
         n <= |Encode(l)| && (key, Encode(l)[n..]) in aead ==> key == l.key && n == |Encode(l)| - |l.body|
  }

  predicate HoldsKey(ring: Keyring, key: Bytes) {
    exists c :: c in ring.legacy && c.key == key
  }

  lemma WholeBlob(aead: Aead, l: Layout, p: string, key: Bytes)
    requires Authentic(aead, l, p)
    ensures DecryptBody(aead, key, Encode(l)) == if l.Idless? && key == l.key then Some(p) else None
  {
    var blob := Encode(l);
    assert blob[0..] == blob;
    assert (key, blob[0..]) in aead ==> key == l.key && 0 == |blob| - |l.body|;
  }

  lemma KeyedHeader(l: Layout)
    requires WellFormed(l) && l.Keyed?
    ensures ParseKeyed(Encode(l)) == Some((l.id, l.body))
  {
    var blob := Encode(l);
    assert blob[2..2 + blob[1]] == l.id;
    assert blob[2 + blob[1]..] == l.body;
  }

  lemma KeyedBody(aead: Aead, l: Layout, p: string, key: Bytes)
    requires Authentic(aead, l, p) && ParseKeyed(Encode(l)).Some?
    ensures DecryptBody(aead, key, ParseKeyed(Encode(l)).value.1) == if l.Keyed? && key == l.key then Some(p) else None
  {
    var blob := Encode(l);
    var n := 2 + blob[1];
    assert ParseKeyed(blob).value.1 == blob[n..];
    assert (key, blob[n..]) in aead ==> key == l.key && n == |blob| - |l.body|;
    if l.Keyed? {
      KeyedHeader(l);
    }
  }

  /** Direct decryption is exact. An id-less row opens iff some candidate has its key; a keyed row opens iff
      its id still names its key, and otherwise fails by id or as undecryptable; an envelope row is reported
      as one. Nothing else is ever returned. */
  lemma DirectExact(aead: Aead, ring: Keyring, l: Layout, p: string)
    requires Authentic(aead, l, p)
    ensures var r := TryDecryptDirect(aead, ring, Encode(l));
      match l
      case Idless(key, _) =>
        if HoldsKey(ring, key) then r.Opened? && r.plaintext == p && r.scheme == 0 && Candidate(r.keyId, key) in ring.legacy
        else !r.Opened?
      case Keyed(id, key, _) =>
        r == if id !in ring.byId then UnknownKeyId(id) else if ring.byId[id] == key then Opened(p, 2, Some(id)) else Undecryptable
      case Enveloped(_, _, _) => r == MaybeEnvelope
  {
    var blob := Encode(l);
    forall key ensures DecryptBody(aead, key, blob) == if l.Idless? && key == l.key then Some(p) else None {
      WholeBlob(aead, l, p, key);
    }
    if ParseKeyed(blob).Some? {
      forall key ensures DecryptBody(aead, key, ParseKeyed(blob).value.1) == if l.Keyed? && key == l.key then Some(p) else None {
        KeyedBody(aead, l, p, key);
      }
    }
    if l.Keyed? {
      KeyedHeader(l);
    }
    hide DecryptBody, Authentic, ValidKeyId;
  }

  lemma EnvelopeHeader(l: Layout)
    requires WellFormed(l) && l.Enveloped?
    ensures var blob := Encode(l); var offset := 3 + BigEndian(blob[1], blob[2]);
      && |blob| >= 3 && offset <= |blob| && blob[3..offset] == l.wrapped && blob[offset..] == l.body
  {
    var blob := Encode(l);
    assert BigEndian(blob[1], blob[2]) == |l.wrapped|;
    var offset := 3 + |l.wrapped|;
    assert blob[3..offset] == l.wrapped;
    assert blob[offset..] == l.body;
  }

  /** Whatever the key service answers, unwrapping yields the true plaintext or nothing; it yields it when the
      service still unwraps the row's own data key. */
  lemma UnwrapExact(aead: Aead, l: Layout, p: string, unwrap: Unwrapper)
    requires Authentic(aead, l, p)
    ensures UnwrapEnvelope(aead, unwrap, Encode(l)) in {None, Some(p)}
    ensures l.Enveloped? ==> (UnwrapEnvelope(aead, unwrap, Encode(l)) == Some(p) <==> unwrap(l.wrapped) == Some(l.key))
  {
    var blob := Encode(l);
    if l.Enveloped? {
      EnvelopeHeader(l);
    }
    if |blob| >= 3 {
      var offset := 3 + BigEndian(blob[1], blob[2]);
      if offset <= |blob| {
        forall key ensures (key, blob[offset..]) in aead ==> key == l.key && offset == |blob| - |l.body| {
        }
        if offset == |blob| - |l.body| {
          assert blob[offset..] == l.body;
        }
      }
    }
  }

  /** Never the wrong plaintext: whatever keys and key service are configured, and whatever bytes the
      blob begins with, opening a stored blob gives what was sealed or an error. */
  lemma OpensToSealedOrFails(aead: Aead, ring: Keyring, envelope: Option<Unwrapper>, l: Layout, p: string)
    requires Authentic(aead, l, p)
    ensures var r := Open(aead, ring, envelope, Encode(l)); r.Ok? ==> r.value == p
  {
    DirectExact(aead, ring, l, p);
    if envelope.Some? {
      UnwrapExact(aead, l, p, envelope.value);
    }
    hide DecryptBody, Authentic, TryDecryptDirect, UnwrapEnvelope, Encode;
  }

  /** Under a bare key, decryption gives exactly the plaintext that its one-key ring gives. */
  lemma BareKeyIsRing(aead: Aead, key: Bytes, blob: Bytes)
    ensures var a, b := DecryptBare(aead, key, blob), Decrypt(aead, ToKeyring(key), blob);
      a.Ok? == b.Ok? && (a.Ok? ==> a == b)
  {
    var ring := ToKeyring(key);
    assert ring.legacy[0] in ring.legacy;
    hide DecryptBody, ValidKeyId;
  }

  /** What a seal stores, byte by byte. An envelope, when there is one, is used, and never a ring key; otherwise the primary key
      encrypts, under its id if it has one. What cannot be a header is refused. */
  lemma SealExact(ring: Keyring, s: Sealing)
    requires |s.body| >= BODY_HEADER && |ring.primary.key| == 32 && (s.envelope.Some? ==> |s.envelope.value.1| == 32)
    ensures var r := Seal(ring, s);
      match s.envelope
      case Some(e) =>
        if 1 <= |e.0| <= 65535 then
          && r.Ok? && WellFormed(r.value) && r.value.key == e.1
          && Encode(r.value) == [1, |e.0| / 256, |e.0| % 256] + e.0 + s.body
        else r == Err(BadWrappedKey)
      case None =>
        match ring.primary.id
        case None => r.Ok? && WellFormed(r.value) && r.value.key == ring.primary.key && Encode(r.value) == s.body
        case Some(id) =>
          if ValidKeyId(id) then
            r.Ok? && WellFormed(r.value) && r.value.key == ring.primary.key && Encode(r.value) == [2, |id|] + id + s.body
          else r == Err(InvalidPrimaryId)
  {
  }

  /** What opening a stored blob gives, in every configuration: its plaintext exactly when its own key is at hand, and
      otherwise the error that says why. An id-less row without its key reads as a row of an unknown id when its random
      bytes happen to look like that id's header. */
  lemma OpenExact(aead: Aead, ring: Keyring, envelope: Option<Unwrapper>, l: Layout, p: string)
    requires Authentic(aead, l, p)
    ensures var r := Open(aead, ring, envelope, Encode(l));
      match l
      case Idless(key, body) =>
        r == if HoldsKey(ring, key) then Ok(p)
             else if envelope.Some? && body[0] == 1 then Err(EnvelopeFailed)
             else if LooksUnknown(ring, body) then Err(KeyNotConfigured(body[2..2 + body[1]]))
             else Err(NoKeyDecrypts)
      case Keyed(id, key, _) =>
        r == if id !in ring.byId then Err(KeyNotConfigured(id)) else if ring.byId[id] == key then Ok(p) else Err(NoKeyDecrypts)
      case Enveloped(wrapped, key, _) =>
        r == if envelope.None? then Err(NoKeyDecrypts) else if envelope.value(wrapped) == Some(key) then Ok(p) else Err(EnvelopeFailed)
  {
    DirectExact(aead, ring, l, p);
    if envelope.Some? {
      UnwrapExact(aead, l, p, envelope.value);
    }
    FirstBytes(l);
    if l.Idless? && !HoldsKey(ring, l.key) {
      IdlessError(aead, ring, l, p);
    }
    hide DecryptBody, Authentic, TryDecryptDirect, UnwrapEnvelope, HoldsKey, LooksUnknown;
  }

  /** The bytes start as a keyed row does, under an id that the ring does not list. */
  ghost predicate LooksUnknown(ring: Keyring, blob: Bytes)
    requires |blob| >= BODY_HEADER
  {
    && blob[0] == 2 && 1 <= blob[1] <= 32 && |blob| >= 2 + blob[1] + BODY_HEADER
    && ValidKeyId(blob[2..2 + blob[1]]) && blob[2..2 + blob[1]] !in ring.byId
  }

  lemma IdlessError(aead: Aead, ring: Keyring, l: Layout, p: string)
    requires l.Idless? && Authentic(aead, l, p) && !HoldsKey(ring, l.key)
    ensures TryDecryptDirect(aead, ring, Encode(l)) ==
      if LooksUnknown(ring, l.body) then UnknownKeyId(l.body[2..2 + l.body[1]])
      else if l.body[0] == 1 then MaybeEnvelope else Undecryptable
  {
    forall key ensures DecryptBody(aead, key, Encode(l)) == if key == l.key then Some(p) else None {
      WholeBlob(aead, l, p, key);
    }
    if ParseKeyed(Encode(l)).Some? {
      forall key ensures DecryptBody(aead, key, ParseKeyed(Encode(l)).value.1).None? {
        KeyedBody(aead, l, p, key);
      }
    }
    hide DecryptBody, Authentic, ValidKeyId;
  }

  /** Bytes that were never sealed do not open: if no key authenticates the blob or any suffix of it, every configuration refuses. */
  lemma ForgedNeverOpens(aead: Aead, ring: Keyring, envelope: Option<Unwrapper>, blob: Bytes)
    requires forall key: Bytes, n: nat {:trigger (key, blob[n..]) in aead} :: n <= |blob| ==> (key, blob[n..]) !in aead
    ensures Open(aead, ring, envelope, blob).Err?
  {
    assert blob[0..] == blob;
    forall key ensures DecryptBody(aead, key, blob).None? {
      assert (key, blob[0..]) !in aead;
    }
    if ParseKeyed(blob).Some? {
      forall key ensures DecryptBody(aead, key, ParseKeyed(blob).value.1).None? {
        assert (key, blob[2 + blob[1]..]) !in aead;
      }
    }
    if |blob| >= 3 && 3 + BigEndian(blob[1], blob[2]) <= |blob| {
      var n := 3 + BigEndian(blob[1], blob[2]);
      var rest := blob[n..];
      forall key ensures DecryptBody(aead, key, rest).None? {
        assert (key, blob[n..]) !in aead;
      }
    }
    hide DecryptBody, ParseKeyed;
  }

  // ---------------------------------------------------------------------------------------------
  // Rotation
  // ---------------------------------------------------------------------------------------------

  /** What every loaded ring satisfies. */
  ghost predicate ValidRing(ring: Keyring) {
    && ring.primary in ring.legacy
    && (ring.primary.id.Some? ==> ring.primary.id.value in ring.byId && ring.byId[ring.primary.id.value] == ring.primary.key)
    && forall c :: c in ring.legacy ==> |c.key| == 32 && (c.id.Some? ==> ValidKeyId(c.id.value))
  }

  lemma ListedEntry(decode: Base64, env: Env, ring: Keyring, i: nat)
    requires Accepted(decode, env) && RingOf(decode, env, ring) && i < |env.entries|
    ensures var c := EntryOf(decode, env.entries[i]);
      && c in ring.legacy && |c.key| == 32 && ValidKeyId(c.id.value)
      && c.id.value in ring.byId && ring.byId[c.id.value] == c.key
  {
    hide ValidKeyId, ColonAt, HasColon;
    var n := if env.single.Some? then 1 else 0;
    assert ring.legacy[n..][i] == EntryOf(decode, env.entries[i]);
    assert ring.legacy[n + i] in ring.legacy;
  }

  /** Every candidate of a loaded ring is the id-less key or one of the entries. */
  lemma CandidateSource(decode: Base64, env: Env, ring: Keyring, c: Candidate)
    requires Accepted(decode, env) && RingOf(decode, env, ring) && c in ring.legacy
    ensures (env.single.Some? && c == Candidate(None, decode(env.single.value)))
      || exists i :: 0 <= i < |env.entries| && c == EntryOf(decode, env.entries[i])
  {
    hide EntryFault, EntryOf;
    var n := if env.single.Some? then 1 else 0;
    var k :| 0 <= k < |ring.legacy| && ring.legacy[k] == c;
    if k >= n {
      assert c == ring.legacy[n..][k - n];
    }
  }

  lemma LoadedRingIsValid(decode: Base64, env: Env, ring: Keyring)
    requires Accepted(decode, env) && RingOf(decode, env, ring)
    ensures ValidRing(ring)
  {
    hide ValidKeyId, EntryFault, Lists;
    forall c | c in ring.legacy ensures |c.key| == 32 && (c.id.Some? ==> ValidKeyId(c.id.value)) {
      CandidateSource(decode, env, ring, c);
      forall i | 0 <= i < |env.entries| ensures |EntryOf(decode, env.entries[i]).key| == 32 && ValidKeyId(EntryOf(decode, env.entries[i]).id.value) {
        ListedEntry(decode, env, ring, i);
      }
    }
    if env.entries != [] {
      ListedEntry(decode, env, ring, 0);
    }
  }

  /** A rotation that keeps old keys: every id still names its key, and every key that can open id-less
      rows is still a candidate, under an id or not. The primary may be anything. */
  ghost predicate KeepsKeys(a: Keyring, b: Keyring) {
    && (forall id :: id in a.byId ==> id in b.byId && b.byId[id] == a.byId[id])
    && (forall c :: c in a.legacy ==> HoldsKey(b, c.key))
  }

  /** In the operator's terms: list every old `id:key` again, and keep the id-less key or list it under an id. */
  ghost predicate KeepsEntries(decode: Base64, a: Env, b: Env)
    requires Accepted(decode, a) && Accepted(decode, b)
  {
    && (forall e :: e in a.entries ==> e in b.entries)
    && (a.single.Some? ==>
         || b.single == a.single
         || exists i :: 0 <= i < |b.entries| && EntryOf(decode, b.entries[i]).key == decode(a.single.value))
  }

  lemma EnvRotation(decode: Base64, a: Env, b: Env, ringA: Keyring, ringB: Keyring)
    requires Accepted(decode, a) && RingOf(decode, a, ringA) && Accepted(decode, b) && RingOf(decode, b, ringB)
    requires KeepsEntries(decode, a, b)
    ensures KeepsKeys(ringA, ringB)
  {
    hide RingOf, KeepsEntries, Accepted, HoldsKey;
    forall id | id in ringA.byId ensures id in ringB.byId && ringB.byId[id] == ringA.byId[id] {
      IdKept(decode, a, b, ringA, ringB, id);
    }
    forall c | c in ringA.legacy ensures HoldsKey(ringB, c.key) {
      CandidateKept(decode, a, b, ringA, ringB, c);
    }
  }

  lemma IdKept(decode: Base64, a: Env, b: Env, ringA: Keyring, ringB: Keyring, id: Bytes)
    requires Accepted(decode, a) && RingOf(decode, a, ringA) && Accepted(decode, b) && RingOf(decode, b, ringB)
    requires KeepsEntries(decode, a, b) && id in ringA.byId
    ensures id in ringB.byId && ringB.byId[id] == ringA.byId[id]
  {
    hide ValidKeyId, EntryFault, ColonAt, HasColon, Lists;
    var i := IdEntry(decode, a, ringA, id);
    assert a.entries[i] in a.entries;
    var j :| 0 <= j < |b.entries| && b.entries[j] == a.entries[i];
    hide RingOf, KeepsEntries;
    ListedEntry(decode, a, ringA, i);
    ListedEntry(decode, b, ringB, j);
  }

  lemma IdEntry(decode: Base64, env: Env, ring: Keyring, id: Bytes) returns (i: nat)
    requires Accepted(decode, env) && RingOf(decode, env, ring) && id in ring.byId
    ensures i < |env.entries| && EntryId(env.entries[i]) == id
  {
    hide ColonAt, ValidKeyId;
    i :| 0 <= i < |env.entries| && EntryId(env.entries[i]) == id;
  }

  lemma CandidateKept(decode: Base64, a: Env, b: Env, ringA: Keyring, ringB: Keyring, c: Candidate)
    requires Accepted(decode, a) && RingOf(decode, a, ringA) && Accepted(decode, b) && RingOf(decode, b, ringB)
    requires KeepsEntries(decode, a, b) && c in ringA.legacy
    ensures HoldsKey(ringB, c.key)
  {
    hide ValidKeyId, EntryFault, ColonAt, HasColon, Lists;
    CandidateSource(decode, a, ringA, c);
    if i :| 0 <= i < |a.entries| && c == EntryOf(decode, a.entries[i]) {
      assert a.entries[i] in a.entries;
      var j :| 0 <= j < |b.entries| && b.entries[j] == a.entries[i];
      ListedEntry(decode, b, ringB, j);
    } else if b.single == a.single {
      assert ringB.legacy[0] in ringB.legacy;
    } else {
      var j :| 0 <= j < |b.entries| && EntryOf(decode, b.entries[j]).key == decode(a.single.value);
      ListedEntry(decode, b, ringB, j);
    }
  }

  /** One deployed configuration. */
  datatype Stage = Stage(ring: Keyring, envelope: Option<Unwrapper>)

  ghost predicate Rotates(stages: seq<Stage>) {
    && (forall i :: 0 <= i < |stages| ==> ValidRing(stages[i].ring))
    && forall i {:trigger stages[i]} :: 0 <= i < |stages| - 1 ==> KeepsKeys(stages[i].ring, stages[i + 1].ring)
  }

  lemma {:induction false} KeysKept(stages: seq<Stage>, i: nat, j: nat)
    requires Rotates(stages) && i <= j < |stages|
    ensures KeepsKeys(stages[i].ring, stages[j].ring)
    decreases j - i
  {
    if i < j {
      KeysKept(stages, i, j - 1);
      var a, b, c := stages[i].ring, stages[j - 1].ring, stages[j].ring;
      assert stages[j - 1] == stages[j - 1];
      forall e | e in a.legacy ensures HoldsKey(c, e.key) {
        var f :| f in b.legacy && f.key == e.key;
      }
    } else {
      assert forall e :: e in stages[i].ring.legacy ==> HoldsKey(stages[i].ring, e.key);
    }
  }

  /** Key rotation preserves meaning: across any number of rotations that keep old keys, a blob sealed at any
      stage in any of the three layouts opens to its plaintext at every later stage, including id-less
      rows whose IV begins 0x01 or 0x02 and rows read after an envelope was enabled. An envelope row
      needs the key service to still unwrap its data key. */
  lemma RotationPreservesMeaning(aead: Aead, stages: seq<Stage>, i: nat, j: nat, s: Sealing, p: string)
    requires Rotates(stages) && i <= j < |stages|
    requires Seal(stages[i].ring, s).Ok? && Authentic(aead, Seal(stages[i].ring, s).value, p)
    requires s.envelope.Some? ==> stages[j].envelope.Some? && stages[j].envelope.value(s.envelope.value.0) == Some(s.envelope.value.1)
    ensures Open(aead, stages[j].ring, stages[j].envelope, Encode(Seal(stages[i].ring, s).value)) == Ok(p)
  {
    var l := Seal(stages[i].ring, s).value;
    var ring := stages[j].ring;
    KeysKept(stages, i, j);
    DirectExact(aead, ring, l, p);
    if stages[j].envelope.Some? {
      UnwrapExact(aead, l, p, stages[j].envelope.value);
    }
    FirstBytes(l);
    hide DecryptBody, Authentic, TryDecryptDirect, UnwrapEnvelope, Encode, Rotates;
  }

  lemma FirstBytes(l: Layout)
    requires WellFormed(l)
    ensures l.Enveloped? ==> StartsWithByte(Encode(l), SCHEME_ENVELOPE)
    ensures l.Keyed? ==> StartsWithByte(Encode(l), SCHEME_KEYED)
  {
  }

  /** Dropping a key is not silent: once no candidate holds it, its id-less rows are refused, and a keyed row
      whose id is gone is refused by that id. */
  lemma DroppedKeyFailsClosed(aead: Aead, ring: Keyring, envelope: Option<Unwrapper>, l: Layout, p: string)
    requires Authentic(aead, l, p) && !l.Enveloped?
    requires if l.Idless? then !HoldsKey(ring, l.key) else l.id !in ring.byId
    ensures Open(aead, ring, envelope, Encode(l)).Err?
    ensures l.Keyed? ==> Open(aead, ring, envelope, Encode(l)) == Err(KeyNotConfigured(l.id))
  {
    DirectExact(aead, ring, l, p);
    if envelope.Some? {
      UnwrapExact(aead, l, p, envelope.value);
    }
    FirstBytes(l);
    hide DecryptBody, Authentic, TryDecryptDirect, UnwrapEnvelope, Encode;
  }
}
