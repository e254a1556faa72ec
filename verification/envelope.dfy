/**
 Envelope encryption of secrets: a fresh data key seals the plaintext, the master key seals the data
 key.  AES-GCM and HKDF are abstract (`Primitives`); the laws assumed of them are NIST SP 800-38D,
 section 7: opening what was sealed with the same key and nonce gives the plaintext back, and a
 sealed text is 16 bytes longer.
 */
module Envelope {
  import opened Common

  const KEY_SIZE: nat := 32
  const NONCE_SIZE: nat := 12
  const TAG_SIZE: nat := 16

  datatype Primitives = Primitives(
    seal: (Bytes, Bytes, Bytes) -> Bytes,
    open: (Bytes, Bytes, Bytes) -> Option<Bytes>,
    hkdf: Bytes -> Bytes)

  ghost predicate Lawful(p: Primitives) {
    && (forall key, nonce, text :: |key| == KEY_SIZE && |nonce| == NONCE_SIZE ==>
          p.open(key, nonce, p.seal(key, nonce, text)) == Some(text))
    && (forall key, nonce, text :: |p.seal(key, nonce, text)| == |text| + TAG_SIZE)
    && (forall key :: |p.hkdf(key)| == KEY_SIZE)
  }

  /** No key of the set opens what another one of the set sealed. */
  ghost predicate Distinguishes(p: Primitives, keys: set<Bytes>) {
    forall key, other, nonce, text | key in keys && other in keys && key != other && |nonce| == NONCE_SIZE ::
      p.open(other, nonce, p.seal(key, nonce, text)) == None
  }

  function Zeros(n: nat): Bytes {
    seq(n, i => 0)
  }

  /** The first sixteen bytes of a key. */
  function Head(key: Bytes): Bytes {
    if |key| >= TAG_SIZE then key[..TAG_SIZE] else Zeros(TAG_SIZE)
  }

  predicate DistinctHeads(keys: set<Bytes>) {
    forall key, other | key in keys && other in keys && key != other :: Head(key) != Head(other)
  }

  function Tagged(key: Bytes, text: Bytes): Bytes {
    text + Head(key)
  }

  function Untagged(key: Bytes, c: Bytes): Option<Bytes> {
    if |c| >= TAG_SIZE && c[|c| - TAG_SIZE..] == Head(key) then Some(c[..|c| - TAG_SIZE]) else None
  }

  lemma UntagTagged(key: Bytes, other: Bytes, text: Bytes)
    ensures Untagged(other, Tagged(key, text)) == if Head(key) == Head(other) then Some(text) else None
  {
    var c := Tagged(key, text);
    assert c[|c| - TAG_SIZE..] == Head(key) && c[..|c| - TAG_SIZE] == text;
  }

  /** The laws can be met together, for any keys that differ early: a seal may append the head of its key. */
  lemma LawsCanBeMet(keys: set<Bytes>) returns (p: Primitives)
    requires DistinctHeads(keys)
    ensures Lawful(p) && Distinguishes(p, keys)
  {
    p := Primitives((key, nonce, text) => Tagged(key, text), (key, nonce, c) => Untagged(key, c), key => Zeros(KEY_SIZE));
    forall key, other, text: Bytes
      ensures Untagged(other, Tagged(key, text)) == if Head(key) == Head(other) then Some(text) else None
    {
      UntagTagged(key, other, text);
    }
  }

  // ---------- Byte layout ----------

  /** `binary.BigEndian.PutUint32` */
  function BigEndian(n: nat): Bytes
    requires n < 0x1_0000_0000
  {
    [(n / 0x100_0000) as Byte, (n / 0x1_0000 % 0x100) as Byte, (n / 0x100 % 0x100) as Byte, (n % 0x100) as Byte]
  }

  function FromBigEndian(s: Bytes): nat
    requires |s| >= 4
  {
    s[0] as nat * 0x100_0000 + s[1] as nat * 0x1_0000 + s[2] as nat * 0x100 + s[3] as nat
  }

  lemma BigEndianRoundTrip(n: nat)
    requires n < 0x1_0000_0000
    ensures FromBigEndian(BigEndian(n)) == n
  {
    var q := n / 0x100;
    var r := q / 0x100;
    assert n / 0x1_0000 == r;
    assert n / 0x100_0000 == r / 0x100;
    assert n == q * 0x100 + n % 0x100;
    assert q == r * 0x100 + q % 0x100;
    assert r == r / 0x100 * 0x100 + r % 0x100;
    assert r / 0x100 < 0x100;
  }

  datatype Parts = Parts(sealedKey: Bytes, keyNonce: Bytes, textNonce: Bytes, sealedText: Bytes)

  predicate Layable(parts: Parts) {
    |parts.sealedKey| < 0x1_0000_0000 && |parts.keyNonce| == NONCE_SIZE && |parts.textNonce| == NONCE_SIZE
  }

  function Layout(parts: Parts): Bytes
    requires Layable(parts)
  {
    BigEndian(|parts.sealedKey|) + parts.sealedKey + parts.keyNonce + parts.textNonce + parts.sealedText
  }

  /** Splits any byte string, or reports that it is too short. */
  function Split(c: Bytes): (parts: Option<Parts>)
    ensures parts.Some? ==> Layable(parts.value) && |parts.value.sealedText| >= TAG_SIZE && Layout(parts.value) == c
  {
    if |c| < 4 + NONCE_SIZE + NONCE_SIZE + TAG_SIZE then None
    else
      var n := FromBigEndian(c);
      if |c| < 4 + n + NONCE_SIZE + NONCE_SIZE + TAG_SIZE then None
      else
        var a, b := 4 + n, 4 + n + NONCE_SIZE;
        var parts := Parts(c[4..a], c[a..b], c[b..b + NONCE_SIZE], c[b + NONCE_SIZE..]);
        LayoutOfSplit(c);
        Some(parts)
  }

  lemma LayoutOfSplit(c: Bytes)
    requires |c| >= 4 && |c| >= 4 + FromBigEndian(c) + NONCE_SIZE + NONCE_SIZE
    ensures var n := FromBigEndian(c);
            var a, b := 4 + n, 4 + n + NONCE_SIZE;
            && n < 0x1_0000_0000
            && BigEndian(n) + c[4..a] + c[a..b] + c[b..b + NONCE_SIZE] + c[b + NONCE_SIZE..] == c
  {
    var n := FromBigEndian(c);
    BigEndianOfBytes(c[0], c[1], c[2], c[3]);
    assert BigEndian(n) == c[..4];
  }

  lemma BigEndianOfBytes(a: Byte, b: Byte, c: Byte, d: Byte)
    ensures var n := FromBigEndian([a, b, c, d]);
            n < 0x1_0000_0000 && BigEndian(n) == [a, b, c, d]
  {
    var n := FromBigEndian([a, b, c, d]);
    assert n / 0x100 == a as nat * 0x1_0000 + b as nat * 0x100 + c as nat;
    assert n / 0x1_0000 == a as nat * 0x100 + b as nat;
    assert n / 0x100_0000 == a as nat;
  }

  /** What was laid out splits into the same parts; with Split's own contract the two are inverse. */
  lemma SplitOfLayout(parts: Parts)
    requires Layable(parts)
    ensures Split(Layout(parts)) == if |parts.sealedText| >= TAG_SIZE then Some(parts) else None
  {
    var c := Layout(parts);
    var n := |parts.sealedKey|;
    BigEndianRoundTrip(n);
    assert c[..4] == BigEndian(n);
    assert FromBigEndian(c) == FromBigEndian(c[..4]);
    var a, b := 4 + n, 4 + n + NONCE_SIZE;
    assert c[4..a] == parts.sealedKey && c[a..b] == parts.keyNonce;
    assert c[b..b + NONCE_SIZE] == parts.textNonce && c[b + NONCE_SIZE..] == parts.sealedText;
  }

  // ---------- What encryption means ----------

  datatype Error = NoKey | TooShort | BadKeySeal | BadTextSeal

  datatype Result = Ok(text: Bytes) | Err(error: Error)

  /** The random bytes of one encryption. */
  datatype Randomness = Randomness(dek: Bytes, keyNonce: Bytes, textNonce: Bytes)

  predicate WellSized(r: Randomness) {
    |r.dek| == KEY_SIZE && |r.keyNonce| == NONCE_SIZE && |r.textNonce| == NONCE_SIZE
  }

  /** The 32-byte master key that any key material stands for. */
  function Derived(p: Primitives, key: Bytes): Bytes {
    if |key| == KEY_SIZE then key else p.hkdf(key)
  }

  function EncryptedParts(p: Primitives, key: Bytes, plaintext: Bytes, r: Randomness): Parts {
    Parts(p.seal(Derived(p, key), r.keyNonce, r.dek), r.keyNonce, r.textNonce, p.seal(r.dek, r.textNonce, plaintext))
  }

  /** The envelope of a plaintext. */
  function Encrypted(p: Primitives, key: Bytes, plaintext: Bytes, r: Randomness): Bytes
    requires Lawful(p) && WellSized(r)
  {
    Layout(EncryptedParts(p, key, plaintext, r))
  }

  /** Decryption of any byte string under the key material. */
  function Decrypted(p: Primitives, key: Bytes, c: Bytes): Result {
    match Split(c)
    case None => Err(TooShort)
    case Some(parts) =>
      match p.open(Derived(p, key), parts.keyNonce, parts.sealedKey)
      case None => Err(BadKeySeal)
      case Some(dek) =>
        match p.open(dek, parts.textNonce, parts.sealedText)
        case None => Err(BadTextSeal)
        case Some(text) => Ok(text)
  }

  /** Round trip for every key, plaintext and choice of random bytes. */
  lemma EnvelopeRoundTrip(p: Primitives, key: Bytes, plaintext: Bytes, r: Randomness)
    requires Lawful(p) && WellSized(r)
    ensures Decrypted(p, key, Encrypted(p, key, plaintext, r)) == Ok(plaintext)
    ensures Encrypted(p, key, plaintext, r) != []
  {
    SplitOfLayout(EncryptedParts(p, key, plaintext, r));
  }

  /** The length of the sealed key, most significant byte first, then the parts one after the other. */
  lemma LayoutByPosition(parts: Parts)
    requires Layable(parts)
    ensures var c, n := Layout(parts), |parts.sealedKey|;
            && |c| == 4 + n + NONCE_SIZE + NONCE_SIZE + |parts.sealedText|
            && n == ((c[0] as nat * 256 + c[1] as nat) * 256 + c[2] as nat) * 256 + c[3] as nat
            && c[4..4 + n] == parts.sealedKey
            && c[4 + n..4 + n + NONCE_SIZE] == parts.keyNonce
            && c[4 + n + NONCE_SIZE..4 + n + NONCE_SIZE + NONCE_SIZE] == parts.textNonce
            && c[4 + n + NONCE_SIZE + NONCE_SIZE..] == parts.sealedText
  {
    BigEndianRoundTrip(|parts.sealedKey|);
    assert Layout(parts)[..4] == BigEndian(|parts.sealedKey|);
  }

  /** Exactly the layouts with a complete sealed text are split. */
  lemma SplitIffLaidOut(c: Bytes)
    ensures Split(c).Some? <==> exists parts :: Layable(parts) && |parts.sealedText| >= TAG_SIZE && Layout(parts) == c
  {
    forall parts | Layable(parts) && |parts.sealedText| >= TAG_SIZE && Layout(parts) == c
      ensures Split(c).Some?
    {
      SplitOfLayout(parts);
    }
  }

  /** The two seals of an envelope: the master key opens the data key, and the data key opens the text. */
  lemma MasterKeyOpensDataKey(p: Primitives, key: Bytes, plaintext: Bytes, r: Randomness)
    requires Lawful(p) && WellSized(r)
    ensures var split := Split(Encrypted(p, key, plaintext, r));
            && split.Some?
            && var parts := split.value;
               && parts.keyNonce == r.keyNonce && parts.textNonce == r.textNonce
               && (|key| == 32 ==> p.open(key, r.keyNonce, parts.sealedKey) == Some(r.dek))
               && (|key| != 32 ==> p.open(p.hkdf(key), r.keyNonce, parts.sealedKey) == Some(r.dek))
               && p.open(r.dek, r.textNonce, parts.sealedText) == Some(plaintext)
  {
    SplitOfLayout(EncryptedParts(p, key, plaintext, r));
  }

  /** Key material of 32 bytes is the master key; any other is stretched to one. */
  predicate IsMasterKeyOf(p: Primitives, master: Bytes, key: Bytes) {
    (|key| == 32 && master == key) || (|key| != 32 && master == p.hkdf(key))
  }

  /** What was encrypted under one master key does not decrypt under another. */
  lemma WrongMasterKeyFails(p: Primitives, key: Bytes, other: Bytes, a: Bytes, b: Bytes, plaintext: Bytes, r: Randomness)
    requires Lawful(p) && WellSized(r) && IsMasterKeyOf(p, a, key) && IsMasterKeyOf(p, b, other)
    requires a != b && Distinguishes(p, {a, b})
    ensures Decrypted(p, other, Encrypted(p, key, plaintext, r)) == Err(BadKeySeal)
  {
    SplitOfLayout(EncryptedParts(p, key, plaintext, r));
  }

  // ---------- The user layer ----------

  /** AES256GCMEncrypt: the nonce, then the sealed text; None for a key of the wrong size. */
  function Wrap(p: Primitives, key: Bytes, nonce: Bytes, text: Bytes): Option<Bytes> {
    if |key| != KEY_SIZE then None else Some(nonce + p.seal(key, nonce, text))
  }

  /** AES256GCMDecrypt */
  function Unwrap(p: Primitives, key: Bytes, c: Bytes): Option<Bytes> {
    if |key| != KEY_SIZE || |c| < TAG_SIZE || |c| < NONCE_SIZE then None
    else p.open(key, c[..NONCE_SIZE], c[NONCE_SIZE..])
  }

  lemma WrapRoundTrip(p: Primitives, key: Bytes, nonce: Bytes, text: Bytes)
    requires Lawful(p) && |nonce| == NONCE_SIZE
    ensures Wrap(p, key, nonce, text).Some? <==> |key| == KEY_SIZE
    ensures |key| == KEY_SIZE ==>
              Wrap(p, key, nonce, text).value != [] && Unwrap(p, key, Wrap(p, key, nonce, text).value) == Some(text)
  {
    var sealed := p.seal(key, nonce, text);
    assert (nonce + sealed)[..NONCE_SIZE] == nonce && (nonce + sealed)[NONCE_SIZE..] == sealed;
  }

  // ---------- Arrays ----------

  method Zeroize(b: array<Byte>)
    modifies b
    ensures forall i | 0 <= i < b.Length :: b[i] == 0
  {
    for i := 0 to b.Length
      invariant forall k | 0 <= k < i :: b[k] == 0
    {
      b[i] := 0;
    }
  }

  method CopyOf(s: Bytes) returns (a: array<Byte>)
    ensures fresh(a) && a[..] == s
  {
    a := new Byte[|s|](i requires 0 <= i < |s| => s[i]);
  }

  /** The key provider: caches the array it parsed, and hands that very array to the first caller. */
  class EnvVarProvider {
    /** The key material configured in the environment, if any. */
    const configured: Option<Bytes>
    var cached: array?<Byte>

    /** The cache, when filled, holds the configured key. */
    ghost predicate Valid()
      reads this, cached
    {
      cached != null ==> configured.Some? && cached[..] == configured.value
    }

    constructor (configured: Option<Bytes>)
      ensures Valid() && this.configured == configured && cached == null
    {
      this.configured := configured;
      cached := null;
    }

    /** A copy of the cache, or, on the call that fills it, the cache itself. */
    method GetKey() returns (key: Option<array<Byte>>)
      requires Valid()
      modifies this
      ensures Valid()
      ensures key.Some? <==> configured.Some?
      ensures key.Some? ==> key.value[..] == configured.value && fresh(key.value)
      ensures key.Some? ==> (key.value == cached <==> old(cached) == null)
      ensures old(cached) != null ==> cached == old(cached)
      ensures cached != old(cached) ==> fresh(cached)
    {
      if cached != null {
        var copied := CopyOf(cached[..]);
        return Some(copied);
      }
      if configured.None? {
        return None;
      }
      cached := CopyOf(configured.value);
      return Some(cached);
    }

    /** Wipes the cache and forgets it. */
    method Close()
      requires Valid()
      modifies this, cached
      ensures Valid() && cached == null
    {
      if cached != null {
        Zeroize(cached);
        cached := null;
      }
    }
  }

  class EnvelopeEncryptor {
    const p: Primitives
    const provider: EnvVarProvider

    constructor (p: Primitives, provider: EnvVarProvider)
      ensures this.p == p && this.provider == provider
    {
      this.p, this.provider := p, provider;
    }

    /** Always a new array, so wiping it cannot reach the provider's cache. */
    method DeriveKey(key: array<Byte>) returns (derived: array<Byte>)
      ensures fresh(derived) && derived[..] == Derived(p, key[..])
      ensures IsMasterKeyOf(p, derived[..], key[..])
    {
      if key.Length == KEY_SIZE {
        derived := CopyOf(key[..]);
      } else {
        derived := CopyOf(p.hkdf(key[..]));
      }
    }

    method Encrypt(plaintext: Bytes, r: Randomness) returns (ciphertext: Option<Bytes>)
      requires provider.Valid() && Lawful(p) && WellSized(r)
      modifies provider
      ensures provider.Valid()
      ensures provider.cached != null && provider.cached != old(provider.cached) ==> fresh(provider.cached)
      ensures ciphertext.Some? <==> provider.configured.Some?
      ensures ciphertext.Some? ==>
                ciphertext.value == Encrypted(p, provider.configured.value, plaintext, r)
      ensures ciphertext.Some? ==> Decrypted(p, provider.configured.value, ciphertext.value) == Ok(plaintext)
    {
      var key := provider.GetKey();
      if key.None? {
        return None;
      }
      var kek := DeriveKey(key.value);
      var dek := CopyOf(r.dek);
      var sealedText := p.seal(dek[..], r.textNonce, plaintext);
      var sealedKey := p.seal(kek[..], r.keyNonce, dek[..]);
      var parts := Parts(sealedKey, r.keyNonce, r.textNonce, sealedText);
      EnvelopeRoundTrip(p, provider.configured.value, plaintext, r);
      Zeroize(dek);
      Zeroize(kek);
      return Some(Layout(parts));
    }

    method DecryptNoClose(ciphertext: Bytes) returns (result: Result)
      requires provider.Valid()
      modifies provider
      ensures provider.Valid()
      ensures provider.cached != null && provider.cached != old(provider.cached) ==> fresh(provider.cached)
      ensures result == if provider.configured.None? then Err(NoKey)
                        else Decrypted(p, provider.configured.value, ciphertext)
    {
      var key := provider.GetKey();
      if key.None? {
        return Err(NoKey);
      }
      var kek := DeriveKey(key.value);
      result := OpenWith(kek, ciphertext);
      Zeroize(kek);
    }

    method Decrypt(ciphertext: Bytes) returns (result: Result)
      requires provider.Valid()
      modifies provider, provider.cached
      ensures provider.Valid()
      ensures provider.cached != null && provider.cached != old(provider.cached) ==> fresh(provider.cached)
      ensures provider.configured.Some? ==> provider.cached == null
      ensures result == if provider.configured.None? then Err(NoKey)
                        else Decrypted(p, provider.configured.value, ciphertext)
    {
      var key := provider.GetKey();
      if key.None? {
        return Err(NoKey);
      }
      var kek := DeriveKey(key.value);
      result := OpenWith(kek, ciphertext);
      provider.Close();
      Zeroize(kek);
    }

    /** The common body of both decryptions: bounds checks, then the two openings. */
    method OpenWith(kek: array<Byte>, ciphertext: Bytes) returns (result: Result)
      ensures forall key | Derived(p, key) == kek[..] :: result == Decrypted(p, key, ciphertext)
    {
      if |ciphertext| < 4 + NONCE_SIZE + NONCE_SIZE + TAG_SIZE {
        return Err(TooShort);
      }
      var encryptedDEKLen := FromBigEndian(ciphertext);
      var offset := 4;
      if |ciphertext| < offset + encryptedDEKLen + NONCE_SIZE + NONCE_SIZE + TAG_SIZE {
        return Err(TooShort);
      }
      var encryptedDEK := ciphertext[offset..offset + encryptedDEKLen];
      offset := offset + encryptedDEKLen;
      var nonceDEK := ciphertext[offset..offset + NONCE_SIZE];
      offset := offset + NONCE_SIZE;
      var noncePT := ciphertext[offset..offset + NONCE_SIZE];
      offset := offset + NONCE_SIZE;
      var sealedText := ciphertext[offset..];
      var dek := p.open(kek[..], nonceDEK, encryptedDEK);
      if dek.None? {
        return Err(BadKeySeal);
      }
      var text := p.open(dek.value, noncePT, sealedText);
      return if text.None? then Err(BadTextSeal) else Ok(text.value);
    }

    /** One call, and the ciphertext it made, if any. */
    method Perform(call: Call) returns (made: seq<(Bytes, Bytes)>)
      requires provider.Valid() && Lawful(p) && provider.configured.Some? && (call.Seal? ==> WellSized(call.r))
      modifies provider, provider.cached
      ensures provider.Valid()
      ensures provider.cached != null && provider.cached != old(provider.cached) ==> fresh(provider.cached)
      ensures AllRecover(p, provider.configured.value, made)
      ensures Plaintexts(made) == SealedBy(call)
    {
      made := [];
      match call {
        case Seal(plaintext, r) =>
          var c := Encrypt(plaintext, r);
          made := [(plaintext, c.value)];
        case Open(c) =>
          var _ := Decrypt(c);
        case OpenNoClose(c) =>
          var _ := DecryptNoClose(c);
      }
    }

    /** Any sequence of calls: every ciphertext made so far keeps decrypting to its plaintext. */
    method RunCalls(calls: seq<Call>) returns (made: seq<(Bytes, Bytes)>)
      requires provider.Valid() && Lawful(p) && provider.configured.Some?
      requires forall call | call in calls && call.Seal? :: WellSized(call.r)
      modifies provider, provider.cached
      ensures provider.Valid()
      ensures AllRecover(p, provider.configured.value, made)
      ensures Plaintexts(made) == SealedIn(calls)
    {
      made := [];
      for i := 0 to |calls|
        invariant provider.Valid()
        invariant provider.cached != null && provider.cached != old(provider.cached) ==> fresh(provider.cached)
        invariant AllRecover(p, provider.configured.value, made)
        invariant Plaintexts(made) == SealedIn(calls[..i])
      {
        var more := Perform(calls[i]);
        Extend(p, provider.configured.value, made, more, calls, i);
        made := made + more;
      }
      assert calls[..|calls|] == calls;
    }
  }

  datatype Call = Seal(plaintext: Bytes, r: Randomness) | Open(c: Bytes) | OpenNoClose(c: Bytes)

  function SealedBy(call: Call): seq<Bytes> {
    if call.Seal? then [call.plaintext] else []
  }

  /** The plaintexts of the sealing calls, in order. */
  function SealedIn(calls: seq<Call>): seq<Bytes> {
    if calls == [] then [] else SealedIn(calls[..|calls| - 1]) + SealedBy(calls[|calls| - 1])
  }

  function Plaintexts(made: seq<(Bytes, Bytes)>): seq<Bytes> {
    seq(|made|, i requires 0 <= i < |made| => made[i].0)
  }

  /** Each pair is a plaintext and a ciphertext that decrypts to it. */
  ghost predicate AllRecover(p: Primitives, key: Bytes, made: seq<(Bytes, Bytes)>) {
    forall i | 0 <= i < |made| :: Decrypted(p, key, made[i].1) == Ok(made[i].0)
  }

  lemma Extend(p: Primitives, key: Bytes, made: seq<(Bytes, Bytes)>, more: seq<(Bytes, Bytes)>, calls: seq<Call>, i: nat)
    requires i < |calls| && AllRecover(p, key, made) && AllRecover(p, key, more)
    requires Plaintexts(made) == SealedIn(calls[..i]) && Plaintexts(more) == SealedBy(calls[i])
    ensures AllRecover(p, key, made + more) && Plaintexts(made + more) == SealedIn(calls[..i + 1])
  {
    assert Plaintexts(made + more) == Plaintexts(made) + Plaintexts(more);
    assert calls[..i + 1][..i] == calls[..i];
  }
}
