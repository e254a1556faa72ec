/**
 Stored user tokens.  A token row may hold a plaintext, a master-key ciphertext (read when a backend
 is spawned), and that ciphertext wrapped again under a key derived from the user's password.
 Changing the password rewrites every row; migration encrypts rows that are still plain.
 */
module Tokens {
  import opened Common
  import opened Envelope

  datatype Kind = Legacy | UserKind

  /** Empty columns stand for NULL, as the queries coalesce them. */
  datatype Row = Row(value: Bytes, encrypted: Bytes, encryptedDEK: Bytes, kind: Kind)

  datatype Key = Key(userID: string, backendID: string, envKey: string)

  type Table = map<Key, Row>

  /** The primitives and the master key of the key store. */
  datatype Vault = Vault(p: Primitives, master: Bytes)

  /** The random bytes of one write of both layers. */
  datatype Fresh = Fresh(envelope: Randomness, nonce: Bytes)

  predicate Sized(f: Fresh) {
    WellSized(f.envelope) && |f.nonce| == NONCE_SIZE
  }

  function OpenMaster(v: Vault, c: Bytes): Option<Bytes> {
    match Decrypted(v.p, v.master, c)
    case Ok(text) => Some(text)
    case Err(_) => None
  }

  /** GetUserTokenDecrypted: what a spawned backend gets. */
  function MasterPath(v: Vault, r: Row): Option<Bytes> {
    if r.encrypted != [] then OpenMaster(v, r.encrypted) else Some(r.value)
  }

  /** GetUserTokenDecryptedWithUserDEK: what the user gets with the derived key. */
  function UserPath(v: Vault, dek: Bytes, r: Row): Option<Bytes> {
    if r.encryptedDEK == [] then None
    else
      match Unwrap(v.p, dek, r.encryptedDEK)
      case None => None
      case Some(c) => OpenMaster(v, c)
  }

  /** The row written by SetUserTokenWithUserDEK; None for a user key of the wrong size. */
  function Layered(v: Vault, dek: Bytes, text: Bytes, f: Fresh): Option<Row>
    requires Lawful(v.p) && Sized(f)
  {
    var c := Encrypted(v.p, v.master, text, f.envelope);
    match Wrap(v.p, dek, f.nonce, c)
    case None => None
    case Some(wrapped) => Some(Row([], c, wrapped, UserKind))
  }

  /** The plaintext that the password-change loop recovers from a row. */
  function Recovered(v: Vault, dek: Bytes, r: Row): Bytes {
    var user := if r.encryptedDEK != [] && r.kind == UserKind then UserPath(v, dek, r) else None;
    if user.Some? && user.value != [] then user.value
    else
      var master := if r.encrypted != [] then MasterPath(v, r) else None;
      if master.Some? && master.value != [] then master.value else r.value
  }

  function Rewrapped(v: Vault, dek: Bytes, newDEK: Bytes, r: Row, f: Fresh): Row
    requires Lawful(v.p) && Sized(f)
  {
    var text := Recovered(v, dek, r);
    if text == [] then r
    else
      match Layered(v, newDEK, text, f)
      case None => r
      case Some(row) => row
  }

  function Migrated(v: Vault, r: Row, f: Fresh): Row
    requires Lawful(v.p) && Sized(f)
  {
    if r.encrypted == [] && r.value != [] then r.(encrypted := Encrypted(v.p, v.master, r.value, f.envelope)) else r
  }

  /** The table after a migration, and after a password change of one user. */
  function MigratedAll(v: Vault, t: Table, random: Key -> Fresh): Table
    requires Lawful(v.p) && forall key | key in t :: Sized(random(key))
  {
    map key | key in t :: Migrated(v, t[key], random(key))
  }

  function RewrappedAll(v: Vault, t: Table, userID: string, dek: Bytes, newDEK: Bytes, random: Key -> Fresh): Table
    requires Lawful(v.p) && forall key | key in t :: Sized(random(key))
  {
    map key | key in t :: if key.userID == userID then Rewrapped(v, dek, newDEK, t[key], random(key)) else t[key]
  }

  class Store {
    const v: Vault
    var tokens: Table

    constructor (v: Vault)
      ensures this.v == v && tokens == map[]
    {
      this.v, tokens := v, map[];
    }

    method SetUserToken(key: Key, value: Bytes)
      modifies this
      ensures tokens == old(tokens)[key := Row(value, [], [], Legacy)]
    {
      tokens := tokens[key := Row(value, [], [], Legacy)];
    }

    /** False for a user key of the wrong size. */
    method SetUserTokenWithUserDEK(key: Key, text: Bytes, dek: Bytes, f: Fresh) returns (ok: bool)
      requires Lawful(v.p) && Sized(f)
      modifies this
      ensures ok == Layered(v, dek, text, f).Some?
      ensures tokens == if ok then old(tokens)[key := Layered(v, dek, text, f).value] else old(tokens)
    {
      var masterCiphertext := Encrypted(v.p, v.master, text, f.envelope);
      var wrapped := Wrap(v.p, dek, f.nonce, masterCiphertext);
      if wrapped.None? {
        return false;
      }
      tokens := tokens[key := Row([], masterCiphertext, wrapped.value, UserKind)];
      return true;
    }

    method DeleteUserToken(key: Key)
      modifies this
      ensures tokens == old(tokens) - {key}
    {
      tokens := tokens - {key};
    }

    method GetUserTokenDecrypted(key: Key) returns (text: Option<Bytes>)
      ensures text == if key in tokens then MasterPath(v, tokens[key]) else None
    {
      if key !in tokens {
        return None;
      }
      var row := tokens[key];
      if row.encrypted != [] {
        return OpenMaster(v, row.encrypted);
      }
      return Some(row.value);
    }

    method GetUserTokenDecryptedWithUserDEK(key: Key, dek: Bytes) returns (text: Option<Bytes>)
      ensures text == if key in tokens then UserPath(v, dek, tokens[key]) else None
    {
      if key !in tokens || tokens[key].encryptedDEK == [] {
        return None;
      }
      var c := Unwrap(v.p, dek, tokens[key].encryptedDEK);
      if c.None? {
        return None;
      }
      return OpenMaster(v, c.value);
    }

    method MigrateSecrets(random: Key -> Fresh)
      requires Lawful(v.p) && forall key | key in tokens :: Sized(random(key))
      modifies this
      ensures tokens == MigratedAll(v, old(tokens), random)
    {
      ghost var before := tokens;
      var left := tokens.Keys;
      while left != {}
        invariant left <= before.Keys == tokens.Keys
        invariant forall key | key in before ::
                    tokens[key] == if key in left then before[key] else Migrated(v, before[key], random(key))
      {
        var key :| key in left;
        var row := tokens[key];
        if row.encrypted == [] && row.value != [] {
          tokens := tokens[key := row.(encrypted := Encrypted(v.p, v.master, row.value, random(key).envelope))];
        }
        left := left - {key};
      }
    }

    /** The loop of the password change over all tokens of one user. */
    method ReencryptTokens(userID: string, dek: Bytes, newDEK: Bytes, random: Key -> Fresh)
      requires Lawful(v.p) && forall key | key in tokens :: Sized(random(key))
      modifies this
      ensures tokens == RewrappedAll(v, old(tokens), userID, dek, newDEK, random)
    {
      ghost var before := tokens;
      var left := set key | key in tokens && key.userID == userID;
      while left != {}
        invariant tokens.Keys == before.Keys
        invariant forall key | key in left :: key in before && key.userID == userID
        invariant forall key | key in before ::
                    tokens[key] == if key.userID == userID && key !in left
                                   then Rewrapped(v, dek, newDEK, before[key], random(key)) else before[key]
      {
        var key :| key in left;
        RewrapToken(key, dek, newDEK, random(key));
        left := left - {key};
      }
    }

    /** The body of the loop: recovers the plaintext and, if there is one, writes both layers anew. */
    method RewrapToken(key: Key, dek: Bytes, newDEK: Bytes, f: Fresh)
      requires Lawful(v.p) && Sized(f) && key in tokens
      modifies this
      ensures tokens == old(tokens)[key := Rewrapped(v, dek, newDEK, old(tokens)[key], f)]
    {
      var t := tokens[key];
      var plaintext := [];
      if t.encryptedDEK != [] && t.kind == UserKind {
        var val := GetUserTokenDecryptedWithUserDEK(key, dek);
        if val.Some? {
          plaintext := val.value;
        }
      }
      if plaintext == [] && t.encrypted != [] {
        var val := GetUserTokenDecrypted(key);
        if val.Some? {
          plaintext := val.value;
        }
      }
      if plaintext == [] {
        plaintext := t.value;
      }
      if plaintext != [] {
        var ok := SetUserTokenWithUserDEK(key, plaintext, newDEK, f);
      }
    }
  }

  // ---------- Which columns count ----------

  /** With a master ciphertext the plain column is never read; without one it is all there is. */
  lemma CiphertextBeatsPlain(v: Vault, dek: Bytes, r: Row, other: Bytes)
    ensures r.encrypted != [] ==> MasterPath(v, r.(value := other)) == MasterPath(v, r)
    ensures r.encrypted == [] ==> MasterPath(v, r) == Some(r.value)
    ensures UserPath(v, dek, r.(value := other)) == UserPath(v, dek, r)
    ensures r.encryptedDEK == [] ==> UserPath(v, dek, r).None?
  {}

  /** A row with a user layer keeps no plain value, and both its layers are there. */
  lemma LayeredKeepsNoPlain(v: Vault, dek: Bytes, text: Bytes, f: Fresh)
    requires Lawful(v.p) && Sized(f)
    ensures var r := Layered(v, dek, text, f);
            && (r.Some? <==> |dek| == 32)
            && (r.Some? ==> r.value.value == [] && r.value.encrypted != [] && r.value.encryptedDEK != [] && r.value.kind == UserKind)
  {
    EnvelopeRoundTrip(v.p, v.master, text, f.envelope);
    WrapRoundTrip(v.p, dek, f.nonce, Encrypted(v.p, v.master, text, f.envelope));
  }

  /** Migration leaves no value without a master ciphertext, and touches only rows that had none. */
  lemma MigrationEncryptsWhatIsPlain(v: Vault, r: Row, f: Fresh)
    requires Lawful(v.p) && Sized(f)
    ensures var after := Migrated(v, r, f);
            && (r.value != [] ==> after.encrypted != [])
            && (r.value == [] || r.encrypted != [] ==> after == r)
            && after.value == r.value && after.encryptedDEK == r.encryptedDEK && after.kind == r.kind
  {
    EnvelopeRoundTrip(v.p, v.master, r.value, f.envelope);
  }

  /** A password change touches only the tokens of its user, and neither rewriting adds or drops a token. */
  lemma OthersAreUntouched(v: Vault, t: Table, userID: string, dek: Bytes, newDEK: Bytes, random: Key -> Fresh, key: Key)
    requires Lawful(v.p) && (forall key | key in t :: Sized(random(key))) && key in t
    ensures RewrappedAll(v, t, userID, dek, newDEK, random).Keys == t.Keys == MigratedAll(v, t, random).Keys
    ensures key.userID != userID ==> RewrappedAll(v, t, userID, dek, newDEK, random)[key] == t[key]
  {}

  // ---------- Meaning is preserved ----------

  /** A freshly layered row reads back the same on both paths. */
  lemma LayeredReadsBack(v: Vault, dek: Bytes, text: Bytes, f: Fresh)
    requires Lawful(v.p) && Sized(f) && |dek| == KEY_SIZE
    ensures var r := Layered(v, dek, text, f);
            r.Some? && MasterPath(v, r.value) == Some(text) && UserPath(v, dek, r.value) == Some(text)
  {
    EnvelopeRoundTrip(v.p, v.master, text, f.envelope);
    WrapRoundTrip(v.p, dek, f.nonce, Encrypted(v.p, v.master, text, f.envelope));
  }

  /** After the password change every recoverable token reads back on both paths under the new key. */
  lemma ReencryptionReadsBack(v: Vault, dek: Bytes, newDEK: Bytes, r: Row, f: Fresh)
    requires Lawful(v.p) && Sized(f) && |newDEK| == KEY_SIZE
    ensures var text, after := Recovered(v, dek, r), Rewrapped(v, dek, newDEK, r, f);
            if text == [] then after == r
            else MasterPath(v, after) == Some(text) && UserPath(v, newDEK, after) == Some(text)
  {
    LayeredReadsBack(v, newDEK, Recovered(v, dek, r), f);
  }

  /** The user layer, when it can be read, says what the master layer says. */
  predicate LayersAgree(v: Vault, dek: Bytes, r: Row) {
    r.kind == UserKind && UserPath(v, dek, r).Some? && UserPath(v, dek, r).value != [] ==>
      UserPath(v, dek, r) == MasterPath(v, r)
  }

  /**
   Exactly when the value a backend is spawned with survives the password change: for a row with a
   non-empty value, if and only if its two layers agree.
   */
  lemma ValueSurvivesIffLayersAgree(v: Vault, dek: Bytes, newDEK: Bytes, r: Row, f: Fresh)
    requires Lawful(v.p) && Sized(f) && |newDEK| == KEY_SIZE
    requires MasterPath(v, r).Some? && MasterPath(v, r).value != []
    ensures MasterPath(v, Rewrapped(v, dek, newDEK, r, f)) == MasterPath(v, r) <==> LayersAgree(v, dek, r)
    ensures LayersAgree(v, dek, r) ==> UserPath(v, newDEK, Rewrapped(v, dek, newDEK, r, f)) == MasterPath(v, r)
  {
    ReencryptionReadsBack(v, dek, newDEK, r, f);
  }

  /** Every row that the setters and the migration write has agreeing layers. */
  lemma WrittenRowsAgree(v: Vault, dek: Bytes, text: Bytes, f: Fresh, g: Fresh, r: Row)
    requires Lawful(v.p) && Sized(f) && Sized(g) && |dek| == KEY_SIZE
    ensures LayersAgree(v, dek, Row(text, [], [], Legacy))
    ensures LayersAgree(v, dek, Layered(v, dek, text, f).value)
    ensures LayersAgree(v, dek, r) ==> LayersAgree(v, dek, Migrated(v, r, g))
  {
    LayeredReadsBack(v, dek, text, f);
    MigrationPreserves(v, dek, r, g);
  }

  /** Migration changes no token's value on either path. */
  lemma MigrationPreserves(v: Vault, dek: Bytes, r: Row, f: Fresh)
    requires Lawful(v.p) && Sized(f)
    ensures MasterPath(v, Migrated(v, r, f)) == MasterPath(v, r)
    ensures UserPath(v, dek, Migrated(v, r, f)) == UserPath(v, dek, r)
  {
    if r.encrypted == [] && r.value != [] {
      EnvelopeRoundTrip(v.p, v.master, r.value, f.envelope);
    }
  }
}
