/**
 The web sessions of the users and the keys they hold.  A login puts the key derived from the password
 into the session; the handlers take that very array out of the session store and wipe it when they
 are done, so a session's key serves once.  Saved tokens are wrapped under whatever the session holds.
 */
module Sessions {
  import opened Common
  import opened Envelope
  import opened Tokens

  /**
   The tokens, the key bytes of each session, the key that each user's current password derives, the
   text each token was last set to, and the key its user layer was last written under.
   */
  datatype State = State(
    tokens: Table,
    sessions: map<string, Bytes>,
    deks: string -> Bytes,
    texts: map<Key, Bytes>,
    under: map<Key, Bytes>)

  datatype Op =
    | Login(token: string, userID: string)
    | View(token: string)
    | Save(token: string, key: Key, text: Bytes, f: Fresh)
    | ChangePassword(token: string, userID: string, newDEK: Bytes, random: Key -> Fresh)
    | Logout(token: string)
    | Restart(random: Key -> Fresh)
    | SetPlain(key: Key, text: Bytes)
    | Delete(key: Key)

  /** Random bytes have their sizes, and derived keys come from `keys`. */
  ghost predicate Enabled(op: Op, keys: set<Bytes>) {
    match op
    case Save(_, _, _, f) => Sized(f)
    case ChangePassword(_, _, newDEK, random) => newDEK in keys && forall key: Key :: Sized(random(key))
    case Restart(random) => forall key: Key :: Sized(random(key))
    case _ => true
  }

  function Wiped(sessions: map<string, Bytes>, token: string): map<string, Bytes>
    requires token in sessions
  {
    sessions[token := Zeros(|sessions[token]|)]
  }

  /** The form has all its fields. */
  predicate Filled(key: Key, text: Bytes) {
    key.backendID != "" && key.envKey != "" && text != []
  }

  /** A row written under the session's key, and that key wiped. */
  function Written(s: State, token: string, key: Key, text: Bytes, row: Row): State
    requires token in s.sessions
  {
    State(s.tokens[key := row], Wiped(s.sessions, token), s.deks, s.texts[key := text], s.under[key := s.sessions[token]])
  }

  /** The save handler: refused without a session key or with an empty field. */
  function Saved(v: Vault, s: State, token: string, key: Key, text: Bytes, f: Fresh): State
    requires Lawful(v.p) && Sized(f)
  {
    if !Filled(key, text) || token !in s.sessions then s
    else
      var dek := s.sessions[token];
      match Layered(v, dek, text, f)
      case None => s
      case Some(row) =>
        Written(s, token, key, text, row)
  }

  /** The loop found a plaintext for the token, and wrote it anew. */
  predicate IsRewritten(v: Vault, s: State, userID: string, dek: Bytes, key: Key) {
    key.userID == userID && key in s.tokens && Recovered(v, dek, s.tokens[key]) != []
  }

  /** The same derived keys, but for one user. */
  function Rekeyed(deks: string -> Bytes, userID: string, newDEK: Bytes): string -> Bytes {
    u => if u == userID then newDEK else deks(u)
  }

  /** The keys that the user layers are written under once the loop has run. */
  function UnderNew(v: Vault, s: State, userID: string, dek: Bytes, newDEK: Bytes): map<Key, Bytes> {
    map key | key in s.tokens.Keys + s.under.Keys && (IsRewritten(v, s, userID, dek, key) || key in s.under) ::
      if IsRewritten(v, s, userID, dek, key) then newDEK else s.under[key]
  }

  /** The key that the user layer of a token was last written under. */
  function WrittenUnder(under: map<Key, Bytes>, key: Key): Bytes {
    if key in under then under[key] else []
  }

  /** The password handler: the session's old key reads, the new key writes and is then wiped with the old one. */
  function PasswordChanged(v: Vault, s: State, token: string, userID: string, newDEK: Bytes, random: Key -> Fresh): State
    requires Lawful(v.p) && forall key | key in s.tokens :: Sized(random(key))
  {
    if token !in s.sessions then s
    else
      var dek := s.sessions[token];
      State(RewrappedAll(v, s.tokens, userID, dek, newDEK, random),
            s.sessions[token := Zeros(|newDEK|)],
            Rekeyed(s.deks, userID, newDEK),
            s.texts,
            UnderNew(v, s, userID, dek, newDEK))
  }

  ghost function Next(v: Vault, s: State, op: Op, keys: set<Bytes>): State
    requires Lawful(v.p) && Enabled(op, keys)
  {
    match op
    case Login(token, userID) => s.(sessions := s.sessions[token := s.deks(userID)])
    case View(token) => if token in s.sessions then s.(sessions := Wiped(s.sessions, token)) else s
    case Save(token, key, text, f) => Saved(v, s, token, key, text, f)
    case ChangePassword(token, userID, newDEK, random) => PasswordChanged(v, s, token, userID, newDEK, random)
    case Logout(token) => s.(sessions := s.sessions - {token})
    case Restart(random) => s.(sessions := map[], tokens := MigratedAll(v, s.tokens, random))
    case SetPlain(key, text) => s.(tokens := s.tokens[key := Row(text, [], [], Legacy)], texts := s.texts[key := text])
    case Delete(key) => s.(tokens := s.tokens - {key}, texts := s.texts - {key})
  }

  // ---------- The handlers ----------

  /** What the token page shows for a row. */
  function Shown(v: Vault, dek: Option<Bytes>, r: Row): Bytes {
    var text := if dek.Some? && r.encryptedDEK != [] then UserPath(v, dek.value, r) else None;
    if text.Some? then text.value else r.value
  }

  class WebHandler {
    const store: Store
    var sessionDEKStore: map<string, array<Byte>>
    ghost var deks: string -> Bytes
    ghost var texts: map<Key, Bytes>
    ghost var under: map<Key, Bytes>

    /** Distinct sessions hold distinct arrays. */
    ghost predicate Valid()
      reads this
    {
      forall k, l | k in sessionDEKStore && l in sessionDEKStore && k != l :: sessionDEKStore[k] != sessionDEKStore[l]
    }

    ghost function Held(): map<string, Bytes>
      reads this, sessionDEKStore.Values
    {
      map token | token in sessionDEKStore :: sessionDEKStore[token][..]
    }

    ghost function Value(): State
      reads this, store, sessionDEKStore.Values
    {
      State(store.tokens, Held(), deks, texts, under)
    }

    constructor (store: Store, deks: string -> Bytes)
      requires store.tokens == map[]
      ensures Valid() && this.store == store && Value() == State(map[], map[], deks, map[], map[])
    {
      this.store := store;
      sessionDEKStore := map[];
      this.deks, texts, under := deks, map[], map[];
    }

    /** The array itself, not a copy. */
    method GetSessionDEK(token: string) returns (dek: array?<Byte>)
      ensures dek == if token in sessionDEKStore then sessionDEKStore[token] else null
    {
      return if token in sessionDEKStore then sessionDEKStore[token] else null;
    }

    /** Wipes the array that a session holds. */
    method WipeSession(token: string, userDEK: array<Byte>)
      requires Valid() && token in sessionDEKStore && userDEK == sessionDEKStore[token]
      modifies userDEK
      ensures Held() == Wiped(old(Held()), token)
    {
      Zeroize(userDEK);
      assert userDEK[..] == Zeros(userDEK.Length);
    }

    /** Puts the new key into the session after wiping the old one, and wipes the new one in turn. */
    method ReplaceSessionKey(token: string, userDEK: array<Byte>, newUserDEK: array<Byte>)
      requires Valid() && token in sessionDEKStore && userDEK == sessionDEKStore[token]
      requires newUserDEK !in sessionDEKStore.Values
      modifies this`sessionDEKStore, userDEK, newUserDEK
      ensures Valid() && Held() == old(Held())[token := Zeros(newUserDEK.Length)]
    {
      Zeroize(sessionDEKStore[token]);
      sessionDEKStore := sessionDEKStore[token := newUserDEK];
      Zeroize(userDEK);
      Zeroize(newUserDEK);
      assert newUserDEK[..] == Zeros(newUserDEK.Length);
    }

    /** A verified login: `dek` is what the password derives. */
    method LoginPost(token: string, ghost userID: string, dek: Bytes)
      requires Valid() && dek == deks(userID)
      modifies this`sessionDEKStore
      ensures Valid() && Value() == old(Value()).(sessions := old(Held())[token := dek])
      ensures fresh(sessionDEKStore.Values - old(sessionDEKStore.Values))
    {
      var key := CopyOf(dek);
      sessionDEKStore := sessionDEKStore[token := key];
    }

    /** Shows the tokens of one backend, and wipes the key it showed them with. */
    method TokensHandler(token: string, userID: string, backendID: string) returns (shown: map<Key, Bytes>)
      requires Valid()
      modifies sessionDEKStore.Values
      ensures Valid()
      ensures Value() == old(if token in Held() then Value().(sessions := Wiped(Held(), token)) else Value())
      ensures var dek := old(if token in Held() then Some(Held()[token]) else None);
              shown == map key | key in store.tokens && key.userID == userID && key.backendID == backendID ::
                         Shown(store.v, dek, store.tokens[key])
    {
      var userDEK := GetSessionDEK(token);
      shown := ShowAll(userID, backendID, if userDEK != null then Some(userDEK[..]) else None);
      if userDEK != null {
        WipeSession(token, userDEK);
      }
    }

    method ShowAll(userID: string, backendID: string, dek: Option<Bytes>) returns (shown: map<Key, Bytes>)
      ensures shown == map key | key in store.tokens && key.userID == userID && key.backendID == backendID ::
                         Shown(store.v, dek, store.tokens[key])
    {
      shown := map[];
      var all := set key | key in store.tokens && key.userID == userID && key.backendID == backendID;
      var left := all;
      while left != {}
        invariant left <= all
        invariant shown == map key | key in all - left :: Shown(store.v, dek, store.tokens[key])
      {
        var key :| key in left;
        var row := store.tokens[key];
        var text := None;
        if dek.Some? && row.encryptedDEK != [] {
          text := store.GetUserTokenDecryptedWithUserDEK(key, dek.value);
        }
        shown := shown[key := if text.Some? then text.value else row.value];
        left := left - {key};
      }
    }

    /** Saves a token under the session's key, and wipes that key. */
    method TokensSaveHandler(token: string, key: Key, text: Bytes, f: Fresh) returns (ok: bool)
      requires Valid() && Lawful(store.v.p) && Sized(f)
      modifies this`texts, this`under, store, sessionDEKStore.Values
      ensures Valid() && Value() == Saved(store.v, old(Value()), token, key, text, f)
    {
      if key.backendID == "" || key.envKey == "" || text == [] {
        return false;
      }
      var userDEK := GetSessionDEK(token);
      if userDEK == null {
        return false;
      }
      ghost var before := Value();
      ok := store.SetUserTokenWithUserDEK(key, text, userDEK[..], f);
      if ok {
        RecordSave(token, userDEK, key, text, store.tokens[key], before);
      }
    }

    /** The end of a save: the key that wrote the row is wiped. */
    method RecordSave(token: string, userDEK: array<Byte>, ghost key: Key, ghost text: Bytes, ghost row: Row, ghost before: State)
      requires Valid() && token in sessionDEKStore && userDEK == sessionDEKStore[token]
      requires Value() == before.(tokens := before.tokens[key := row]) && token in before.sessions
      modifies this`texts, this`under, userDEK
      ensures Valid() && Value() == Written(before, token, key, text, row)
    {
      WipeSession(token, userDEK);
      texts, under := before.texts[key := text], before.under[key := before.sessions[token]];
    }

    /** Rewrites every token of the user under the new key, which the session then holds wiped. */
    method PasswordHandler(token: string, userID: string, newDEK: Bytes, random: Key -> Fresh) returns (ok: bool)
      requires Valid() && Lawful(store.v.p) && forall key | key in store.tokens :: Sized(random(key))
      modifies this`sessionDEKStore, this`deks, this`under, store, sessionDEKStore.Values
      ensures Valid() && Value() == PasswordChanged(store.v, old(Value()), token, userID, newDEK, random)
    {
      var userDEK := GetSessionDEK(token);
      if userDEK == null {
        return false;
      }
      ghost var before := Value();
      ghost var newUnder := UnderNew(store.v, before, userID, userDEK[..], newDEK);
      var newUserDEK := CopyOf(newDEK);
      store.ReencryptTokens(userID, userDEK[..], newUserDEK[..], random);
      RecordChange(token, userID, userDEK, newUserDEK, newUnder, before.(tokens := store.tokens));
      return true;
    }

    /** The end of a password change: the session gets the new key, and both keys are wiped. */
    method RecordChange(token: string, ghost userID: string, userDEK: array<Byte>, newUserDEK: array<Byte>,
                        ghost newUnder: map<Key, Bytes>, ghost before: State)
      requires Valid() && token in sessionDEKStore && userDEK == sessionDEKStore[token]
      requires newUserDEK !in sessionDEKStore.Values && Value() == before
      modifies this`sessionDEKStore, this`deks, this`under, userDEK, newUserDEK
      ensures Valid()
      ensures Value() == State(before.tokens, before.sessions[token := Zeros(newUserDEK.Length)],
                               Rekeyed(before.deks, userID, old(newUserDEK[..])), before.texts, newUnder)
    {
      deks := Rekeyed(deks, userID, newUserDEK[..]);
      under := newUnder;
      ReplaceSessionKey(token, userDEK, newUserDEK);
    }

    method LogoutHandler(token: string)
      requires Valid()
      modifies this`sessionDEKStore, sessionDEKStore.Values
      ensures Valid() && Value() == old(Value()).(sessions := old(Held()) - {token})
    {
      if token in sessionDEKStore {
        Zeroize(sessionDEKStore[token]);
        sessionDEKStore := sessionDEKStore - {token};
      }
    }
  }

  // ---------- What every run keeps ----------

  /** The row reads as the text by the master key, and by exactly the key its user layer was written under. */
  ghost predicate Means(v: Vault, keys: set<Bytes>, r: Row, text: Bytes, written: Bytes) {
    && MasterPath(v, r) == Some(text)
    && (r.kind == Legacy ==> r.encryptedDEK == [])
    && (text == [] ==> r == Row([], [], [], Legacy))
    && (r.kind == UserKind ==>
          r.value == [] && written in keys && forall dek | dek in keys :: UserPath(v, dek, r) == if dek == written then Some(text) else None)
  }

  /** Every token means what it was last set to. */
  ghost predicate AllMean(v: Vault, keys: set<Bytes>, tokens: Table, texts: map<Key, Bytes>, under: map<Key, Bytes>) {
    && tokens.Keys == texts.Keys
    && forall key | key in tokens :: Means(v, keys, tokens[key], texts[key], WrittenUnder(under, key))
  }

  ghost predicate KeysKnown(keys: set<Bytes>, sessions: map<string, Bytes>, deks: string -> Bytes) {
    && (forall token | token in sessions :: sessions[token] in keys)
    && (forall u: string :: deks(u) in keys)
  }

  ghost predicate Sound(v: Vault, keys: set<Bytes>, s: State) {
    AllMean(v, keys, s.tokens, s.texts, s.under) && KeysKnown(keys, s.sessions, s.deks)
  }

  /** The keys of the program: of one size, the wiped key among them, and none opens another's seals. */
  ghost predicate Universe(p: Primitives, keys: set<Bytes>) {
    Lawful(p) && Distinguishes(p, keys) && Zeros(KEY_SIZE) in keys && forall key | key in keys :: |key| == KEY_SIZE
  }

  lemma LayeredMeans(v: Vault, keys: set<Bytes>, dek: Bytes, text: Bytes, f: Fresh)
    requires Universe(v.p, keys) && Sized(f) && dek in keys && text != []
    ensures Layered(v, dek, text, f).Some? && Means(v, keys, Layered(v, dek, text, f).value, text, dek)
  {
    LayeredReadsBack(v, dek, text, f);
    var r := Layered(v, dek, text, f).value;
    var c := Encrypted(v.p, v.master, text, f.envelope);
    forall other | other in keys && other != dek
      ensures UserPath(v, other, r) == None
    {
      WrongKeyFails(v.p, keys, dek, other, f.nonce, c);
    }
  }

  lemma WrongKeyFails(p: Primitives, keys: set<Bytes>, dek: Bytes, other: Bytes, nonce: Bytes, text: Bytes)
    requires Universe(p, keys) && dek in keys && other in keys && other != dek && |nonce| == NONCE_SIZE
    ensures Wrap(p, dek, nonce, text).Some? && Unwrap(p, other, Wrap(p, dek, nonce, text).value) == None
  {
    var sealed := p.seal(dek, nonce, text);
    assert (nonce + sealed)[..NONCE_SIZE] == nonce && (nonce + sealed)[NONCE_SIZE..] == sealed;
  }

  lemma MigratedMeans(v: Vault, keys: set<Bytes>, r: Row, text: Bytes, written: Bytes, f: Fresh)
    requires Universe(v.p, keys) && Sized(f) && Means(v, keys, r, text, written)
    ensures Means(v, keys, Migrated(v, r, f), text, written)
  {
    MigrationPreserves(v, written, r, f);
    forall dek | dek in keys
      ensures UserPath(v, dek, Migrated(v, r, f)) == UserPath(v, dek, r)
    {
      MigrationPreserves(v, dek, r, f);
    }
  }

  /** Whatever key the session holds, the loop recovers the text of a row. */
  lemma RewrappedMeans(v: Vault, keys: set<Bytes>, dek: Bytes, newDEK: Bytes, r: Row, text: Bytes, written: Bytes, f: Fresh)
    requires Universe(v.p, keys) && Sized(f) && dek in keys && newDEK in keys && Means(v, keys, r, text, written)
    ensures Recovered(v, dek, r) == text
    ensures Means(v, keys, Rewrapped(v, dek, newDEK, r, f), text, if text != [] then newDEK else written)
  {
    assert Recovered(v, dek, r) == text;
    if text != [] {
      LayeredMeans(v, keys, newDEK, text, f);
    }
  }

  lemma WriteKeepsMeaning(v: Vault, keys: set<Bytes>, tokens: Table, texts: map<Key, Bytes>, under: map<Key, Bytes>,
                          key: Key, row: Row, text: Bytes, written: Bytes)
    requires AllMean(v, keys, tokens, texts, under) && Means(v, keys, row, text, written)
    ensures AllMean(v, keys, tokens[key := row], texts[key := text], under[key := written])
  {
    forall other | other in tokens && other != key
      ensures Means(v, keys, tokens[other], texts[other], WrittenUnder(under[key := written], other))
    {
      assert Means(v, keys, tokens[other], texts[other], WrittenUnder(under, other));
    }
  }

  lemma SaveKeepsSound(v: Vault, keys: set<Bytes>, s: State, token: string, key: Key, text: Bytes, f: Fresh)
    requires Universe(v.p, keys) && Sized(f) && Sound(v, keys, s)
    ensures Sound(v, keys, Saved(v, s, token, key, text, f))
  {
    if Filled(key, text) && token in s.sessions {
      var dek := s.sessions[token];
      LayeredMeans(v, keys, dek, text, f);
      WriteKeepsMeaning(v, keys, s.tokens, s.texts, s.under, key, Layered(v, dek, text, f).value, text, dek);
    }
  }

  lemma PasswordChangeKeepsSound(v: Vault, keys: set<Bytes>, s: State, token: string, userID: string, newDEK: Bytes, random: Key -> Fresh)
    requires Universe(v.p, keys) && Sound(v, keys, s) && newDEK in keys && forall key: Key :: Sized(random(key))
    ensures Sound(v, keys, PasswordChanged(v, s, token, userID, newDEK, random))
  {
    if token in s.sessions {
      var t := PasswordChanged(v, s, token, userID, newDEK, random);
      forall key | key in t.tokens
        ensures Means(v, keys, t.tokens[key], t.texts[key], WrittenUnder(t.under, key))
      {
        ChangedMeans(v, keys, s, token, userID, newDEK, random, key);
      }
    }
  }

  lemma ChangedMeans(v: Vault, keys: set<Bytes>, s: State, token: string, userID: string, newDEK: Bytes, random: Key -> Fresh, key: Key)
    requires Universe(v.p, keys) && Sound(v, keys, s) && newDEK in keys && forall key: Key :: Sized(random(key))
    requires token in s.sessions && key in s.tokens
    ensures var t := PasswordChanged(v, s, token, userID, newDEK, random);
            key in t.tokens && Means(v, keys, t.tokens[key], s.texts[key], WrittenUnder(t.under, key))
  {
    assert Means(v, keys, s.tokens[key], s.texts[key], WrittenUnder(s.under, key));
    if key.userID == userID {
      RewrappedMeans(v, keys, s.sessions[token], newDEK, s.tokens[key], s.texts[key], WrittenUnder(s.under, key), random(key));
    }
  }

  lemma MigrationKeepsMeaning(v: Vault, keys: set<Bytes>, tokens: Table, texts: map<Key, Bytes>, under: map<Key, Bytes>, random: Key -> Fresh)
    requires Universe(v.p, keys) && AllMean(v, keys, tokens, texts, under) && forall key: Key :: Sized(random(key))
    ensures AllMean(v, keys, MigratedAll(v, tokens, random), texts, under)
  {
    forall key | key in tokens
      ensures Means(v, keys, Migrated(v, tokens[key], random(key)), texts[key], WrittenUnder(under, key))
    {
      MigratedMeans(v, keys, tokens[key], texts[key], WrittenUnder(under, key), random(key));
    }
  }

  lemma PlainMeans(v: Vault, keys: set<Bytes>, s: State, key: Key, text: Bytes)
    requires Sound(v, keys, s)
    ensures AllMean(v, keys, s.tokens[key := Row(text, [], [], Legacy)], s.texts[key := text], s.under)
  {
    assert Means(v, keys, Row(text, [], [], Legacy), text, WrittenUnder(s.under, key));
  }

  lemma StepKeepsSound(v: Vault, keys: set<Bytes>, s: State, op: Op)
    requires Universe(v.p, keys) && Sound(v, keys, s) && Enabled(op, keys)
    ensures Sound(v, keys, Next(v, s, op, keys))
  {
    match op
    case Save(token, key, text, f) => SaveKeepsSound(v, keys, s, token, key, text, f);
    case ChangePassword(token, userID, newDEK, random) => PasswordChangeKeepsSound(v, keys, s, token, userID, newDEK, random);
    case Restart(random) => MigrationKeepsMeaning(v, keys, s.tokens, s.texts, s.under, random);
    case SetPlain(key, text) => PlainMeans(v, keys, s, key, text);
    case _ =>
  }

  ghost predicate AllEnabled(ops: seq<Op>, keys: set<Bytes>) {
    forall k | 0 <= k < |ops| :: Enabled(ops[k], keys)
  }

  ghost function Run(v: Vault, s: State, ops: seq<Op>, keys: set<Bytes>): State
    requires Lawful(v.p) && AllEnabled(ops, keys)
    decreases |ops|
  {
    if ops == [] then s else Run(v, Next(v, s, ops[0], keys), ops[1..], keys)
  }

  lemma {:induction false} RunKeepsSound(v: Vault, keys: set<Bytes>, s: State, ops: seq<Op>)
    requires Universe(v.p, keys) && Sound(v, keys, s) && AllEnabled(ops, keys)
    ensures Sound(v, keys, Run(v, s, ops, keys))
    decreases |ops|
  {
    if ops != [] {
      StepKeepsSound(v, keys, s, ops[0]);
      RunKeepsSound(v, keys, Next(v, s, ops[0], keys), ops[1..]);
    }
  }

  function Empty(deks: string -> Bytes): State {
    State(map[], map[], deks, map[], map[])
  }

  /**
   From an empty store, whatever logins, views, saves, password changes, restarts and deletions of any
   users: every token reads back by the master key as what it was last set to; and by the key of the
   owner's current password exactly when its user layer was last written under that key.
   */
  lemma TokensSurviveEveryRun(v: Vault, keys: set<Bytes>, deks: string -> Bytes, ops: seq<Op>)
    requires Universe(v.p, keys) && (forall u: string :: deks(u) in keys) && AllEnabled(ops, keys)
    ensures var s := Run(v, Empty(deks), ops, keys);
            && s.tokens.Keys == s.texts.Keys
            && forall key | key in s.tokens ::
                 && MasterPath(v, s.tokens[key]) == Some(s.texts[key])
                 && UserPath(v, s.deks(key.userID), s.tokens[key]) ==
                      if s.tokens[key].kind == UserKind && WrittenUnder(s.under, key) == s.deks(key.userID) then Some(s.texts[key]) else None
  {
    RunKeepsSound(v, keys, Empty(deks), ops);
    var s := Run(v, Empty(deks), ops, keys);
    forall key | key in s.tokens
      ensures Means(v, keys, s.tokens[key], s.texts[key], WrittenUnder(s.under, key))
    {}
  }

  /**
   The token page shows a token with a user layer exactly when that layer was last written under the
   key that the session holds, and otherwise as empty; a token without one is shown as it is stored.
   */
  lemma PageShowsWhatTheKeyOpens(v: Vault, keys: set<Bytes>, s: State, token: string, key: Key)
    requires Sound(v, keys, s) && key in s.tokens
    ensures var dek := if token in s.sessions then Some(s.sessions[token]) else None;
            var r, shown := s.tokens[key], Shown(v, dek, s.tokens[key]);
            && (r.kind == Legacy ==> shown == r.value)
            && (r.kind == UserKind ==> shown == if dek == Some(WrittenUnder(s.under, key)) then s.texts[key] else [])
  {
    assert Means(v, keys, s.tokens[key], s.texts[key], WrittenUnder(s.under, key));
  }

  // ---------- Which writes the owner can read ----------

  /** The session still holds the key of the user's current password. */
  predicate Unwiped(s: State, token: string, userID: string) {
    token in s.sessions && s.sessions[token] == s.deks(userID)
  }

  /** A saved token reads back by the owner's key exactly when the session that saved it still held that key. */
  lemma SaveReadsBackIffUnwiped(v: Vault, keys: set<Bytes>, s: State, token: string, key: Key, text: Bytes, f: Fresh)
    requires Universe(v.p, keys) && Sound(v, keys, s) && Sized(f) && token in s.sessions && Filled(key, text)
    ensures var t := Saved(v, s, token, key, text, f);
            && key in t.tokens
            && MasterPath(v, t.tokens[key]) == Some(text)
            && (UserPath(v, t.deks(key.userID), t.tokens[key]) == Some(text) <==> Unwiped(s, token, key.userID))
  {
    LayeredMeans(v, keys, s.sessions[token], text, f);
  }

  /** A save without a backend, a name, a value or a session key changes nothing; any other leaves the other tokens alone. */
  lemma SavesAreForOneToken(v: Vault, s: State, token: string, key: Key, text: Bytes, f: Fresh, other: Key)
    requires Lawful(v.p) && Sized(f)
    ensures key.backendID == "" || key.envKey == "" || text == [] || token !in s.sessions ==> Saved(v, s, token, key, text, f) == s
    ensures other != key && other in s.tokens ==>
              other in Saved(v, s, token, key, text, f).tokens && Saved(v, s, token, key, text, f).tokens[other] == s.tokens[other]
  {}

  /** A password change from any session of the user makes every non-empty token of the user readable again. */
  lemma PasswordChangeRestores(v: Vault, keys: set<Bytes>, s: State, token: string, userID: string, newDEK: Bytes, random: Key -> Fresh, key: Key)
    requires Universe(v.p, keys) && Sound(v, keys, s) && newDEK in keys && forall key: Key :: Sized(random(key))
    requires token in s.sessions && key in s.tokens && key.userID == userID && s.texts[key] != []
    ensures var t := PasswordChanged(v, s, token, userID, newDEK, random);
            UserPath(v, t.deks(userID), t.tokens[key]) == Some(s.texts[key])
  {
    RewrappedMeans(v, keys, s.sessions[token], newDEK, s.tokens[key], s.texts[key], WrittenUnder(s.under, key), random(key));
    LayeredMeans(v, keys, newDEK, s.texts[key], random(key));
  }

  /** The session's key has been wiped, or the session is gone. */
  predicate Spent(s: State, token: string) {
    token in s.sessions ==> s.sessions[token] == Zeros(KEY_SIZE)
  }

  /** Viewing, saving and changing the password spend the session's key. */
  lemma HandlersSpendTheKey(v: Vault, keys: set<Bytes>, s: State, op: Op, token: string)
    requires Universe(v.p, keys) && Sound(v, keys, s) && Enabled(op, keys)
    requires op == View(token) || (op.Save? && op.token == token && Filled(op.key, op.text)) || (op.ChangePassword? && op.token == token)
    ensures Spent(Next(v, s, op, keys), token)
  {
    if op.Save? && token in s.sessions {
      LayeredMeans(v, keys, s.sessions[token], op.text, op.f);
    }
  }

  predicate IsLoginOf(op: Op, token: string) {
    op.Login? && op.token == token
  }

  lemma StepKeepsSpent(v: Vault, keys: set<Bytes>, s: State, op: Op, token: string)
    requires Universe(v.p, keys) && Sound(v, keys, s) && Enabled(op, keys) && Spent(s, token) && !IsLoginOf(op, token)
    ensures Spent(Next(v, s, op, keys), token)
  {}

  /** Once spent, a session never holds a key again; only a new login does. */
  lemma {:induction false} SpentStaysSpent(v: Vault, keys: set<Bytes>, s: State, ops: seq<Op>, token: string)
    requires Universe(v.p, keys) && Sound(v, keys, s) && AllEnabled(ops, keys) && Spent(s, token)
    requires forall k | 0 <= k < |ops| :: !IsLoginOf(ops[k], token)
    ensures Spent(Run(v, s, ops, keys), token)
    decreases |ops|
  {
    if ops != [] {
      StepKeepsSound(v, keys, s, ops[0]);
      StepKeepsSpent(v, keys, s, ops[0], token);
      SpentStaysSpent(v, keys, Next(v, s, ops[0], keys), ops[1..], token);
    }
  }

  /** Two saves of one session: the first reads back by the owner's key, the second does not; by the master key both do. */
  lemma SecondSaveIsUnreadable(v: Vault, keys: set<Bytes>, s: State, token: string, a: Key, b: Key, x: Bytes, y: Bytes, f: Fresh, g: Fresh)
    requires Universe(v.p, keys) && Sound(v, keys, s) && Sized(f) && Sized(g)
    requires a != b && a.userID == b.userID && Filled(a, x) && Filled(b, y) && s.deks(a.userID) != Zeros(KEY_SIZE)
    ensures var ops := [Login(token, a.userID), Save(token, a, x, f), Save(token, b, y, g)];
            && AllEnabled(ops, keys)
            && FirstOnly(v, Run(v, s, ops, keys), a, b, x, y)
  {
    var ops := [Login(token, a.userID), Save(token, a, x, f), Save(token, b, y, g)];
    ThreeEnabled(ops, keys);
    RunThree(v, keys, s, ops);
    SecondSaveFails(v, keys, s.(sessions := s.sessions[token := s.deks(a.userID)]), token, a, b, x, y, f, g);
  }

  /** Both tokens are there for the master key, and the first alone for their owner's key. */
  predicate FirstOnly(v: Vault, t: State, a: Key, b: Key, x: Bytes, y: Bytes) {
    && a in t.tokens && b in t.tokens
    && MasterPath(v, t.tokens[a]) == Some(x) && MasterPath(v, t.tokens[b]) == Some(y)
    && UserPath(v, t.deks(a.userID), t.tokens[a]) == Some(x)
    && UserPath(v, t.deks(b.userID), t.tokens[b]) == None
  }

  lemma SecondSaveFails(v: Vault, keys: set<Bytes>, s: State, token: string, a: Key, b: Key, x: Bytes, y: Bytes, f: Fresh, g: Fresh)
    requires Universe(v.p, keys) && Sound(v, keys, s) && Sized(f) && Sized(g)
    requires a != b && a.userID == b.userID && Filled(a, x) && Filled(b, y) && s.deks(a.userID) != Zeros(KEY_SIZE)
    requires Unwiped(s, token, a.userID)
    ensures FirstOnly(v, Saved(v, Saved(v, s, token, a, x, f), token, b, y, g), a, b, x, y)
  {
    SaveKeepsSound(v, keys, s, token, a, x, f);
    SaveWrites(v, keys, s, token, a, x, f);
    SaveWrites(v, keys, Saved(v, s, token, a, x, f), token, b, y, g);
  }

  lemma ThreeEnabled(ops: seq<Op>, keys: set<Bytes>)
    requires |ops| == 3 && Enabled(ops[0], keys) && Enabled(ops[1], keys) && Enabled(ops[2], keys)
    ensures AllEnabled(ops, keys)
  {}

  lemma SaveWrites(v: Vault, keys: set<Bytes>, s: State, token: string, key: Key, text: Bytes, f: Fresh)
    requires Universe(v.p, keys) && Sound(v, keys, s) && Sized(f) && token in s.sessions && Filled(key, text)
    ensures var t := Saved(v, s, token, key, text, f);
            && t.deks == s.deks
            && t.sessions == s.sessions[token := Zeros(KEY_SIZE)]
            && (forall other | other in s.tokens && other != key :: other in t.tokens && t.tokens[other] == s.tokens[other])
            && key in t.tokens && MasterPath(v, t.tokens[key]) == Some(text)
            && forall dek | dek in keys :: UserPath(v, dek, t.tokens[key]) == if dek == s.sessions[token] then Some(text) else None
  {
    LayeredMeans(v, keys, s.sessions[token], text, f);
  }

  lemma RunThree(v: Vault, keys: set<Bytes>, s: State, ops: seq<Op>)
    requires Lawful(v.p) && |ops| == 3 && AllEnabled(ops, keys)
    ensures Run(v, s, ops, keys) == Next(v, Next(v, Next(v, s, ops[0], keys), ops[1], keys), ops[2], keys)
  {
    var s1 := Next(v, s, ops[0], keys);
    var s2 := Next(v, s1, ops[1], keys);
    assert ops[1..][0] == ops[1] && ops[1..][1..] == ops[2..] && ops[2..][0] == ops[2] && ops[2..][1..] == [];
    assert Run(v, s, ops, keys) == Run(v, s1, ops[1..], keys);
    assert Run(v, s1, ops[1..], keys) == Run(v, s2, ops[2..], keys);
    assert Run(v, s2, ops[2..], keys) == Run(v, Next(v, s2, ops[2], keys), [], keys);
  }
}
