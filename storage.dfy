/**
 * The encrypted key-value store: values are serialised to JSON, encrypted with a device key kept
 * in the secure credential area, and written to the unencrypted key-value layer. Reads decrypt,
 * fall back to legacy plaintext JSON, and map everything else to null.
 */
module Storage {
  import opened Wrappers
  import opened Codecs
  import KeyValue

  /** The secure-store alias under which the device key is kept. */
  const KEY_ALIAS := "secure_storage_key"

  /** The fixed key used on the web, where there is no secure credential area. */
  const WEB_FALLBACK_KEY := "web_fallback_key_do_not_use_for_sensitive_production_data"

  /**
   * The symmetric cipher as two function values: `encrypt(plain, key, salt)` is the ciphertext
   * text for the random salt drawn by that call, `decrypt(cipher, key)` the UTF-8 text it
   * decrypts to, or None where decryption throws.
   */
  datatype Cipher = Cipher(encrypt: (string, string, string) -> string, decrypt: (string, string) -> Option<string>)

  /**
   * What the model assumes of the cipher: decrypting with the same key gives the plaintext back
   * whatever salt was drawn, and a ciphertext text is never empty (it always carries the salt header).
   */
  ghost predicate CipherRoundTrip(c: Cipher) {
    && (forall plain, key, salt :: c.decrypt(c.encrypt(plain, key, salt), key) == Some(plain))
    && (forall plain, key, salt :: c.encrypt(plain, key, salt) != "")
  }

  /** What stays fixed across calls: the platform, the cipher and the JSON codec. */
  datatype Env = Env(isWeb: bool, cipher: Cipher, json: Codec<Json>)

  ghost predicate LawfulEnv(env: Env) {
    CipherRoundTrip(env.cipher) && LawfulJson(env.json)
  }

  /**
   * The platform's answers during one store operation: the key a fresh generation would produce,
   * whether the secure-store read and write succeed, whether the key-value layer succeeds, and
   * the salt an encryption would draw.
   */
  datatype Io = Io(generated: string, keyReadOk: bool, keyWriteOk: bool, diskOk: bool, salt: string)

  /** The persistent state: the key-value entries and the secure-store slot under KEY_ALIAS. */
  datatype StoreState = StoreState(entries: map<string, string>, keySlot: Option<string>)

  /** The slot holds a key that `if (!key)` does not treat as missing. */
  predicate HasKey(slot: Option<string>) {
    slot.Some? && slot.value != ""
  }

  datatype KeyOutcome = KeyOutcome(key: Option<string>, keySlot: Option<string>)

  /** getEncryptionKey: the key it resolves to (None where it rejects) and the slot afterwards. */
  function KeyLookup(isWeb: bool, slot: Option<string>, io: Io): (r: KeyOutcome)
    ensures isWeb ==> r == KeyOutcome(Some(WEB_FALLBACK_KEY), slot)
    ensures !isWeb && r.key.Some? ==> r.keySlot == r.key
    ensures !isWeb && HasKey(slot) && io.keyReadOk ==> r.key == slot
    ensures r.keySlot != slot ==> !isWeb && !HasKey(slot) && r.keySlot == Some(io.generated)
    ensures r.key.None? <==> !isWeb && (!io.keyReadOk || (!HasKey(slot) && !io.keyWriteOk))
  {
    if isWeb then KeyOutcome(Some(WEB_FALLBACK_KEY), slot)
    else if !io.keyReadOk then KeyOutcome(None, slot)
    else if HasKey(slot) then KeyOutcome(slot, slot)
    else if !io.keyWriteOk then KeyOutcome(None, slot)
    else KeyOutcome(Some(io.generated), Some(io.generated))
  }

  /** Get-or-create: a second lookup returns the key the first one returned, and creates nothing. */
  lemma KeyLookupStable(isWeb: bool, slot: Option<string>, io1: Io, io2: Io)
    requires KeyLookup(isWeb, slot, io1).key.Some?
    requires isWeb || HasKey(slot) || io1.generated != ""
    requires io2.keyReadOk
    ensures var first := KeyLookup(isWeb, slot, io1);
            KeyLookup(isWeb, first.keySlot, io2) == KeyOutcome(first.key, first.keySlot)
  {
  }

  /** The inner try of getItem: the decrypted text parsed as JSON, or None where it falls through. */
  function DecryptedValue(env: Env, raw: string, key: string): (r: Option<Json>)
    ensures r.Some? ==> exists plain :: env.cipher.decrypt(raw, key) == Some(plain) && plain != "" && env.json.parse(plain) == r
    ensures env.cipher.decrypt(raw, key) == Some("") ==> r.None?
  {
    match env.cipher.decrypt(raw, key)
    case None => None
    case Some(plain) => if plain == "" then None else env.json.parse(plain)
  }

  /** The two-tier decoder of getItem for a non-empty raw string: decrypt, else legacy JSON, else null. */
  function Decoded(env: Env, raw: string, key: string): (r: Json)
    ensures r != JNull ==> DecryptedValue(env, raw, key) == Some(r) || env.json.parse(raw) == Some(r)
    ensures DecryptedValue(env, raw, key).Some? ==> r == DecryptedValue(env, raw, key).value
  {
    match DecryptedValue(env, raw, key)
    case Some(v) => v
    case None =>
      match env.json.parse(raw)
      case Some(v) => v
      case None => JNull
  }

  /** What setItem writes for `v` under `key`. */
  function Sealed(env: Env, v: Json, key: string, salt: string): (r: string)
    ensures CipherRoundTrip(env.cipher) ==> r != ""
    ensures CipherRoundTrip(env.cipher) ==> env.cipher.decrypt(r, key) == Some(env.json.stringify(v))
  {
    env.cipher.encrypt(env.json.stringify(v), key, salt)
  }

  /** Decoding what setItem wrote, with the same key, gives the value back. */
  lemma DecodeSealed(env: Env, v: Json, key: string, salt: string)
    requires LawfulEnv(env) && Portable(v)
    ensures Decoded(env, Sealed(env, v, key, salt), key) == v
  {
    JsonStringifyNonEmpty(env.json, v);
  }

  /** Whatever salt a write draws, the text it stores reads back as the same value. */
  lemma SaltIrrelevant(env: Env, v: Json, key: string, salt1: string, salt2: string)
    requires LawfulEnv(env) && Portable(v)
    ensures Decoded(env, Sealed(env, v, key, salt1), key) == Decoded(env, Sealed(env, v, key, salt2), key)
  {
    DecodeSealed(env, v, key, salt1);
    DecodeSealed(env, v, key, salt2);
  }

  /** The legacy path: when decryption throws, yields "" or yields non-JSON, the raw text is parsed. */
  lemma LegacyFallback(env: Env, raw: string, key: string)
    requires DecryptedValue(env, raw, key).None?
    ensures env.json.parse(raw).Some? ==> Decoded(env, raw, key) == env.json.parse(raw).value
    ensures env.json.parse(raw).None? ==> Decoded(env, raw, key) == JNull
  {
  }

  /** A raw value stored before encryption was introduced is read back through the legacy path. */
  lemma LegacyPlaintextRead(env: Env, v: Json, key: string)
    requires LawfulJson(env.json) && Portable(v)
    requires DecryptedValue(env, env.json.stringify(v), key).None?
    ensures Decoded(env, env.json.stringify(v), key) == v
  {
  }

  datatype SetOutcome = SetOutcome(state: StoreState, ok: bool)

  /** setItem: the state afterwards, and whether it resolved (false: the error was rethrown). */
  function AfterSet(env: Env, s: StoreState, k: string, v: Json, io: Io): (r: SetOutcome)
    ensures r.state.keySlot == KeyLookup(env.isWeb, s.keySlot, io).keySlot
    ensures r.ok <==> KeyLookup(env.isWeb, s.keySlot, io).key.Some? && io.diskOk
    ensures r.ok ==> r.state.entries == s.entries[k := Sealed(env, v, KeyLookup(env.isWeb, s.keySlot, io).key.value, io.salt)]
    ensures !r.ok ==> r.state.entries == s.entries
    ensures forall k' :: k' != k ==> (k' in r.state.entries <==> k' in s.entries)
    ensures forall k' :: k' != k && k' in s.entries ==> r.state.entries[k'] == s.entries[k']
  {
    var found := KeyLookup(env.isWeb, s.keySlot, io);
    if found.key.None? || !io.diskOk then SetOutcome(StoreState(s.entries, found.keySlot), false)
    else SetOutcome(StoreState(s.entries[k := Sealed(env, v, found.key.value, io.salt)], found.keySlot), true)
  }

  datatype GetOutcome = GetOutcome(state: StoreState, value: Json)

  /** getItem: the state afterwards (a key may have been created) and the value; it never rejects. */
  function AfterGet(env: Env, s: StoreState, k: string, io: Io): (r: GetOutcome)
    ensures r.state.entries == s.entries
    ensures !io.diskOk || k !in s.entries || s.entries[k] == "" ==> r == GetOutcome(s, JNull)
    ensures KeyLookup(env.isWeb, s.keySlot, io).key.None? ==> r.value == JNull
    ensures io.diskOk && k in s.entries && s.entries[k] != "" ==>
              r.state.keySlot == KeyLookup(env.isWeb, s.keySlot, io).keySlot
    ensures io.diskOk && k in s.entries && s.entries[k] != "" && KeyLookup(env.isWeb, s.keySlot, io).key.Some? ==>
              r.value == Decoded(env, s.entries[k], KeyLookup(env.isWeb, s.keySlot, io).key.value)
  {
    if !io.diskOk || k !in s.entries || s.entries[k] == "" then GetOutcome(s, JNull)
    else
      var found := KeyLookup(env.isWeb, s.keySlot, io);
      var value := if found.key.None? then JNull else Decoded(env, s.entries[k], found.key.value);
      GetOutcome(StoreState(s.entries, found.keySlot), value)
  }

  /** Round trip: reading a key right after a successful write returns the value written. */
  lemma GetAfterSet(env: Env, s: StoreState, k: string, v: Json, io1: Io, io2: Io)
    requires LawfulEnv(env) && Portable(v)
    requires env.isWeb || HasKey(s.keySlot) || io1.generated != ""
    requires AfterSet(env, s, k, v, io1).ok
    requires io2.diskOk && io2.keyReadOk
    ensures AfterGet(env, AfterSet(env, s, k, v, io1).state, k, io2).value == v
  {
    var found := KeyLookup(env.isWeb, s.keySlot, io1);
    var t := AfterSet(env, s, k, v, io1).state;
    KeyLookupStable(env.isWeb, s.keySlot, io1, io2);
    DecodeSealed(env, v, found.key.value, io1.salt);
    assert t.entries[k] == Sealed(env, v, found.key.value, io1.salt);
  }

  /** Writing one key does not change what another key reads, once the device key exists. */
  lemma GetOtherAfterSet(env: Env, s: StoreState, k: string, k': string, v: Json, io1: Io, io2: Io)
    requires k != k'
    requires env.isWeb || HasKey(s.keySlot)
    ensures AfterGet(env, AfterSet(env, s, k, v, io1).state, k', io2).value == AfterGet(env, s, k', io2).value
  {
  }

  datatype RemoveOutcome = RemoveOutcome(state: StoreState, ok: bool)

  /** removeItem: the key is deleted when the key-value layer succeeds; the error is not caught. */
  function AfterRemove(s: StoreState, k: string, diskOk: bool): (r: RemoveOutcome)
    ensures r.ok == diskOk
    ensures k !in r.state.entries || !diskOk
    ensures r.state.keySlot == s.keySlot
    ensures forall k' :: k' != k ==> (k' in r.state.entries <==> k' in s.entries)
    ensures forall k' :: k' in r.state.entries ==> k' in s.entries && r.state.entries[k'] == s.entries[k']
  {
    if diskOk then RemoveOutcome(StoreState(s.entries - {k}, s.keySlot), true)
    else RemoveOutcome(s, false)
  }

  /** Removing a key twice leaves the same state as removing it once. */
  lemma RemoveIdempotent(s: StoreState, k: string)
    ensures AfterRemove(AfterRemove(s, k, true).state, k, true) == AfterRemove(s, k, true)
  {
    var once := AfterRemove(s, k, true).state;
    assert once.entries - {k} == once.entries;
  }

  /** Reading a removed key gives null. */
  lemma GetAfterRemove(env: Env, s: StoreState, k: string, io: Io)
    ensures AfterGet(env, AfterRemove(s, k, true).state, k, io).value == JNull
  {
  }

  /** clear: the whole key-value layer is emptied (not only this service's keys); the key slot stays. */
  function AfterClear(s: StoreState, diskOk: bool): (r: StoreState)
    ensures diskOk ==> r.entries == map[]
    ensures !diskOk ==> r.entries == s.entries
    ensures r.keySlot == s.keySlot
  {
    if diskOk then StoreState(map[], s.keySlot) else s
  }

  /** After a clear every key reads as null. */
  lemma GetAfterClear(env: Env, s: StoreState, k: string, io: Io)
    ensures AfterGet(env, AfterClear(s, true), k, io).value == JNull
  {
  }

  /** The storage service over the shared key-value layer and the secure-store slot. */
  class EncryptedStore {
    const env: Env
    const disk: KeyValue.KvStore
    var keySlot: Option<string>

    function State(): StoreState
      reads this, disk
    {
      StoreState(disk.entries, keySlot)
    }

    constructor (env: Env, disk: KeyValue.KvStore, keySlot: Option<string>)
      ensures this.env == env && this.disk == disk && this.keySlot == keySlot
    {
      this.env := env;
      this.disk := disk;
      this.keySlot := keySlot;
    }

    method GetEncryptionKey(io: Io) returns (key: Option<string>)
      modifies this
      ensures KeyOutcome(key, keySlot) == KeyLookup(env.isWeb, old(keySlot), io)
    {
      if env.isWeb {
        return Some(WEB_FALLBACK_KEY);
      }
      if !io.keyReadOk {
        return None;
      }
      var stored := keySlot;
      if !HasKey(stored) {
        if !io.keyWriteOk {
          return None;
        }
        keySlot := Some(io.generated);
        stored := keySlot;
      }
      key := stored;
    }

    method SetItem(k: string, v: Json, io: Io) returns (ok: bool)
      modifies this, disk
      ensures SetOutcome(State(), ok) == AfterSet(env, old(State()), k, v, io)
    {
      var key := GetEncryptionKey(io);
      if key.None? || !io.diskOk {
        return false;
      }
      var encrypted := Sealed(env, v, key.value, io.salt);
      disk.entries := disk.entries[k := encrypted];
      ok := true;
    }

    method GetItem(k: string, io: Io) returns (value: Json)
      modifies this
      ensures GetOutcome(State(), value) == AfterGet(env, old(State()), k, io)
    {
      if !io.diskOk || k !in disk.entries || disk.entries[k] == "" {
        return JNull;
      }
      var encrypted := disk.entries[k];
      var key := GetEncryptionKey(io);
      if key.None? {
        return JNull;
      }
      match DecryptedValue(env, encrypted, key.value)
      case Some(v) =>
        value := v;
      case None =>
        value := match env.json.parse(encrypted) case Some(plain) => plain case None => JNull;
    }

    method RemoveItem(k: string, diskOk: bool) returns (ok: bool)
      modifies disk
      ensures RemoveOutcome(State(), ok) == AfterRemove(old(State()), k, diskOk)
    {
      ok := diskOk;
      if ok {
        disk.entries := disk.entries - {k};
      }
    }

    method Clear(diskOk: bool) returns (ok: bool)
      modifies disk
      ensures State() == AfterClear(old(State()), diskOk) && ok == diskOk
    {
      ok := diskOk;
      if ok {
        disk.entries := map[];
      }
    }
  }

  /** A write followed by a read through the service returns the value written. */
  method SetThenGet(store: EncryptedStore, k: string, v: Json, io1: Io, io2: Io) returns (ok: bool, got: Json)
    requires LawfulEnv(store.env) && Portable(v)
    requires HasKey(store.keySlot) || io1.generated != ""
    requires io2.diskOk && io2.keyReadOk
    modifies store, store.disk
    ensures ok ==> got == v
  {
    ghost var s := store.State();
    ok := store.SetItem(k, v, io1);
    got := store.GetItem(k, io2);
    if ok {
      GetAfterSet(store.env, s, k, v, io1, io2);
    }
  }
}
