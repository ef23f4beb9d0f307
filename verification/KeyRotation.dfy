/**
 The node's encryption key: rotation, persistence and the choice of a past key.

 Hashing and the public-key map are arbitrary functions. A failed file write
 leaves the file as it was. Writing the peer id reads the identity, writes a file
 and puts the copy back, and anything may happen between these three steps.
 */
module KeyRotation {
  import opened Prelude
  import opened Encoding

  datatype Crypto = Crypto(hash: Bytes -> Bytes32, publicKey: Bytes32 -> Bytes32)

  const LABEL := "sparkl/x25519-encryption-v"

  function Preimage(ed25519Secret: Bytes32, version: u32): Bytes {
    ed25519Secret + Ascii(LABEL) + ToBytes(version, 4)
  }

  function DeriveVersionedX25519Secret(crypto: Crypto, ed25519Secret: Bytes32, version: u32): Bytes32 {
    crypto.hash(Preimage(ed25519Secret, version))
  }

  /** What is hashed: the signing key, the label, and the version in 4 bytes. */
  lemma PreimageParts(ed25519Secret: Bytes32, version: u32)
    ensures var x := Preimage(ed25519Secret, version);
            && |x| == 62 && x[..32] == ed25519Secret && x[32..58] == Ascii("sparkl/x25519-encryption-v")
            && FromBytes(x[58..]) == version
  {
    var x := Preimage(ed25519Secret, version);
    assert x[58..] == ToBytes(version, 4);
    Widths();
    RoundTrip(version, 4);
  }

  /** Different versions, or different signing keys, share a secret only if the hash function has a collision. */
  lemma SecretsDiffer(crypto: Crypto, ed: Bytes32, v: u32, ed': Bytes32, v': u32)
    requires ed != ed' || v != v'
    requires DeriveVersionedX25519Secret(crypto, ed, v) == DeriveVersionedX25519Secret(crypto, ed', v')
    ensures Collision(crypto.hash, Preimage(ed, v), Preimage(ed', v'))
  {
    var a, b := Preimage(ed, v), Preimage(ed', v');
    if a == b {
      assert a[..32] == ed && b[..32] == ed';
      var n := 32 + |LABEL|;
      assert a[n..] == ToBytes(v, 4) && b[n..] == ToBytes(v', 4);
      Widths();
      RoundTrip(v, 4);
      RoundTrip(v', 4);
      assert false;
    }
  }

  datatype NodeIdentity = NodeIdentity(peerId: string, x25519Pubkey: Bytes32, ed25519Pubkey: Bytes32)

  datatype StoredSecret = StoredSecret(
    x25519Secret: Bytes32,
    ed25519Secret: Bytes32,
    x25519Version: u32,
    legacyX25519Secret: Option<Bytes32>)

  datatype LoadedIdentity = LoadedIdentity(public: NodeIdentity, secret: StoredSecret)

  /** The check on reload: a versioned secret is the derived one. */
  predicate ReloadCheck(crypto: Crypto, s: StoredSecret) {
    s.x25519Version >= 1 ==>
      s.x25519Secret == DeriveVersionedX25519Secret(crypto, s.ed25519Secret, s.x25519Version)
  }

  /** The secret that decrypts a request made for a version. */
  function SecretFor(crypto: Crypto, s: StoredSecret, version: u32): Result<Bytes32> {
    if version == 0 then
      if s.legacyX25519Secret.Some? then Ok(s.legacyX25519Secret.value)
      else if s.x25519Version == 0 then Ok(s.x25519Secret)
      else Err("no legacy x25519 secret available for encryption version 0")
    else Ok(DeriveVersionedX25519Secret(crypto, s.ed25519Secret, version))
  }

  /** The secrets that have been current, by version. */
  type History = map<nat, Bytes32>

  /**
   Which secret is chosen: for version 0 the legacy one, or the current one as long as
   no version has replaced it, and otherwise none; for any other version the derived one.
   */
  lemma SecretForIff(crypto: Crypto, s: StoredSecret, version: u32, x: Bytes32)
    ensures SecretFor(crypto, s, version) == Ok(x) <==>
              || (version >= 1 && x == DeriveVersionedX25519Secret(crypto, s.ed25519Secret, version))
              || (version == 0 && s.legacyX25519Secret == Some(x))
              || (version == 0 && s.legacyX25519Secret == None && s.x25519Version == 0 && s.x25519Secret == x)
    ensures SecretFor(crypto, s, version).Err? <==>
              version == 0 && s.legacyX25519Secret == None && s.x25519Version >= 1
  {
  }

  /** What a stored secret says about the past: its own version, and the key it kept from version 0. */
  function Recorded(s: StoredSecret): History {
    var own := map[s.x25519Version as nat := s.x25519Secret];
    if s.legacyX25519Secret.Some? then own[0 := s.legacyX25519Secret.value] else own
  }

  /** Every key that was ever current is the one chosen for its version. */
  ghost predicate Covers(crypto: Crypto, s: StoredSecret, history: History) {
    forall v: u32 :: v in history ==> SecretFor(crypto, s, v) == Ok(history[v])
  }

  /** A legacy key is kept only once a version has replaced it. */
  predicate WellFormed(crypto: Crypto, s: StoredSecret) {
    ReloadCheck(crypto, s) && (s.x25519Version == 0 ==> s.legacyX25519Secret == None)
  }

  ghost predicate Good(crypto: Crypto, s: StoredSecret, ed25519Secret: Bytes32, history: History) {
    && WellFormed(crypto, s) && s.ed25519Secret == ed25519Secret
    && Covers(crypto, s, history)
    && s.x25519Version in history && history[s.x25519Version] == s.x25519Secret
  }

  /** The secret after a rotation to `version`. */
  function Rotated(s: StoredSecret, version: u32, x25519Secret: Bytes32): StoredSecret {
    StoredSecret(x25519Secret, s.ed25519Secret, version,
                 if s.x25519Version == 0 then Some(s.x25519Secret) else s.legacyX25519Secret)
  }

  lemma RotationKeeps(crypto: Crypto, s: StoredSecret, ed: Bytes32, history: History, version: u32)
    requires Good(crypto, s, ed, history) && version >= 1
    ensures var x := DeriveVersionedX25519Secret(crypto, ed, version);
            Good(crypto, Rotated(s, version, x), ed, history[version := x])
  {
    var x := DeriveVersionedX25519Secret(crypto, ed, version);
    var r, h := Rotated(s, version, x), history[version := x];
    forall v: u32 | v in h ensures SecretFor(crypto, r, v) == Ok(h[v]) {
      if v != version {
        assert SecretFor(crypto, s, v) == Ok(history[v]);
      }
    }
  }

  /** A copy from before a rotation still covers what was current since. */
  lemma OldCopyKeeps(crypto: Crypto, s: StoredSecret, ed: Bytes32, history: History, version: u32)
    requires Good(crypto, s, ed, history) && version >= 1
    ensures Good(crypto, s, ed, history[version := DeriveVersionedX25519Secret(crypto, ed, version)])
  {
    var h := history[version := DeriveVersionedX25519Secret(crypto, ed, version)];
    forall v: u32 | v in h ensures SecretFor(crypto, s, v) == Ok(h[v]) {
      if v != version {
        assert SecretFor(crypto, s, v) == Ok(history[v]);
      }
    }
  }

  /** Rotating to version 0 is accepted too, but then the current key is the one chosen exactly as follows. */
  lemma CurrentKeyChosenIff(crypto: Crypto, s: StoredSecret, version: u32, x: Bytes32)
    requires WellFormed(crypto, s)
    requires x == DeriveVersionedX25519Secret(crypto, s.ed25519Secret, version)
    ensures SecretFor(crypto, Rotated(s, version, x), version) == Ok(x)
       <==> || version >= 1
            || (s.x25519Version >= 1 && s.legacyX25519Secret == None)
            || (s.x25519Version >= 1 && s.legacyX25519Secret == Some(x))
            || (s.x25519Version == 0 && s.x25519Secret == x)
  {
  }

  /** A record that passes the reload check hides its own key exactly when it keeps another one at version 0. */
  lemma LoadedKeyChosenIff(crypto: Crypto, s: StoredSecret)
    requires ReloadCheck(crypto, s)
    ensures SecretFor(crypto, s, s.x25519Version) == Ok(s.x25519Secret)
       <==> !(s.x25519Version == 0 && s.legacyX25519Secret.Some? && s.legacyX25519Secret.value != s.x25519Secret)
  {
  }

  /** Some other secret. */
  function Other(x: Bytes32): (y: Bytes32)
    ensures y != x
  {
    var y := x[0 := if x[0] == 0 then 1 else 0];
    assert y[0] != x[0];
    y
  }

  /** The failing input, for any hash: a node that still keeps a legacy key rotates to version 0. */
  lemma RotationToZeroFails(crypto: Crypto, ed: Bytes32)
    ensures var x := DeriveVersionedX25519Secret(crypto, ed, 0);
            var s := StoredSecret(DeriveVersionedX25519Secret(crypto, ed, 1), ed, 1, Some(Other(x)));
            WellFormed(crypto, s) && SecretFor(crypto, Rotated(s, 0, x), 0) == Ok(Other(x)) != Ok(x)
  {
    hide DeriveVersionedX25519Secret, Other;
  }

  /** The failing input: a stored version 0 that also holds another key as its legacy key. */
  lemma LoadedKeyHidden(crypto: Crypto, ed: Bytes32, x: Bytes32)
    ensures var s := StoredSecret(x, ed, 0, Some(Other(x)));
            ReloadCheck(crypto, s) && SecretFor(crypto, s, 0) == Ok(Other(x)) != Ok(s.x25519Secret)
  {
    hide DeriveVersionedX25519Secret, Other;
  }

  lemma RecordedIsCovered(crypto: Crypto, s: StoredSecret)
    requires WellFormed(crypto, s)
    ensures Good(crypto, s, s.ed25519Secret, Recorded(s))
  {
  }

  class Identity {
    const crypto: Crypto
    var loaded: Option<LoadedIdentity>
    var copies: seq<LoadedIdentity>           // read by `bind_libp2p_peer_id`, not yet put back
    var publicFile: Option<NodeIdentity>
    var secretFile: Option<StoredSecret>
    ghost var ed25519Secret: Bytes32
    ghost var history: History

    ghost predicate Valid()
      reads this
    {
      && secretFile.Some? && Good(crypto, secretFile.value, ed25519Secret, history)
      && (loaded.Some? ==> Good(crypto, loaded.value.secret, ed25519Secret, history))
      && (forall i :: 0 <= i < |copies| ==> Good(crypto, copies[i].secret, ed25519Secret, history))
    }

    /** A node whose files exist, made by an older release or by this one. */
    constructor FromFiles(crypto: Crypto, public: NodeIdentity, secret: StoredSecret)
      ensures WellFormed(crypto, secret) ==> Valid()
      ensures this.crypto == crypto && loaded == None && history == Recorded(secret)
      ensures secret.legacyX25519Secret.Some? ==> 0 in history && Some(history[0]) == secret.legacyX25519Secret
      ensures publicFile == Some(public) && secretFile == Some(secret)
    {
      this.crypto := crypto;
      loaded, copies := None, [];
      publicFile, secretFile := Some(public), Some(secret);
      ed25519Secret, history := secret.ed25519Secret, Recorded(secret);
      if WellFormed(crypto, secret) {
        RecordedIsCovered(crypto, secret);
      }
    }

    /** A first start: the keys are generated, at version 1, and written out. */
    constructor Generated(crypto: Crypto, ed25519Secret: Bytes32, ed25519Pubkey: Bytes32)
      ensures Valid() && this.crypto == crypto && this.ed25519Secret == ed25519Secret
      ensures var x := DeriveVersionedX25519Secret(crypto, ed25519Secret, 1);
              secretFile == Some(StoredSecret(x, ed25519Secret, 1, None))
      ensures publicFile.Some? && publicFile.value.ed25519Pubkey == ed25519Pubkey
              && publicFile.value.x25519Pubkey == crypto.publicKey(secretFile.value.x25519Secret)
      ensures loaded == Some(LoadedIdentity(publicFile.value, secretFile.value))
    {
      this.crypto := crypto;
      var x := DeriveVersionedX25519Secret(crypto, ed25519Secret, 1);
      var secret := StoredSecret(x, ed25519Secret, 1, None);
      var public := NodeIdentity("", crypto.publicKey(x), ed25519Pubkey);
      loaded, copies := Some(LoadedIdentity(public, secret)), [];
      publicFile, secretFile := Some(public), Some(secret);
      this.ed25519Secret, history := ed25519Secret, Recorded(secret);
      RecordedIsCovered(crypto, secret);
    }

    /** `load_existing`, as a new process does it; a secret that fails the check is not loaded. */
    method LoadExisting() returns (ok: bool)
      modifies this`loaded
      ensures old(Valid()) ==> Valid()
      ensures ok == (publicFile.Some? && secretFile.Some? && ReloadCheck(crypto, secretFile.value))
      ensures loaded == if ok then Some(LoadedIdentity(publicFile.value, secretFile.value)) else old(loaded)
    {
      if publicFile.None? || secretFile.None? {
        return false;
      }
      var secret := secretFile.value;
      if secret.x25519Version >= 1 {
        var expected := DeriveVersionedX25519Secret(crypto, secret.ed25519Secret, secret.x25519Version);
        if expected != secret.x25519Secret {
          return false;
        }
      }
      loaded := Some(LoadedIdentity(publicFile.value, secret));
      ok := true;
    }

    /** The version, secret and public key of the next rotation. */
    function PrepareEncryptionRotation(): (r: Result<(u32, Bytes32, Bytes32)>)
      reads this
      ensures r.Ok? <==> loaded.Some?
      ensures r.Ok? ==>
                var (next, x, public) := r.value; var s := loaded.value.secret;
                && next == (if s.x25519Version == U32_LIMIT - 1 then 1 else s.x25519Version + 1)
                && SecretFor(crypto, s, next) == Ok(x) && public == crypto.publicKey(x)
    {
      if loaded.None? then Err("identity not initialized")
      else
        var s := loaded.value.secret;
        var next: u32 := Max(WrappingInc32(s.x25519Version), 1);
        var x := DeriveVersionedX25519Secret(crypto, s.ed25519Secret, next);
        Ok((next, x, crypto.publicKey(x)))
    }

    /**
     Makes a derived secret current and writes both files, either of which may
     fail. Memory moves on regardless; every key that was ever current stays available.
     */
    method PersistEncryptionKeyRotation(newVersion: u32, newSecret: Bytes32, publicWritten: bool, secretWritten: bool)
      returns (ok: bool)
      requires Valid()
      modifies this`loaded, this`publicFile, this`secretFile, this`history
      ensures newVersion >= 1 ==> Valid()
      ensures var accepted := old(loaded).Some?
                 && newSecret ==
                    DeriveVersionedX25519Secret(crypto, old(loaded).value.secret.ed25519Secret, newVersion);
              && ok == (accepted && publicWritten && secretWritten)
              && (accepted ==>
                    && loaded.Some? && loaded.value.secret == Rotated(old(loaded).value.secret, newVersion, newSecret)
                    && loaded.value.public == old(loaded).value.public.(x25519Pubkey := crypto.publicKey(newSecret))
                    && history == old(history)[newVersion as nat := newSecret]
                    && publicFile == (if publicWritten then Some(loaded.value.public) else old(publicFile))
                    && secretFile == (if publicWritten && secretWritten then Some(loaded.value.secret)
                                      else old(secretFile)))
              && (!accepted ==> loaded == old(loaded) && history == old(history)
                                && publicFile == old(publicFile) && secretFile == old(secretFile))
    {
      hide Good, Preimage;
      if loaded.None? {
        return false;
      }
      var expected := DeriveVersionedX25519Secret(crypto, loaded.value.secret.ed25519Secret, newVersion);
      if expected != newSecret {
        return false;
      }
      var s := loaded.value.secret;
      if newVersion >= 1 {
        RotationKeeps(crypto, s, ed25519Secret, history, newVersion);
        OldCopyKeeps(crypto, secretFile.value, ed25519Secret, history, newVersion);
        forall i | 0 <= i < |copies|
          ensures Good(crypto, copies[i].secret, ed25519Secret, history[newVersion as nat := newSecret])
        {
          OldCopyKeeps(crypto, copies[i].secret, ed25519Secret, history, newVersion);
        }
      }
      var oldVersion, oldSecret, legacy := s.x25519Version, s.x25519Secret, s.legacyX25519Secret;
      if oldVersion == 0 {
        legacy := Some(oldSecret);
      }
      var secret := s.(x25519Secret := newSecret, x25519Version := newVersion, legacyX25519Secret := legacy);
      var public := loaded.value.public.(x25519Pubkey := crypto.publicKey(newSecret));
      loaded := Some(LoadedIdentity(public, secret));
      history := history[newVersion as nat := newSecret];
      if !publicWritten {
        return false;
      }
      publicFile := Some(public);
      if !secretWritten {
        return false;
      }
      secretFile := Some(secret);
      ok := true;
    }

    /** The first step of binding a peer id: a copy of the identity is read and given the peer id. */
    method BindRead(peerId: string)
      requires Valid()
      modifies this`copies
      ensures Valid()
    {
      if loaded.Some? {
        var copy := loaded.value;
        copies := copies + [copy.(public := copy.public.(peerId := peerId))];
      }
    }

    /** The second step: the copy's public part is written to its file. */
    method BindWrite(i: nat)
      requires Valid() && i < |copies|
      modifies this`publicFile
      ensures Valid() && publicFile == Some(copies[i].public)
    {
      publicFile := Some(copies[i].public);
    }

    /** The last step: the copy replaces the identity in memory, whatever happened to that meanwhile. */
    method BindStore(i: nat)
      requires Valid() && i < |copies|
      modifies this`loaded
      ensures Valid() && loaded == Some(copies[i])
    {
      loaded := Some(copies[i]);
    }

    /** The process ends and a new one loads the files. */
    method Restart() returns (ok: bool)
      requires Valid()
      modifies this`loaded, this`copies
      ensures Valid() && copies == []
      ensures ok <==> publicFile.Some?
      ensures loaded == if ok then Some(LoadedIdentity(publicFile.value, secretFile.value)) else None
    {
      loaded, copies := None, [];
      ok := LoadExisting();
    }

    method Perform(event: Event)
      requires Valid() && (event.Persist? ==> event.version >= 1)
      modifies this
      ensures Valid() && Remembers(old(history), history)
    {
      match event
      case Persist(version, secret, publicWritten, secretWritten) =>
        var _ := PersistEncryptionKeyRotation(version, secret, publicWritten, secretWritten);
      case Read(peerId) => BindRead(peerId);
      case Write(i) =>
        if i < |copies| {
          BindWrite(i);
        }
      case Store(i) =>
        if i < |copies| {
          BindStore(i);
        }
      case Reload => var _ := Restart();
    }

    /**
     Any run of rotations, bindings, failed writes and restarts: the key chosen
     for a version is the one that was current when that version was, now and
     after a reload, and the stored secret passes the reload check.
     */
    method Run(events: seq<Event>)
      requires Valid() && forall i :: 0 <= i < |events| && events[i].Persist? ==> events[i].version >= 1
      modifies this
      ensures Valid() && Remembers(old(history), history)
      ensures forall v: u32 :: v in history && loaded.Some? ==>
                SecretFor(crypto, loaded.value.secret, v) == Ok(history[v])
      ensures secretFile.Some? && ReloadCheck(crypto, secretFile.value)
      ensures forall v: u32 :: v in history ==> SecretFor(crypto, secretFile.value, v) == Ok(history[v])
    {
      for i := 0 to |events|
        invariant Valid() && Remembers(old(history), history)
      {
        Perform(events[i]);
      }
    }
  }

  datatype Event =
    | Persist(version: u32, secret: Bytes32, publicWritten: bool, secretWritten: bool)
    | Read(peerId: string)
    | Write(i: nat)
    | Store(i: nat)
    | Reload

  /** What was current once is never forgotten or changed. */
  ghost predicate Remembers(a: History, b: History) {
    forall v :: v in a ==> v in b && b[v] == a[v]
  }
}
