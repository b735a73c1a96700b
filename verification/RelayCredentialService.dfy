/** The credential service object: relay-key snapshot in memory, credentials file in the data directory. */
module RelayCredentialService {
  import opened Secrets
  import opened RelayCredentials
  import Files = KeyringFile

  class Service {
    const setup: Setup
    const files: Files.File
    var active: Held
    var activeEnc: StoredRelay
    var grace: Grace
    var also: set<Digest>

    ghost function View(): Memory
      reads this
    {
      Memory(active, activeEnc, grace, also)
    }

    constructor (setup: Setup, files: Files.File)
      ensures View() == CLEARED && this.setup == setup && this.files == files
    {
      this.setup, this.files := setup, files;
      active, activeEnc, grace, also := Nobody, NoRelay, NoGrace, {};
    }

    method ExpireGraceLocked(now: int)
      modifies this
      ensures View() == Expire(old(View()), now)
    {
      if grace.Grace? && !(now < grace.deadline) {
        grace := NoGrace;
      }
    }

    method SetActiveRelayKeys(keys: seq<string>, encrypts: bool) returns (ok: bool)
      modifies this
      ensures (View(), ok) == Install(keys, setup.cipher, encrypts)
    {
      active, activeEnc, grace, also := Nobody, NoRelay, NoGrace, {};
      var primary := "";
      var i := 0;
      while i < |keys|
        invariant 0 <= i <= |keys|
        invariant activeEnc.NoRelay? && grace.NoGrace?
        invariant active == (if primary == "" then Nobody else Held(Digest(primary)))
        invariant primary == "" ==>
                    also == {} && Primary(keys) == Primary(keys[i..]) && Extras(keys) == Extras(keys[i..])
        invariant primary != "" ==> primary == Primary(keys) && Extras(keys) == also + Named(keys[i..])
      {
        assert keys[i..] == [keys[i]] + keys[i + 1..];
        NamedStep(keys[i..]);
        if keys[i] != "" {
          if active.Nobody? {
            active := Held(Digest(keys[i]));
            primary := keys[i];
          } else {
            also := also + {Digest(keys[i])};
          }
        }
        i := i + 1;
      }
      assert keys[i..] == [] && Named(keys[i..]) == {};
      assert primary != "" ==> also == Extras(keys);
      if primary == "" || setup.cipher.NoCipher? {
        return true;
      }
      if !encrypts {
        active := Nobody;
        also := {};
        return false;
      }
      activeEnc := Envelope(setup.cipher.master, primary);
      return true;
    }

    method ValidRelayKey(key: string, now: int) returns (ok: bool)
      modifies this
      ensures ok == Accepts(old(View()), key, now)
      ensures View() == if key == "" then old(View()) else Expire(old(View()), now)
    {
      if key == "" {
        return false;
      }
      ExpireGraceLocked(now);
      if active == Held(Digest(key)) || (grace.Grace? && grace.digest == Digest(key)) {
        return true;
      }
      return Digest(key) in also;
    }

    method ReplaceRotation(sealed: StoredRelay, next: Grace, fault: Fault) returns (outcome: Outcome)
      modifies files
      ensures (files.disk, outcome) == ReplaceRelayRotation(old(files.disk), sealed, next, fault)
    {
      if fault.At(0) {
        return fault.Halt();
      }
      if files.disk.now.credentials.CorruptCredentials? {
        return Failed;
      }
      var doc := NEW_DOCUMENT;
      if files.disk.now.credentials.Credentials? {
        doc := files.disk.now.credentials.doc;
      }
      if doc.formatVersion == 0 {
        doc := doc.(formatVersion := 1);
      }
      doc := doc.(relayKey := sealed);
      doc := doc.(grace := next);
      outcome := files.WriteCredentialsFile(doc, fault);
    }

    method ClearPersistedGrace(fault: Fault) returns (outcome: Outcome)
      modifies files
      ensures (files.disk, outcome) == ClearGrace(old(files.disk), fault)
    {
      if fault.At(0) {
        return fault.Halt();
      }
      if files.disk.now.credentials.CorruptCredentials? {
        return Failed;
      }
      if files.disk.now.credentials.NoCredentials? {
        return Done;
      }
      var doc := files.disk.now.credentials.doc;
      if doc.grace.NoGrace? {
        return Done;
      }
      outcome := files.WriteCredentialsFile(doc.(grace := NoGrace), fault);
    }

    ghost function State(): Node
      reads this, files
    {
      Node(files.disk, View())
    }

    /** The file is replaced before the snapshot flips; the rotated-out key leaves the extra keys. A
        success leaves file and memory in step, a failure that did not split changes neither. */
    method RotateRelayKey(newKey: string, now: int, f: RotateFaults) returns (outcome: Outcome)
      modifies this, files
      ensures (files.disk, View(), outcome) == Rotate(old(files.disk), old(View()), setup, newKey, now, f)
      ensures setup.persists && setup.cipher.Under? && newKey != "" && outcome.Done? ==>
                InStep(State(), setup.cipher.master, now)
      ensures && setup.persists && setup.cipher.Under? && outcome.Failed?
              && !Splits(old(State()), DoRotate(newKey, now, f)) ==>
                State() == old(State())
    {
      if setup.cipher.Under? && newKey != "" {
        ActStaysInStep(State(), setup.cipher.master, DoRotate(newKey, now, f), now);
      }
      if !f.random {
        return Failed;
      }
      var enc := NoRelay;
      if setup.cipher.Under? {
        if !f.encrypts {
          return Failed;
        }
        enc := Envelope(setup.cipher.master, newKey);
      }
      var next := NoGrace;
      if active.Held? {
        next := Grace(active.digest, now + GRACE_SECONDS);
      }
      if setup.persists {
        if enc.NoRelay? {
          return Failed;
        }
        outcome := ReplaceRotation(enc, next, f.file);
        if !outcome.Done? {
          return outcome;
        }
      }
      if next.Grace? {
        also := also - {next.digest};
      }
      grace := next;
      active := Held(Digest(newKey));
      activeEnc := enc;
      return Done;
    }

    /** The file is cleared before the snapshot; file and memory stay in step unless the write splits. */
    method RevokeGrace(fault: Fault) returns (outcome: Outcome)
      modifies this, files
      ensures (files.disk, View(), outcome) == Revoke(old(files.disk), old(View()), setup, fault)
      ensures forall now :: setup.persists && setup.cipher.Under? && InStep(old(State()), setup.cipher.master, now)
                            && !outcome.Crashed? && !Splits(old(State()), DoRevoke(now, fault)) ==>
                              InStep(State(), setup.cipher.master, now)
    {
      if setup.cipher.Under? {
        forall now: int { ActStaysInStep(State(), setup.cipher.master, DoRevoke(now, fault), now); }
      }
      if setup.persists {
        outcome := ClearPersistedGrace(fault);
        if !outcome.Done? {
          return outcome;
        }
      }
      grace := NoGrace;
      return Done;
    }

    /** Reloads an unexpired grace window after the keys were installed. */
    method RestorePersistedGrace(now: int) returns (ok: bool)
      requires grace.NoGrace?
      modifies this
      ensures ok == !files.disk.now.credentials.CorruptCredentials?
      ensures var content := files.disk.now.credentials;
              var stored := if content.Credentials? then content.doc.grace else NoGrace;
              View() == old(View()).(grace := Expire(CLEARED.(grace := stored), now).grace)
    {
      if files.disk.now.credentials.CorruptCredentials? {
        return false;
      }
      if files.disk.now.credentials.NoCredentials? {
        return true;
      }
      var stored := files.disk.now.credentials.doc.grace;
      if stored.NoGrace? || !(now < stored.deadline) {
        return true;
      }
      grace := stored;
      return true;
    }

    /** Startup: choose the keys, install them, restore the grace window. */
    method Boot(master: string, environment: seq<string>, now: int) returns (ok: bool)
      requires setup.cipher == Under(master)
      modifies this
      ensures ok <==> Restart(files.disk.now, master, environment, now).Started?
      ensures ok ==> Restart(files.disk.now, master, environment, now) == Started(View())
    {
      var keys := environment;
      if Primary(environment) == "" {
        if files.disk.now.credentials.Credentials? {
          keys := [OpenedRelay(files.disk.now.credentials.doc.relayKey, master)];
        }
      }
      if Primary(keys) == "" {
        return false;
      }
      ok := SetActiveRelayKeys(keys, true);
      ok := RestorePersistedGrace(now);
    }
  }

  /** The digests of the keys that are not empty. */
  function Named(keys: seq<string>): set<Digest> {
    set k | k in keys && k != "" :: Digest(k)
  }

  lemma NamedStep(keys: seq<string>)
    requires keys != []
    ensures Named(keys) == Named(keys[1..]) + if keys[0] == "" then {} else {Digest(keys[0])}
    ensures keys[0] != "" ==> Extras(keys) == Named(keys[1..]) && Primary(keys) == keys[0]
    ensures keys[0] == "" ==> Extras(keys) == Extras(keys[1..]) && Primary(keys) == Primary(keys[1..])
  {
  }
}
