/** The hash-linked audit log of backend/main.py: `log_audit_entry` appends a
    row whose `prev_hash` is the hash of the newest row, and
    `verify_audit_chain` walks the rows in id order, checking each link and
    each HMAC signature. SHA-256 and HMAC-SHA256 are uninterpreted functions
    on strings. */
module AuditChain {

  import opened Wrappers

  /** A row of the `audit_log` table; `data` is the JSON text of the entry's
      data, exactly as `json.dumps` produced it when the row was written. */
  datatype Entry = Entry(id: nat, action: string, data: string, timestamp: string,
                         hash: string, signature: string, prevHash: string)

  /** The two digests the log uses, as hexadecimal strings: SHA-256 of a
      message (FIPS 180-4) and HMAC-SHA256 of a message under a key (RFC 2104). */
  datatype Crypto = Crypto(sha256: string -> string, hmac: (string, string) -> string)

  /** What `log_audit_entry` returns. */
  datatype Receipt = Receipt(hash: string, signature: string)

  /** The answer of `verify_audit_chain`: valid with "No entries to verify" or
      "All n entries verified", or invalid at the id of the first bad row. */
  datatype Verdict = NoEntries | AllVerified(count: nat) | ChainBroken(id: nat) | InvalidSignature(id: nat)

  predicate IsValid(v: Verdict)
  {
    v.NoEntries? || v.AllVerified?
  }

  /** `"0" * n` */
  function Zeros(n: nat): (z: string)
    ensures |z| == n && forall i :: 0 <= i < n ==> z[i] == '0'
  {
    if n == 0 then "" else Zeros(n - 1) + "0"
  }

  /** The `prev_hash` of the first row: 64 zeros. */
  const Genesis: string := Zeros(64)

  const DefaultSecret: string := "default-secret-key"

  /** `os.getenv("AUDIT_SECRET", "default-secret-key")` for the value `env`
      of the environment variable, if it is set. */
  function SecretFrom(env: Option<string>): string
  {
    match env
    case Some(value) => value
    case None => DefaultSecret
  }

  /** The string both the hash and the signature are computed over: action,
      JSON data, timestamp and previous hash, concatenated without separators. */
  function Preimage(action: string, data: string, timestamp: string, prevHash: string): string
  {
    action + data + timestamp + prevHash
  }

  /** Rows are stored in increasing id order, as `order_by(AuditLog.id)` lists them. */
  predicate IdsIncreasing(log: seq<Entry>)
  {
    forall i, j :: 0 <= i < j < |log| ==> log[i].id < log[j].id
  }

  /** The id the database gives the next row. */
  function NextId(log: seq<Entry>): nat
  {
    if log == [] then 1 else log[|log| - 1].id + 1
  }

  /** The `prev_hash` of the next row: the hash of the newest row, or
      `Genesis` in an empty log. */
  function TailHash(log: seq<Entry>): string
  {
    if log == [] then Genesis else log[|log| - 1].hash
  }

  /** `order_by(AuditLog.id.desc()).first()` is the last row: in an ordered
      log the hash `TailHash` picks is that of the row with the highest id. */
  lemma TailHashOfNewest(log: seq<Entry>)
    requires IdsIncreasing(log)
    ensures log == [] ==> TailHash(log) == Genesis
    ensures log != [] ==> exists k :: 0 <= k < |log| && TailHash(log) == log[k].hash &&
                                        (forall j :: 0 <= j < |log| ==> log[j].id <= log[k].id)
  {
    if log != [] {
      var k := |log| - 1;
      assert forall j :: 0 <= j < |log| ==> log[j].id <= log[k].id;
    }
  }

  /** The row `log_audit_entry` stores after `log`: it links to the newest row
      (or to `Genesis`), its id exceeds every stored id, and its hash and its
      signature are computed over the same string, built from its own fields,
      so it passes the signature check under the same secret. */
  function NewEntry(log: seq<Entry>, action: string, data: string, timestamp: string, c: Crypto, secret: string): (e: Entry)
    ensures e.action == action && e.data == data && e.timestamp == timestamp
    ensures (log == [] ==> e.prevHash == Genesis) && (log != [] ==> e.prevHash == log[|log| - 1].hash)
    ensures IdsIncreasing(log) ==> forall j :: 0 <= j < |log| ==> log[j].id < e.id
    ensures e.hash == c.sha256(Preimage(e.action, e.data, e.timestamp, e.prevHash))
    ensures e.signature == c.hmac(secret, Preimage(e.action, e.data, e.timestamp, e.prevHash))
    ensures SignatureOk(e, c, secret)
  {
    var prevHash := TailHash(log);
    var s := Preimage(action, data, timestamp, prevHash);
    Entry(NextId(log), action, data, timestamp, c.sha256(s), c.hmac(secret, s), prevHash)
  }

  /** Some stored row already has hash `h`; the `hash` column is unique, so
      committing a second row with it fails. */
  predicate HashTaken(log: seq<Entry>, h: string)
  {
    exists k :: 0 <= k < |log| && log[k].hash == h
  }

  /** The table after `log_audit_entry`: one row more at the end, unless the
      commit fails on a duplicate hash, and the earlier rows as they were. */
  function Appended(log: seq<Entry>, action: string, data: string, timestamp: string, c: Crypto, secret: string): (r: seq<Entry>)
    ensures |r| == |log| || |r| == |log| + 1
    ensures r[..|log|] == log
    ensures |r| == |log| + 1 <==> !HashTaken(log, c.sha256(Preimage(action, data, timestamp, TailHash(log))))
    ensures |r| == |log| + 1 ==> !HashTaken(log, r[|log|].hash)
  {
    var e := NewEntry(log, action, data, timestamp, c, secret);
    if HashTaken(log, e.hash) then log else log + [e]
  }

  // ---------------------------------------------------------------------------
  // The checks of verify_audit_chain

  /** Row `k` links to its predecessor; row 0 is not checked. */
  predicate LinkOk(log: seq<Entry>, k: nat)
    requires k < |log|
  {
    k == 0 || log[k].prevHash == log[k - 1].hash
  }

  /** The stored signature is the HMAC of the row's own fields under `secret`. */
  predicate SignatureOk(e: Entry, c: Crypto, secret: string)
  {
    e.signature == c.hmac(secret, Preimage(e.action, e.data, e.timestamp, e.prevHash))
  }

  predicate EntryOk(log: seq<Entry>, k: nat, c: Crypto, secret: string)
    requires k < |log|
  {
    LinkOk(log, k) && SignatureOk(log[k], c, secret)
  }

  /** Every row passes both checks. */
  predicate Sound(log: seq<Entry>, c: Crypto, secret: string)
  {
    forall k :: 0 <= k < |log| ==> EntryOk(log, k, c, secret)
  }

  /** The first row at or after `i` that fails a check, if any. */
  function FirstFault(log: seq<Entry>, c: Crypto, secret: string, i: nat): (r: Option<nat>)
    requires i <= |log|
    ensures r.Some? ==> i <= r.value < |log| && !EntryOk(log, r.value, c, secret)
    ensures r.Some? ==> forall j :: i <= j < r.value ==> EntryOk(log, j, c, secret)
    ensures r.None? <==> forall j :: i <= j < |log| ==> EntryOk(log, j, c, secret)
    decreases |log| - i
  {
    if i == |log| then None
    else if !EntryOk(log, i, c, secret) then Some(i)
    else FirstFault(log, c, secret, i + 1)
  }

  /** `verify_audit_chain`: an empty log has no entries to verify; a log all
      of whose rows pass verifies with its row count; otherwise the verdict
      names the id of the first failing row, as a broken chain when its link
      fails (checked first) and as an invalid signature otherwise. */
  function Verify(log: seq<Entry>, c: Crypto, secret: string): (v: Verdict)
    ensures v == NoEntries <==> log == []
    ensures v.AllVerified? ==> v.count == |log| && Sound(log, c, secret)
    ensures v.ChainBroken? ==>
      (exists k :: 0 < k < |log| && v.id == log[k].id && !LinkOk(log, k) &&
                   forall j :: 0 <= j < k ==> EntryOk(log, j, c, secret))
    ensures v.InvalidSignature? ==>
      (exists k :: 0 <= k < |log| && v.id == log[k].id && LinkOk(log, k) && !SignatureOk(log[k], c, secret) &&
                   forall j :: 0 <= j < k ==> EntryOk(log, j, c, secret))
  {
    if log == [] then NoEntries
    else
      var fault := FirstFault(log, c, secret, 0);
      if fault.None? then AllVerified(|log|)
      else if !LinkOk(log, fault.value) then ChainBroken(log[fault.value].id)
      else InvalidSignature(log[fault.value].id)
  }

  // ---------------------------------------------------------------------------
  // Properties

  /** The log verifies exactly when every row passes both checks. */
  lemma ValidIffSound(log: seq<Entry>, c: Crypto, secret: string)
    ensures IsValid(Verify(log, c, secret)) <==> Sound(log, c, secret)
  {
    var r := FirstFault(log, c, secret, 0);
    if r.Some? {
      assert !EntryOk(log, r.value, c, secret);
    }
  }

  /** An invalid verdict names the first failing row, and says which check it failed. */
  lemma InvalidNamesFirstFault(log: seq<Entry>, c: Crypto, secret: string, k: nat)
    requires k < |log|
    requires !EntryOk(log, k, c, secret)
    requires forall j :: 0 <= j < k ==> EntryOk(log, j, c, secret)
    ensures !LinkOk(log, k) ==> Verify(log, c, secret) == ChainBroken(log[k].id)
    ensures LinkOk(log, k) ==> Verify(log, c, secret) == InvalidSignature(log[k].id)
  {
    assert FirstFault(log, c, secret, 0) == Some(k);
  }

  /** The row `log_audit_entry` adds passes both checks after the old rows,
      under the secret it was signed with. */
  lemma NewEntryPasses(log: seq<Entry>, action: string, data: string, timestamp: string, c: Crypto, secret: string)
    ensures var r := log + [NewEntry(log, action, data, timestamp, c, secret)];
      EntryOk(r, |log|, c, secret)
  {
  }

  /** Appending keeps a sound log sound when the secret is unchanged. */
  lemma {:induction false} AppendKeepsSound(log: seq<Entry>, action: string, data: string, timestamp: string, c: Crypto, secret: string)
    requires Sound(log, c, secret)
    ensures Sound(Appended(log, action, data, timestamp, c, secret), c, secret)
  {
    var r := Appended(log, action, data, timestamp, c, secret);
    if |r| == |log| + 1 {
      forall k | 0 <= k < |r|
        ensures EntryOk(r, k, c, secret)
      {
        if k < |log| {
          assert r[k] == log[k];
          assert EntryOk(log, k, c, secret);
          if k > 0 {
            assert r[k - 1] == log[k - 1];
          }
        } else {
          NewEntryPasses(log, action, data, timestamp, c, secret);
        }
      }
    }
  }

  /** Appending keeps the rows in increasing id order. */
  lemma AppendKeepsOrder(log: seq<Entry>, action: string, data: string, timestamp: string, c: Crypto, secret: string)
    requires IdsIncreasing(log)
    ensures IdsIncreasing(Appended(log, action, data, timestamp, c, secret))
  {
    var r := Appended(log, action, data, timestamp, c, secret);
    if |r| == |log| + 1 {
      forall i, j | 0 <= i < j < |r|
        ensures r[i].id < r[j].id
      {
        if j == |log| {
          assert r[i] == log[i];
          assert log[i].id <= log[|log| - 1].id;
        }
      }
    }
  }

  /** One request to `log_audit_entry`: action, JSON data and timestamp. */
  datatype Request = Request(action: string, data: string, timestamp: string)

  /** The table after a series of `log_audit_entry` calls under one secret. */
  function AppendAll(log: seq<Entry>, rs: seq<Request>, c: Crypto, secret: string): (r: seq<Entry>)
    ensures |log| <= |r| <= |log| + |rs|
    ensures r[..|log|] == log
    decreases |rs|
  {
    if rs == [] then log
    else
      var next := Appended(log, rs[0].action, rs[0].data, rs[0].timestamp, c, secret);
      var r := AppendAll(next, rs[1..], c, secret);
      assert r[..|log|] == r[..|next|][..|log|];
      r
  }

  /** A log written only by `log_audit_entry` under an unchanged secret verifies. */
  lemma {:induction false} AppendAllVerifies(log: seq<Entry>, rs: seq<Request>, c: Crypto, secret: string)
    requires Sound(log, c, secret)
    ensures Sound(AppendAll(log, rs, c, secret), c, secret)
    ensures IsValid(Verify(AppendAll(log, rs, c, secret), c, secret))
    decreases |rs|
  {
    if rs != [] {
      AppendKeepsSound(log, rs[0].action, rs[0].data, rs[0].timestamp, c, secret);
      AppendAllVerifies(Appended(log, rs[0].action, rs[0].data, rs[0].timestamp, c, secret), rs[1..], c, secret);
    }
    ValidIffSound(AppendAll(log, rs, c, secret), c, secret);
  }

  /** In particular a log that starts empty and is filled by appends verifies. */
  lemma FreshLogVerifies(rs: seq<Request>, c: Crypto, secret: string)
    ensures IsValid(Verify(AppendAll([], rs, c, secret), c, secret))
  {
    AppendAllVerifies([], rs, c, secret);
  }

  // ---------------------------------------------------------------------------
  // What tampering verify_audit_chain detects

  /** Changing the stored hash of row `k` of a sound log is caught at the link
      check of row `k + 1`, and not at all when `k` is the last row: the
      stored hash is never recomputed. */
  lemma TamperedHash(log: seq<Entry>, c: Crypto, secret: string, k: nat, h: string)
    requires Sound(log, c, secret) && k < |log| && h != log[k].hash
    ensures var t := log[k := log[k].(hash := h)];
      (k + 1 < |log| ==> Verify(t, c, secret) == ChainBroken(log[k + 1].id)) &&
      (k + 1 == |log| ==> Verify(t, c, secret) == AllVerified(|log|))
  {
    var t := log[k := log[k].(hash := h)];
    forall j | 0 <= j < |t| && j != k + 1
      ensures EntryOk(t, j, c, secret)
    {
      assert EntryOk(log, j, c, secret);
    }
    if k + 1 < |log| {
      assert EntryOk(log, k + 1, c, secret);
      assert !LinkOk(t, k + 1);
      InvalidNamesFirstFault(t, c, secret, k + 1);
    } else {
      ValidIffSound(t, c, secret);
    }
  }

  /** A row of a sound log whose signature no longer matches its fields is
      caught at that row, as a bad signature. */
  lemma TamperedSignature(log: seq<Entry>, c: Crypto, secret: string, k: nat, sig: string)
    requires Sound(log, c, secret) && k < |log| && sig != log[k].signature
    ensures Verify(log[k := log[k].(signature := sig)], c, secret) == InvalidSignature(log[k].id)
  {
    var t := log[k := log[k].(signature := sig)];
    forall j | 0 <= j < k
      ensures EntryOk(t, j, c, secret)
    {
      assert EntryOk(log, j, c, secret);
    }
    assert EntryOk(log, k, c, secret);
    InvalidNamesFirstFault(t, c, secret, k);
  }

  /** A changed `prev_hash` of a row after the first breaks its link. */
  lemma TamperedPrevHash(log: seq<Entry>, c: Crypto, secret: string, k: nat, p: string)
    requires Sound(log, c, secret) && 0 < k < |log| && p != log[k].prevHash
    ensures Verify(log[k := log[k].(prevHash := p)], c, secret) == ChainBroken(log[k].id)
  {
    var t := log[k := log[k].(prevHash := p)];
    forall j | 0 <= j < k
      ensures EntryOk(t, j, c, secret)
    {
      assert EntryOk(log, j, c, secret);
    }
    assert EntryOk(log, k, c, secret);
    InvalidNamesFirstFault(t, c, secret, k);
  }

  /** Any change to the fields of row `k` that keeps the links of the log is
      caught exactly when the stored signature is not the HMAC of the new
      fields: this covers the data, the action, the timestamp and the first
      row's `prev_hash`, which no link check covers. */
  lemma TamperedFields(log: seq<Entry>, c: Crypto, secret: string, k: nat, e: Entry)
    requires Sound(log, c, secret) && k < |log|
    requires e.id == log[k].id && e.hash == log[k].hash && e.signature == log[k].signature
    requires k > 0 ==> e.prevHash == log[k].prevHash
    ensures IsValid(Verify(log[k := e], c, secret)) <==> SignatureOk(e, c, secret)
    ensures !SignatureOk(e, c, secret) ==> Verify(log[k := e], c, secret) == InvalidSignature(log[k].id)
  {
    var t := log[k := e];
    forall j | 0 <= j < |t| && j != k
      ensures EntryOk(t, j, c, secret)
    {
      assert EntryOk(log, j, c, secret);
    }
    assert LinkOk(t, k) by {
      if k > 0 {
        assert EntryOk(log, k, c, secret);
      }
    }
    ValidIffSound(t, c, secret);
    if !SignatureOk(e, c, secret) {
      InvalidNamesFirstFault(t, c, secret, k);
    }
  }

  /** Moving characters between the action and the data of a row leaves the
      signed string, and so the verdict, as it was: the fields are
      concatenated without separators. */
  lemma ShiftedBoundaryUndetected(log: seq<Entry>, c: Crypto, secret: string, k: nat, action: string, data: string)
    requires Sound(log, c, secret) && k < |log|
    requires action + data == log[k].action + log[k].data
    ensures IsValid(Verify(log[k := log[k].(action := action, data := data)], c, secret))
  {
    var e := log[k].(action := action, data := data);
    assert EntryOk(log, k, c, secret);
    assert Preimage(action, data, e.timestamp, e.prevHash) == Preimage(log[k].action, log[k].data, e.timestamp, e.prevHash) by {
      assert action + data + e.timestamp + e.prevHash == (action + data) + e.timestamp + e.prevHash;
      assert log[k].action + log[k].data + e.timestamp + e.prevHash == (log[k].action + log[k].data) + e.timestamp + e.prevHash;
    }
    TamperedFields(log, c, secret, k, e);
  }

  /** Verifying under another secret than the one the rows were signed with:
      a non-empty sound log fails at row 0 unless the two HMACs of its
      signed string agree. */
  lemma WrongSecret(log: seq<Entry>, c: Crypto, secret: string, other: string)
    requires Sound(log, c, secret) && log != []
    requires var e := log[0]; c.hmac(other, Preimage(e.action, e.data, e.timestamp, e.prevHash)) != e.signature
    ensures Verify(log, c, other) == InvalidSignature(log[0].id)
  {
    InvalidNamesFirstFault(log, c, other, 0);
  }

  // ---------------------------------------------------------------------------
  // The table

  class AuditLog {
    var entries: seq<Entry>

    /** The rows are kept in id order. */
    predicate Valid()
      reads this
    {
      IdsIncreasing(entries)
    }

    constructor ()
      ensures entries == [] && Valid()
    {
      entries := [];
    }

    /** `log_audit_entry`: link the new row to the newest one, hash and sign
        the concatenated string, and store the row; on a duplicate hash the
        commit fails and nothing is stored or returned. */
    method Append(action: string, data: string, timestamp: string, crypto: Crypto, env: Option<string>)
      returns (receipt: Option<Receipt>)
      requires Valid()
      modifies this
      ensures Valid()
      ensures entries == Appended(old(entries), action, data, timestamp, crypto, SecretFrom(env))
      ensures receipt.Some? <==> |entries| == |old(entries)| + 1
      ensures receipt.Some? ==> receipt.value == Receipt(entries[|entries| - 1].hash, entries[|entries| - 1].signature)
    {
      var prevHash := if |entries| == 0 then Genesis else entries[|entries| - 1].hash;
      var entryData := action + data + timestamp + prevHash;
      var newHash := crypto.sha256(entryData);
      var secret := SecretFrom(env);
      var signature := crypto.hmac(secret, entryData);
      AppendKeepsOrder(entries, action, data, timestamp, crypto, secret);
      if HashTaken(entries, newHash) {
        receipt := None;
        return;
      }
      var id := if |entries| == 0 then 1 else entries[|entries| - 1].id + 1;
      entries := entries + [Entry(id, action, data, timestamp, newHash, signature, prevHash)];
      receipt := Some(Receipt(newHash, signature));
    }

    /** `verify_audit_chain`: walk the rows in id order and stop at the first
        broken link or bad signature. Storage order is id order because the
        ids increase. */
    method VerifyChain(crypto: Crypto, env: Option<string>) returns (verdict: Verdict)
      requires Valid()
      ensures verdict == Verify(entries, crypto, SecretFrom(env))
    {
      if |entries| == 0 {
        return NoEntries;
      }
      var i := 0;
      while i < |entries|
        invariant 0 <= i <= |entries|
        invariant FirstFault(entries, crypto, SecretFrom(env), 0) == FirstFault(entries, crypto, SecretFrom(env), i)
      {
        var entry := entries[i];
        if i > 0 && entry.prevHash != entries[i - 1].hash {
          return ChainBroken(entry.id);
        }
        var secret := SecretFrom(env);
        var entryData := entry.action + entry.data + entry.timestamp + entry.prevHash;
        var expected := crypto.hmac(secret, entryData);
        if entry.signature != expected {
          return InvalidSignature(entry.id);
        }
        i := i + 1;
      }
      return AllVerified(|entries|);
    }
  }
}
