/** OAuth tokens at rest: versioned rows (backend/db/db.go), string encryption (backend/crypto/crypto.go) and
    the migration of plaintext rows (backend/cmd/migrate-tokens/main.go). */
module Tokens {
  import opened Common

  datatype Result<+T> = Ok(value: T) | Error

  /** A cipher together with base64; every encryption draws a nonce, and decryption may fail. */
  datatype Cipher = Cipher(encrypt: (string, nat) -> string, decrypt: string -> Option<string>)

  /** What the models assume of AES-256-GCM and base64 (section 7 of NIST SP 800-38D, section 4 of RFC 4648). */
  ghost predicate Sound(c: Cipher) {
    forall p: string, nonce: nat :: p != "" ==>
      c.encrypt(p, nonce) != "" && c.decrypt(c.encrypt(p, nonce)) == Some(p)
  }

  /** `nonce` is None if no randomness is available. */
  function EncryptString(c: Cipher, p: string, nonce: Option<nat>): Result<string> {
    if p == "" then Ok("") else if nonce.None? then Error else Ok(c.encrypt(p, nonce.value))
  }

  function DecryptString(c: Cipher, s: string): Result<string> {
    if s == "" then Ok("")
    else match c.decrypt(s)
      case None => Error
      case Some(p) => Ok(p)
  }

  lemma EncryptionRoundTrips(c: Cipher, p: string, nonce: Option<nat>)
    requires Sound(c) && EncryptString(c, p, nonce).Ok?
    ensures DecryptString(c, EncryptString(c, p, nonce).value) == Ok(p)
    ensures EncryptString(c, p, nonce).value == "" <==> p == ""
  {
  }

  // ---- The table ---------------------------------------------------------------------------

  /** A row of oauth_tokens; `version` is encryption_version, which may be NULL. */
  datatype Row = Row(access: string, refresh: string, expiry: int, scope: string,
                     version: Option<int>, keyId: Option<string>)

  /** The primary key. */
  datatype Key = Key(provider: string, channel: string)

  type Table = map<Key, Row>

  /** What a reader gets. */
  datatype Token = Token(access: string, refresh: string, expiry: int, scope: string)

  const ZERO_TIME: int := 0
  const NO_TOKEN := Token("", "", ZERO_TIME, "")

  predicate IsPlaintext(r: Row) {
    r.version == Some(0)
  }

  function Decrypted(c: Cipher, r: Row): Result<Token> {
    match (DecryptString(c, r.access), DecryptString(c, r.refresh))
    case (Ok(access), Ok(refresh)) => Ok(Token(access, refresh, r.expiry, r.scope))
    case _ => Error
  }

  /** GetOAuthTokenForChannel in a process with the given encryption, if any. */
  function Get(c: Option<Cipher>, t: Table, k: Key): Result<Token> {
    if k !in t then Ok(NO_TOKEN)
    else
      var r := t[k];
      if r.version.GetOr(0) != 1 then Ok(Token(r.access, r.refresh, r.expiry, r.scope))
      else if c.None? then Error
      else Decrypted(c.value, r)
  }

  /** The two random draws of one write. */
  datatype Nonces = Nonces(access: Option<nat>, refresh: Option<nat>)

  /** UpsertOAuthTokenForChannel; an encryption failure leaves the table alone. */
  function Upsert(c: Option<Cipher>, t: Table, k: Key, token: Token, nonces: Nonces): Result<Table> {
    if c.None? then Ok(t[k := Row(token.access, token.refresh, token.expiry, token.scope, Some(0), Some(""))])
    else match (EncryptString(c.value, token.access, nonces.access),
                EncryptString(c.value, token.refresh, nonces.refresh))
      case (Ok(access), Ok(refresh)) =>
        Ok(t[k := Row(access, refresh, token.expiry, token.scope, Some(1), Some("default"))])
      case _ => Error
  }

  /** migrateToken for a row read earlier: encrypt what was read, store it if the row is still plaintext. */
  function MigrateToken(c: Cipher, t: Table, k: Key, read: Row, nonces: Nonces): Result<Table> {
    match (EncryptString(c, read.access, nonces.access), EncryptString(c, read.refresh, nonces.refresh))
    case (Ok(access), Ok(refresh)) =>
      if k in t && IsPlaintext(t[k])
      then Ok(t[k := t[k].(access := access, refresh := refresh, version := Some(1), keyId := Some("default"))])
      else Error
    case _ => Error
  }

  function AfterMigrateToken(c: Cipher, t: Table, k: Key, read: Row, nonces: Nonces): Table {
    match MigrateToken(c, t, k, read, nonces)
    case Ok(t') => t'
    case Error => t
  }

  // ---- One call ----------------------------------------------------------------------------

  /** A stored token reads back as it was written, and every other one as before. */
  lemma UpsertThenGet(c: Cipher, t: Table, k: Key, token: Token, nonces: Nonces, encrypting: bool, other: Key)
    requires Sound(c)
    requires var e := if encrypting then Some(c) else None;
      Upsert(e, t, k, token, nonces).Ok?
    ensures var e := if encrypting then Some(c) else None;
      Get(Some(c), Upsert(e, t, k, token, nonces).value, other)
      == if other == k then Ok(token) else Get(Some(c), t, other)
  {
    if encrypting {
      EncryptionRoundTrips(c, token.access, nonces.access);
      EncryptionRoundTrips(c, token.refresh, nonces.refresh);
    }
  }

  /** s is what the cipher makes of p; only the empty string stays as it is. */
  ghost predicate Seals(c: Cipher, s: string, p: string) {
    if p == "" then s == "" else exists nonce: nat :: s == c.encrypt(p, nonce)
  }

  /** A row as an encrypting process leaves it. */
  ghost predicate Sealed(c: Cipher, r: Row, access: string, refresh: string) {
    r.version == Some(1) && Seals(c, r.access, access) && Seals(c, r.refresh, refresh)
  }

  lemma SealedDecrypts(c: Cipher, s: string, p: string)
    requires Sound(c) && Seals(c, s, p)
    ensures DecryptString(c, s) == Ok(p)
  {
  }

  /** What is stored: a process with encryption writes only what the cipher has made of the tokens, with version 1,
      and fails if it has no randomness for it; a process without writes them as they are, with version 0. No other
      row changes. */
  lemma UpsertStores(c: Cipher, t: Table, k: Key, token: Token, nonces: Nonces, t': Table)
    ensures Upsert(Some(c), t, k, token, nonces) == Ok(t') ==>
      && t'.Keys == t.Keys + {k} && (forall other <- t | other != k :: t'[other] == t[other])
      && Sealed(c, t'[k], token.access, token.refresh) && t'[k].keyId == Some("default")
      && t'[k].expiry == token.expiry && t'[k].scope == token.scope
    ensures Upsert(Some(c), t, k, token, nonces).Error? <==>
      (token.access != "" && nonces.access.None?) || (token.refresh != "" && nonces.refresh.None?)
    ensures Upsert(None, t, k, token, nonces) ==
      Ok(t[k := Row(token.access, token.refresh, token.expiry, token.scope, Some(0), Some(""))])
  {
    if Upsert(Some(c), t, k, token, nonces) == Ok(t') {
      assert token.access != "" ==> t'[k].access == c.encrypt(token.access, nonces.access.value);
      assert token.refresh != "" ==> t'[k].refresh == c.encrypt(token.refresh, nonces.refresh.value);
    }
  }

  /** A process without encryption reads plaintext rows, and fails on encrypted ones. */
  lemma ReadingWithoutKey(t: Table, k: Key)
    requires k in t
    ensures t[k].version == Some(1) ==> Get(None, t, k).Error?
    ensures t[k].version == Some(0) || t[k].version.None? ==>
      Get(None, t, k) == Ok(Token(t[k].access, t[k].refresh, t[k].expiry, t[k].scope))
  {
  }

  /** Migrating one row leaves every reader's answer as it was, exactly if the row is no longer plaintext or
      still holds the tokens that were read. In the remaining case a write by a process without encryption
      is undone. */
  lemma MigrateTokenIsInvisibleIff(c: Cipher, t: Table, k: Key, read: Row, nonces: Nonces)
    requires Sound(c) && MigrateToken(c, t, k, read, nonces).Ok?
    ensures var t' := MigrateToken(c, t, k, read, nonces).value;
      && t'.Keys == t.Keys
      && (forall other <- t | other != k :: t'[other] == t[other])
      && Sealed(c, t'[k], read.access, read.refresh)
      && Get(Some(c), t', k) == Ok(Token(read.access, read.refresh, t[k].expiry, t[k].scope))
      && (Get(Some(c), t', k) == Get(Some(c), t, k) <==> t[k].access == read.access && t[k].refresh == read.refresh)
  {
    EncryptionRoundTrips(c, read.access, nonces.access);
    EncryptionRoundTrips(c, read.refresh, nonces.refresh);
  }

  /** A row at version 1, or at any version but 0, is never overwritten. */
  lemma EncryptedRowsStay(c: Cipher, t: Table, k: Key, read: Row, nonces: Nonces, other: Key)
    requires other in t && !IsPlaintext(t[other])
    ensures other in AfterMigrateToken(c, t, k, read, nonces)
    ensures AfterMigrateToken(c, t, k, read, nonces)[other] == t[other]
  {
  }

  // ---- The migration with writers in between -----------------------------------------------

  /** What happens after the migration has read its rows: it migrates one of them, or some process stores a
      token, with encryption or without. */
  datatype Step =
    | Migrate(key: Key, nonces: Nonces)
    | Store(key: Key, token: Token, nonces: Nonces, encrypting: bool)

  /** The rows that the migration read: the plaintext ones of one channel, or of all. */
  function Snapshot(t: Table, channel: string): Table {
    map k <- t | IsPlaintext(t[k]) && (channel == "" || k.channel == channel) :: t[k]
  }

  function Writer(c: Cipher, encrypting: bool): Option<Cipher> {
    if encrypting then Some(c) else None
  }

  function AfterUpsert(c: Option<Cipher>, t: Table, k: Key, token: Token, nonces: Nonces): Table {
    match Upsert(c, t, k, token, nonces)
    case Ok(t') => t'
    case Error => t
  }

  function Apply(c: Cipher, read: Table, t: Table, step: Step): Table {
    match step
    case Migrate(k, nonces) => if k in read then AfterMigrateToken(c, t, k, read[k], nonces) else t
    case Store(k, token, nonces, encrypting) => AfterUpsert(Writer(c, encrypting), t, k, token, nonces)
  }

  function Run(c: Cipher, read: Table, t: Table, steps: seq<Step>): Table {
    if steps == [] then t
    else Apply(c, read, Run(c, read, t, steps[..|steps| - 1]), steps[|steps| - 1])
  }

  /** The random draws suffice to encrypt these tokens. */
  predicate Suffice(access: string, refresh: string, nonces: Nonces) {
    (access == "" || nonces.access.Some?) && (refresh == "" || nonces.refresh.Some?)
  }

  predicate Stores(step: Step) {
    step.Store? && (step.encrypting ==> Suffice(step.token.access, step.token.refresh, step.nonces))
  }

  /** The reference: a plain map from keys to tokens. Migration steps do nothing to it. */
  type Plain = map<Key, Token>

  function ApplyPlain(p: Plain, step: Step): Plain {
    if Stores(step) then p[step.key := step.token] else p
  }

  function RunPlain(p: Plain, steps: seq<Step>): Plain {
    if steps == [] then p else ApplyPlain(RunPlain(p, steps[..|steps| - 1]), steps[|steps| - 1])
  }

  /** Reading the table gives the plain map. */
  ghost predicate Represents(c: Cipher, t: Table, p: Plain) {
    t.Keys == p.Keys && forall k <- t :: Get(Some(c), t, k) == Ok(p[k])
  }

  // ---- When a write is undone --------------------------------------------------------------

  /** What the steps so far have last written under a key, and whether it was encrypted. */
  datatype Last = Nothing | Plaintext(access: string, refresh: string) | Ciphertext(access: string, refresh: string)

  predicate Migrates(read: Table, step: Step) {
    step.Migrate? && step.key in read && Suffice(read[step.key].access, read[step.key].refresh, step.nonces)
  }

  /** A row that is encrypted already is not migrated again. */
  function LastWrite(read: Table, steps: seq<Step>, k: Key): Last {
    if steps == [] then Nothing
    else
      var step, last := steps[|steps| - 1], LastWrite(read, steps[..|steps| - 1], k);
      if step.key != k then last
      else if Stores(step) && step.encrypting then Ciphertext(step.token.access, step.token.refresh)
      else if Stores(step) then Plaintext(step.token.access, step.token.refresh)
      else if Migrates(read, step) && !last.Ciphertext? then Ciphertext(read[k].access, read[k].refresh)
      else last
  }

  /** The migration takes a row on whose tokens a process without encryption has changed since they were read,
      with nothing encrypted there in between. */
  predicate Undoes(read: Table, before: seq<Step>, step: Step) {
    && Migrates(read, step)
    && LastWrite(read, before, step.key).Plaintext?
    && LastWrite(read, before, step.key) != Plaintext(read[step.key].access, read[step.key].refresh)
  }

  /** A row is as its last write left it; `start` is the table that the migration has read from. */
  ghost predicate RowFits(c: Cipher, start: Table, t: Table, k: Key, last: Last) {
    match last
    case Nothing => (k in t <==> k in start) && (k in t ==> t[k] == start[k])
    case Plaintext(access, refresh) => k in t && IsPlaintext(t[k]) && t[k].access == access && t[k].refresh == refresh
    case Ciphertext(access, refresh) => k in t && Sealed(c, t[k], access, refresh)
  }

  lemma MigrateSeals(c: Cipher, t: Table, k: Key, read: Row, nonces: Nonces)
    requires k in t && IsPlaintext(t[k]) && Suffice(read.access, read.refresh, nonces)
    ensures k in AfterMigrateToken(c, t, k, read, nonces)
    ensures Sealed(c, AfterMigrateToken(c, t, k, read, nonces)[k], read.access, read.refresh)
  {
    var r := AfterMigrateToken(c, t, k, read, nonces)[k];
    assert read.access != "" ==> r.access == c.encrypt(read.access, nonces.access.value);
    assert read.refresh != "" ==> r.refresh == c.encrypt(read.refresh, nonces.refresh.value);
  }

  lemma MigrateFits(c: Cipher, start: Table, channel: string, t: Table, step: Step, last: Last)
    requires step.Migrate? && RowFits(c, start, t, step.key, last)
    ensures var read := Snapshot(start, channel);
      RowFits(c, start, Apply(c, read, t, step), step.key,
              if Migrates(read, step) && !last.Ciphertext?
              then Ciphertext(read[step.key].access, read[step.key].refresh) else last)
  {
    var read, k := Snapshot(start, channel), step.key;
    if Migrates(read, step) && !last.Ciphertext? {
      MigrateSeals(c, t, k, read[k], step.nonces);
    }
  }

  lemma StoreFits(c: Cipher, read: Table, start: Table, t: Table, step: Step, last: Last)
    requires step.Store? && RowFits(c, start, t, step.key, last)
    ensures RowFits(c, start, Apply(c, read, t, step), step.key,
                    if !Stores(step) then last
                    else if step.encrypting then Ciphertext(step.token.access, step.token.refresh)
                    else Plaintext(step.token.access, step.token.refresh))
  {
    if Stores(step) && step.encrypting {
      UpsertStores(c, t, step.key, step.token, step.nonces, Apply(c, read, t, step));
    }
  }

  lemma StepFits(c: Cipher, start: Table, channel: string, t: Table, before: seq<Step>, step: Step, k: Key)
    requires RowFits(c, start, t, k, LastWrite(Snapshot(start, channel), before, k))
    ensures var read := Snapshot(start, channel);
      RowFits(c, start, Apply(c, read, t, step), k, LastWrite(read, before + [step], k))
  {
    assert (before + [step])[..|before|] == before;
    var read := Snapshot(start, channel);
    if step.key == k {
      match step
      case Migrate(_, _) => MigrateFits(c, start, channel, t, step, LastWrite(read, before, k));
      case Store(_, _, _, _) => StoreFits(c, read, start, t, step, LastWrite(read, before, k));
    }
  }

  lemma {:induction false} RunFits(c: Cipher, start: Table, channel: string, steps: seq<Step>, k: Key)
    ensures var read := Snapshot(start, channel);
      RowFits(c, start, Run(c, read, start, steps), k, LastWrite(read, steps, k))
  {
    if steps != [] {
      var front := steps[..|steps| - 1];
      RunFits(c, start, channel, front, k);
      StepFits(c, start, channel, Run(c, Snapshot(start, channel), start, front), front, steps[|steps| - 1], k);
      assert front + [steps[|steps| - 1]] == steps;
    }
  }

  /** Tokens are encrypted at rest: after any interleaving of the migration with writers of both kinds, a row that
      was last written by an encrypting process, or by its migration, is at version 1, holds only what the cipher
      has made of its tokens, and decrypts to them. */
  lemma EncryptedAtRest(c: Cipher, start: Table, channel: string, steps: seq<Step>, k: Key, last: Last)
    requires Sound(c) && last == LastWrite(Snapshot(start, channel), steps, k) && last.Ciphertext?
    ensures var t := Run(c, Snapshot(start, channel), start, steps);
      && k in t && Sealed(c, t[k], last.access, last.refresh)
      && DecryptString(c, t[k].access) == Ok(last.access) && DecryptString(c, t[k].refresh) == Ok(last.refresh)
  {
    RunFits(c, start, channel, steps, k);
    var t := Run(c, Snapshot(start, channel), start, steps);
    SealedDecrypts(c, t[k].access, last.access);
    SealedDecrypts(c, t[k].refresh, last.refresh);
  }

  lemma StoreRepresents(c: Cipher, t: Table, p: Plain, k: Key, token: Token, nonces: Nonces, encrypting: bool)
    requires Sound(c) && Represents(c, t, p)
    ensures Represents(c, AfterUpsert(Writer(c, encrypting), t, k, token, nonces),
                       ApplyPlain(p, Store(k, token, nonces, encrypting)))
  {
    if Stores(Store(k, token, nonces, encrypting)) {
      var t' := AfterUpsert(Writer(c, encrypting), t, k, token, nonces);
      forall other <- t' ensures Get(Some(c), t', other) == if other == k then Ok(token) else Get(Some(c), t, other) {
        UpsertThenGet(c, t, k, token, nonces, encrypting, other);
      }
    }
  }

  lemma MigrateRepresentsIff(c: Cipher, read: Table, t: Table, p: Plain, k: Key, nonces: Nonces, last: Last)
    requires Sound(c) && Represents(c, t, p) && k in read && IsPlaintext(read[k]) && RowFits(c, read, t, k, last)
    requires Migrates(read, Migrate(k, nonces))
    ensures Represents(c, AfterMigrateToken(c, t, k, read[k], nonces), p) <==>
      !(last.Plaintext? && last != Plaintext(read[k].access, read[k].refresh))
  {
    if IsPlaintext(t[k]) {
      MigrateTokenIsInvisibleIff(c, t, k, read[k], nonces);
    }
  }

  lemma StepRepresentsIff(c: Cipher, read: Table, t: Table, p: Plain, before: seq<Step>, step: Step)
    requires Sound(c) && Represents(c, t, p)
    requires forall k <- read :: IsPlaintext(read[k]) && RowFits(c, read, t, k, LastWrite(read, before, k))
    ensures Represents(c, Apply(c, read, t, step), ApplyPlain(p, step)) <==> !Undoes(read, before, step)
  {
    match step
    case Migrate(k, nonces) =>
      if Migrates(read, step) {
        MigrateRepresentsIff(c, read, t, p, k, nonces, LastWrite(read, before, k));
      }
    case Store(k, token, nonces, encrypting) => StoreRepresents(c, t, p, k, token, nonces, encrypting);
  }

  /** Readers get the plain map after these steps, and at every point before. */
  ghost predicate AlwaysRepresents(c: Cipher, read: Table, t: Table, p: Plain, steps: seq<Step>) {
    && (steps != [] ==> AlwaysRepresents(c, read, t, p, steps[..|steps| - 1]))
    && Represents(c, Run(c, read, t, steps), RunPlain(p, steps))
  }

  ghost predicate NeverUndoes(read: Table, steps: seq<Step>) {
    steps != [] ==>
      (NeverUndoes(read, steps[..|steps| - 1]) && !Undoes(read, steps[..|steps| - 1], steps[|steps| - 1]))
  }

  /** Migration refines doing nothing: at every point of an interleaving of its updates with writers of both
      kinds, readers get what a plain map that only saw the writes would give, if and only if it never takes on
      a row whose tokens a process without encryption has changed since they were read. */
  lemma {:induction false} MigrationIsInvisibleIff(c: Cipher, channel: string, t: Table, p: Plain, steps: seq<Step>)
    requires Sound(c) && Represents(c, t, p)
    ensures AlwaysRepresents(c, Snapshot(t, channel), t, p, steps) <==> NeverUndoes(Snapshot(t, channel), steps)
  {
    if steps != [] {
      var read, front := Snapshot(t, channel), steps[..|steps| - 1];
      MigrationIsInvisibleIff(c, channel, t, p, front);
      if AlwaysRepresents(c, read, t, p, front) {
        forall k <- read
          ensures IsPlaintext(read[k]) && RowFits(c, read, Run(c, read, t, front), k, LastWrite(read, front, k))
        {
          RunFits(c, t, channel, front, k);
        }
        StepRepresentsIff(c, read, Run(c, read, t, front), RunPlain(p, front), front, steps[|steps| - 1]);
      }
    }
  }

  lemma {:induction false} NoPlaintextWritten(read: Table, steps: seq<Step>, k: Key)
    requires forall i | 0 <= i < |steps| && steps[i].Store? :: steps[i].encrypting
    ensures !LastWrite(read, steps, k).Plaintext?
  {
    if steps != [] {
      NoPlaintextWritten(read, steps[..|steps| - 1], k);
    }
  }

  lemma {:induction false} EncryptingWritersAreNotUndone(read: Table, steps: seq<Step>)
    requires forall i | 0 <= i < |steps| && steps[i].Store? :: steps[i].encrypting
    ensures NeverUndoes(read, steps)
  {
    if steps != [] {
      var front, step := steps[..|steps| - 1], steps[|steps| - 1];
      EncryptingWritersAreNotUndone(read, front);
      NoPlaintextWritten(read, front, step.key);
    }
  }

  /** In particular if every other writer encrypts. */
  lemma MigrationIsInvisible(c: Cipher, channel: string, t: Table, p: Plain, steps: seq<Step>)
    requires Sound(c) && Represents(c, t, p)
    requires forall i | 0 <= i < |steps| && steps[i].Store? :: steps[i].encrypting
    ensures AlwaysRepresents(c, Snapshot(t, channel), t, p, steps)
  {
    EncryptingWritersAreNotUndone(Snapshot(t, channel), steps);
    MigrationIsInvisibleIff(c, channel, t, p, steps);
  }

  /** A process without encryption refreshes a token after the migration has read it; then the migration puts
      the old one back. */
  lemma RefreshIsUndone(c: Cipher, k: Key, nonces: Nonces)
    requires Sound(c) && Suffice("old", "", nonces)
    ensures var t := map[k := Row("old", "", 1, "", Some(0), Some(""))];
      var steps := [Store(k, Token("new", "", 2, ""), nonces, false), Migrate(k, nonces)];
      && Get(Some(c), Run(c, Snapshot(t, ""), t, steps[..1]), k) == Ok(Token("new", "", 2, ""))
      && Get(Some(c), Run(c, Snapshot(t, ""), t, steps), k) == Ok(Token("old", "", 2, ""))
  {
    var t := map[k := Row("old", "", 1, "", Some(0), Some(""))];
    var read := Snapshot(t, "");
    var steps := [Store(k, Token("new", "", 2, ""), nonces, false), Migrate(k, nonces)];
    assert read == t;
    assert steps[..1][..0] == [] && steps[..1] == [steps[0]];
    var t1 := Run(c, read, t, steps[..1]);
    assert t1[k] == Row("new", "", 2, "", Some(0), Some(""));
    MigrateTokenIsInvisibleIff(c, t1, k, read[k], nonces);
  }

  // ---- The tool ----------------------------------------------------------------------------

  /** Whether the random draws for a key suffice. */
  predicate CanEncrypt(r: Row, nonces: Nonces) {
    Suffice(r.access, r.refresh, nonces)
  }

  /** The table after the tool has worked through `done`. */
  function Migrated(c: Cipher, t: Table, draw: Key -> Nonces, done: set<Key>): Table {
    map k <- t :: if k in done && CanEncrypt(t[k], draw(k)) then Encrypted(c, t[k], draw(k)) else t[k]
  }

  function Encrypted(c: Cipher, r: Row, nonces: Nonces): Row {
    r.(access := if r.access == "" then "" else c.encrypt(r.access, nonces.access.GetOr(0)),
       refresh := if r.refresh == "" then "" else c.encrypt(r.refresh, nonces.refresh.GetOr(0)),
       version := Some(1), keyId := Some("default"))
  }

  lemma MigrateOneMore(c: Cipher, t: Table, draw: Key -> Nonces, done: set<Key>, k: Key)
    requires k in t && IsPlaintext(t[k]) && k !in done
    ensures CanEncrypt(t[k], draw(k)) ==>
      MigrateToken(c, Migrated(c, t, draw, done), k, t[k], draw(k)) == Ok(Migrated(c, t, draw, done + {k}))
    ensures !CanEncrypt(t[k], draw(k)) ==>
      MigrateToken(c, Migrated(c, t, draw, done), k, t[k], draw(k)) == Error
      && Migrated(c, t, draw, done + {k}) == Migrated(c, t, draw, done)
  {
    if CanEncrypt(t[k], draw(k)) {
      assert Migrated(c, t, draw, done + {k}) == Migrated(c, t, draw, done)[k := Encrypted(c, t[k], draw(k))];
    }
  }

  /** The table after the tool has tried the first n of the rows it found, and how many of them failed. */
  function After(c: Cipher, read: Table, draw: Key -> Nonces, ks: seq<Key>, n: nat): Table {
    if n == 0 || n > |ks| || ks[n - 1] !in read then read
    else AfterMigrateToken(c, After(c, read, draw, ks, n - 1), ks[n - 1], read[ks[n - 1]], draw(ks[n - 1]))
  }

  function Failures(c: Cipher, read: Table, draw: Key -> Nonces, ks: seq<Key>, n: nat): nat {
    if n == 0 || n > |ks| || ks[n - 1] !in read then 0
    else Failures(c, read, draw, ks, n - 1)
         + if MigrateToken(c, After(c, read, draw, ks, n - 1), ks[n - 1], read[ks[n - 1]], draw(ks[n - 1])).Ok?
           then 0 else 1
  }

  function FirstKeys(ks: seq<Key>, n: nat): set<Key> {
    if n == 0 || n > |ks| then {} else FirstKeys(ks, n - 1) + {ks[n - 1]}
  }

  predicate AllEncrypt(t: Table, draw: Key -> Nonces, ks: seq<Key>, n: nat) {
    n == 0 || n > |ks|
    || (AllEncrypt(t, draw, ks, n - 1) && ks[n - 1] in t && CanEncrypt(t[ks[n - 1]], draw(ks[n - 1])))
  }

  lemma {:induction false} FirstKeysAre(t: Table, draw: Key -> Nonces, ks: seq<Key>, n: nat, k: Key)
    requires n <= |ks|
    ensures k in FirstKeys(ks, n) <==> exists i :: 0 <= i < n && ks[i] == k
    ensures AllEncrypt(t, draw, ks, n) <==> forall i | 0 <= i < n :: ks[i] in t && CanEncrypt(t[ks[i]], draw(ks[i]))
  {
    if n > 0 {
      FirstKeysAre(t, draw, ks, n - 1, k);
      assert ks[n - 1] == k || k in FirstKeys(ks, n - 1) || k !in FirstKeys(ks, n);
    }
  }

  /** Trying the rows one by one migrates exactly those that can be encrypted. */
  lemma {:induction false} AfterIsMigrated(c: Cipher, read: Table, draw: Key -> Nonces, ks: seq<Key>, n: nat)
    requires n <= |ks| && Distinct(ks) && forall i | 0 <= i < |ks| :: ToMigrate(read, ks[i])
    ensures After(c, read, draw, ks, n) == Migrated(c, read, draw, FirstKeys(ks, n))
    ensures Failures(c, read, draw, ks, n) == 0 <==> AllEncrypt(read, draw, ks, n)
  {
    if n == 0 {
      assert Migrated(c, read, draw, {}) == read;
    } else {
      AfterIsMigrated(c, read, draw, ks, n - 1);
      assert ToMigrate(read, ks[n - 1]);
      FirstKeysAre(read, draw, ks, n - 1, ks[n - 1]);
      MigrateOneMore(c, read, draw, FirstKeys(ks, n - 1), ks[n - 1]);
    }
  }

  ghost predicate Distinct(ks: seq<Key>) {
    forall i, j | 0 <= i < j < |ks| :: ks[i] != ks[j]
  }

  predicate ToMigrate(t: Table, k: Key) {
    k in t && IsPlaintext(t[k])
  }

  class Tool {
    var table: Table

    /** A run of the tool with no other writer; `tokens` is the answer of its query. It reports success exactly
        if every row it found is now encrypted. */
    method MigrateTokens(c: Cipher, dryRun: bool, channel: string, tokens: seq<Key>, draw: Key -> Nonces)
      returns (ok: bool, migrated: nat, failed: nat)
      requires forall k :: k in tokens <==> k in Snapshot(table, channel)
      requires Distinct(tokens)
      modifies this
      ensures dryRun ==> table == old(table) && ok
      ensures !dryRun ==> table == Migrated(c, old(table), draw, Snapshot(old(table), channel).Keys)
      ensures migrated + failed == |tokens| && (ok <==> failed == 0)
      ensures !dryRun ==> (ok <==> forall k <- tokens :: CanEncrypt(old(table)[k], draw(k)))
    {
      var read := table;
      forall i | 0 <= i < |tokens| ensures ToMigrate(read, tokens[i]) {
        assert tokens[i] in Snapshot(read, channel);
      }
      migrated, failed := MigrateAll(c, dryRun, tokens, draw);
      AllTried(c, read, channel, draw, tokens);
      return failed == 0, migrated, failed;
    }

    /** The body of the loop. */
    method MigrateOne(c: Cipher, dryRun: bool, k: Key, row: Row, nonces: Nonces) returns (ok: bool)
      modifies this
      ensures dryRun ==> ok && table == old(table)
      ensures !dryRun ==> ok == MigrateToken(c, old(table), k, row, nonces).Ok?
      ensures !dryRun ==> table == AfterMigrateToken(c, old(table), k, row, nonces)
    {
      if dryRun {
        return true;
      }
      var r := MigrateToken(c, table, k, row, nonces);
      if r.Ok? {
        table := r.value;
      }
      return r.Ok?;
    }

    /** The loop over the rows found. */
    method MigrateAll(c: Cipher, dryRun: bool, tokens: seq<Key>, draw: Key -> Nonces)
      returns (migrated: nat, failed: nat)
      requires forall i | 0 <= i < |tokens| :: ToMigrate(table, tokens[i])
      modifies this
      ensures if dryRun then table == old(table) && failed == 0
              else table == After(c, old(table), draw, tokens, |tokens|)
                   && failed == Failures(c, old(table), draw, tokens, |tokens|)
      ensures migrated + failed == |tokens|
    {
      migrated, failed := 0, 0;
      var read := table;
      for i := 0 to |tokens|
        invariant migrated + failed == i
        invariant if dryRun then table == read && failed == 0
                  else table == After(c, read, draw, tokens, i) && failed == Failures(c, read, draw, tokens, i)
      {
        assert ToMigrate(read, tokens[i]);
        var ok := MigrateOne(c, dryRun, tokens[i], read[tokens[i]], draw(tokens[i]));
        if ok {
          migrated := migrated + 1;
        } else {
          failed := failed + 1;
        }
      }
    }
  }

  lemma AllTried(c: Cipher, t: Table, channel: string, draw: Key -> Nonces, ks: seq<Key>)
    requires Distinct(ks) && forall k :: k in ks <==> k in Snapshot(t, channel)
    ensures After(c, t, draw, ks, |ks|) == Migrated(c, t, draw, Snapshot(t, channel).Keys)
    ensures Failures(c, t, draw, ks, |ks|) == 0 <==> forall k <- ks :: k in t && CanEncrypt(t[k], draw(k))
  {
    forall i | 0 <= i < |ks| ensures ToMigrate(t, ks[i]) {
      assert ks[i] in Snapshot(t, channel);
    }
    AfterIsMigrated(c, t, draw, ks, |ks|);
    forall k ensures k in FirstKeys(ks, |ks|) <==> k in Snapshot(t, channel) {
      FirstKeysAre(t, draw, ks, |ks|, k);
    }
    assert FirstKeys(ks, |ks|) == Snapshot(t, channel).Keys;
    FirstKeysAre(t, draw, ks, |ks|, Key("", ""));
  }

  predicate Chosen(k: Key, channel: string) {
    channel == "" || k.channel == channel
  }

  /** After a run in which every encryption succeeded, readers get what they got before, another run finds nothing
      to do, and of the chosen rows only those are not encrypted that were not at version 0 either: rows whose
      version is NULL, which read as plaintext and are never migrated. */
  lemma ToolIsIdempotent(c: Cipher, channel: string, t: Table, draw: Key -> Nonces)
    requires Sound(c)
    requires forall k <- Snapshot(t, channel) :: CanEncrypt(t[k], draw(k))
    ensures var t' := Migrated(c, t, draw, Snapshot(t, channel).Keys);
      && t'.Keys == t.Keys
      && (forall k :: Get(Some(c), t', k) == Get(Some(c), t, k))
      && (forall k <- Snapshot(t, channel) :: Sealed(c, t'[k], t[k].access, t[k].refresh))
      && Snapshot(t', channel) == map[]
      && Migrated(c, t', draw, Snapshot(t', channel).Keys) == t'
      && (forall k <- t | Chosen(k, channel) ::
            t'[k].version != Some(1) <==> t[k].version != Some(0) && t[k].version != Some(1))
  {
    var done := Snapshot(t, channel).Keys;
    forall k ensures Get(Some(c), Migrated(c, t, draw, done), k) == Get(Some(c), t, k) {
      MigratedReadsTheSame(c, t, draw, done, k);
    }
    MigratedVersions(c, t, draw, done);
    forall k <- Snapshot(t, channel) ensures Sealed(c, Migrated(c, t, draw, done)[k], t[k].access, t[k].refresh) {
      EncryptedIsSealed(c, t[k], draw(k));
    }
    assert Snapshot(Migrated(c, t, draw, done), channel) == map[];
  }

  lemma EncryptedIsSealed(c: Cipher, r: Row, nonces: Nonces)
    ensures Sealed(c, Encrypted(c, r, nonces), r.access, r.refresh)
  {
    assert r.access != "" ==> Encrypted(c, r, nonces).access == c.encrypt(r.access, nonces.access.GetOr(0));
    assert r.refresh != "" ==> Encrypted(c, r, nonces).refresh == c.encrypt(r.refresh, nonces.refresh.GetOr(0));
  }

  lemma MigratedVersions(c: Cipher, t: Table, draw: Key -> Nonces, done: set<Key>)
    ensures var t' := Migrated(c, t, draw, done);
      && t'.Keys == t.Keys
      && (forall k <- t :: if k in done && CanEncrypt(t[k], draw(k)) then t'[k].version == Some(1) else t'[k] == t[k])
  {
  }

  lemma MigratedReadsTheSame(c: Cipher, t: Table, draw: Key -> Nonces, done: set<Key>, k: Key)
    requires Sound(c) && (k in t && k in done ==> IsPlaintext(t[k]))
    ensures Get(Some(c), Migrated(c, t, draw, done), k) == Get(Some(c), t, k)
  {
    if k in t && k in done && CanEncrypt(t[k], draw(k)) {
      EncryptionRoundTrips(c, t[k].access, draw(k).access);
      EncryptionRoundTrips(c, t[k].refresh, draw(k).refresh);
    }
  }
}
