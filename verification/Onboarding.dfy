/** Client registration and the seeding of the chart of accounts that the journal's foreign keys need. */
module Onboarding {
  import opened Base
  import opened Domain
  import opened Ledger
  import opened Tables
  import opened Steps
  import opened Store

  // What a client registers with.
  datatype Registration = Registration(
    externalId: string,
    name: string,
    shortcode: string,
    consumerKey: string,
    consumerSecret: string,
    passkey: string,
    initiator: string,
    security: string)

  // Which field is being encrypted.
  datatype Field = ConsumerKey | ConsumerSecret | Passkey | SecurityCredential

  // How the calls of one registration turn out; `encrypt` is asked once per field and `account` once
  // per default account.
  datatype Faults = Faults(lookup: bool, client: bool, encrypt: Field -> bool, credentials: bool, account: nat -> bool)

  // The Validate method of a registration.
  predicate ValidRegistration(r: Registration) {
    && r.externalId != "" && r.name != "" && r.shortcode != ""
    && r.consumerKey != "" && r.consumerSecret != "" && r.passkey != ""
  }

  // The columns a registration is stored as: the optional ones only when given.
  function Encrypted(r: Registration): Credentials {
    Credentials(r.shortcode, Sealed(r.consumerKey), Sealed(r.consumerSecret), Sealed(r.passkey),
                NonEmpty(r.initiator), if r.security == "" then None else Some(Sealed(r.security)))
  }

  // Every field that has to be encrypted was.
  predicate Encrypts(r: Registration, f: Faults) {
    && f.encrypt(ConsumerKey) && f.encrypt(ConsumerSecret) && f.encrypt(Passkey)
    && (r.security != "" ==> f.encrypt(SecurityCredential))
  }

  method Encrypt(plain: string, ok: bool) returns (c: Option<Cipher>)
    ensures c.Some? == ok
    ensures c.Some? ==> Decrypt(c.value) == Some(plain)
    ensures c.Some? ==> c.value == Sealed(plain)
  {
    if ok { c := Some(Sealed(plain)); } else { c := None; }
  }

  // The accounts whose inserts succeeded; an error is logged and the loop goes on.
  function SeededAccounts(client: string, n: nat, ok: nat -> bool): set<(string, string)>
    requires n <= |DEFAULT_ACCOUNTS|
  {
    set i | 0 <= i < n && ok(i) :: (client, DEFAULT_ACCOUNTS[i])
  }

  ghost predicate ClientsExist(db: Db) {
    forall a :: a in db.accounts ==> a.0 in db.clients
  }

  // PRIMARY KEY and UNIQUE(external_id) admit the client row.
  predicate CanCreate(db: Db, id: string, externalId: string, f: Faults) {
    f.client && id !in db.clients && externalId !in db.clients.Values
  }

  // The operator registers with nothing but its id.
  function Operator(externalId: string): Registration {
    Registration(externalId, "", "", "", "", "", "", "")
  }

  // Each stored secret decrypts to the field it was given as.
  ghost predicate OpensTo(c: Credentials, r: Registration) {
    && c.shortcode == r.shortcode
    && Decrypt(c.consumerKey) == Some(r.consumerKey)
    && Decrypt(c.consumerSecret) == Some(r.consumerSecret)
    && Decrypt(c.passkey) == Some(r.passkey)
    && c.initiator == (if r.initiator == "" then None else Some(r.initiator))
    && (if r.security == "" then c.security == None
        else c.security.Some? && Decrypt(c.security.value) == Some(r.security))
  }

  class ClientService {
    const db: ConsumerDb

    constructor (db: ConsumerDb)
      ensures this.db == db
    {
      this.db := db;
    }

    method CreateClient(id: string, externalId: string, ok: bool) returns (done: bool)
      modifies db`clients
      ensures done == (ok && id !in old(db.clients) && externalId !in old(db.clients).Values)
      ensures db.clients == if done then old(db.clients)[id := externalId] else old(db.clients)
    {
      done := ok && id !in db.clients && externalId !in db.clients.Values;
      if done { db.clients := db.clients[id := externalId]; }
    }

    // One active row per client.
    method CreateCredentials(client: string, c: Credentials, ok: bool) returns (done: bool)
      modifies db`credentials
      ensures done == (ok && client in db.clients && client !in old(db.credentials))
      ensures db.credentials == if done then old(db.credentials)[client := c] else old(db.credentials)
    {
      done := ok && client in db.clients && client !in db.credentials;
      if done { db.credentials := db.credentials[client := c]; }
    }

    // PRIMARY KEY (client_id, id), REFERENCES clients.
    method CreateJournalAccount(client: string, account: string, ok: bool) returns (done: bool)
      modifies db`accounts
      ensures done == (ok && client in db.clients && (client, account) !in old(db.accounts))
      ensures db.accounts == if done then old(db.accounts) + {(client, account)} else old(db.accounts)
    {
      done := ok && client in db.clients && (client, account) !in db.accounts;
      if done { db.accounts := db.accounts + {(client, account)}; }
    }

    method SeedAccounts(client: string, ok: nat -> bool)
      requires client in db.clients
      modifies db`accounts
      ensures db.accounts == old(db.accounts) + SeededAccounts(client, |DEFAULT_ACCOUNTS|, ok)
      ensures forall k :: 0 <= k < |DEFAULT_ACCOUNTS| && ok(k) ==> (client, DEFAULT_ACCOUNTS[k]) in db.accounts
      ensures forall a :: a in db.accounts && a !in old(db.accounts) ==> a.0 == client && a.1 in DEFAULT_ACCOUNTS
    {
      for i := 0 to |DEFAULT_ACCOUNTS|
        invariant db.accounts == old(db.accounts) + SeededAccounts(client, i, ok)
      {
        var _ := CreateJournalAccount(client, DEFAULT_ACCOUNTS[i], ok(i));
        assert SeededAccounts(client, i + 1, ok)
               == SeededAccounts(client, i, ok) + (if ok(i) then {(client, DEFAULT_ACCOUNTS[i])} else {});
      }
    }

    // From the client row on, the common part of both registrations: the row, the encryptions, the
    // credentials, the accounts. A failure after the client row leaves that row behind; failed
    // accounts are only logged.
    method Enrol(id: string, r: Registration, f: Faults) returns (done: bool)
      requires ClientsExist(db.Tables())
      modifies db`clients, db`credentials, db`accounts
      ensures ClientsExist(db.Tables())
      ensures done == (CanCreate(old(db.Tables()), id, r.externalId, f) && Encrypts(r, f) && f.credentials && id !in old(db.credentials))
      ensures db.clients == if CanCreate(old(db.Tables()), id, r.externalId, f) then old(db.clients)[id := r.externalId] else old(db.clients)
      ensures db.credentials == if done then old(db.credentials)[id := Encrypted(r)] else old(db.credentials)
      ensures db.accounts == old(db.accounts) + if done then SeededAccounts(id, |DEFAULT_ACCOUNTS|, f.account) else {}
      ensures done ==> (Seeded(db.Tables(), id) <==> forall i :: 0 <= i < |DEFAULT_ACCOUNTS| ==> f.account(i))
    {
      var created := CreateClient(id, r.externalId, f.client);
      if !created { return false; }
      var ck := Encrypt(r.consumerKey, f.encrypt(ConsumerKey));
      if ck.None? { return false; }
      var cs := Encrypt(r.consumerSecret, f.encrypt(ConsumerSecret));
      if cs.None? { return false; }
      var pk := Encrypt(r.passkey, f.encrypt(Passkey));
      if pk.None? { return false; }
      var sc: Option<Cipher> := None;
      if r.security != "" {
        sc := Encrypt(r.security, f.encrypt(SecurityCredential));
        if sc.None? { return false; }
      }
      var initiator: Option<string> := None;
      if r.initiator != "" { initiator := Some(r.initiator); }
      var stored := CreateCredentials(id, Credentials(r.shortcode, ck.value, cs.value, pk.value, initiator, sc), f.credentials);
      if !stored { return false; }
      ghost var before := db.accounts;
      SeedAccounts(id, f.account);
      SeededIffAllInserted(before, id, f.account);
      done := true;
    }

    // RegisterClient: the field checks, then the rest.
    method RegisterClient(id: string, r: Registration, f: Faults) returns (done: bool)
      requires ClientsExist(db.Tables())
      modifies db`clients, db`credentials, db`accounts
      ensures ClientsExist(db.Tables())
      ensures !ValidRegistration(r) ==> !done && db.Tables() == old(db.Tables())
      ensures ValidRegistration(r) ==>
                && done == (CanCreate(old(db.Tables()), id, r.externalId, f) && Encrypts(r, f) && f.credentials && id !in old(db.credentials))
                && db.clients == (if CanCreate(old(db.Tables()), id, r.externalId, f) then old(db.clients)[id := r.externalId] else old(db.clients))
                && db.credentials == (if done then old(db.credentials)[id := Encrypted(r)] else old(db.credentials))
                && db.accounts == old(db.accounts) + (if done then SeededAccounts(id, |DEFAULT_ACCOUNTS|, f.account) else {})
      ensures done <==>
                && r.externalId != "" && r.name != "" && r.shortcode != ""
                && r.consumerKey != "" && r.consumerSecret != "" && r.passkey != ""
                && f.client && id !in old(db.clients) && r.externalId !in old(db.clients).Values
                && f.encrypt(ConsumerKey) && f.encrypt(ConsumerSecret) && f.encrypt(Passkey)
                && (r.security == "" || f.encrypt(SecurityCredential))
                && f.credentials && id !in old(db.credentials)
      ensures done ==>
                && id in db.clients && db.clients[id] == r.externalId && id in db.credentials
                && OpensTo(db.credentials[id], r)
      ensures done ==> CanQuery(db.Tables(), id)
      ensures done ==> (Seeded(db.Tables(), id) <==> forall i :: 0 <= i < |DEFAULT_ACCOUNTS| ==> f.account(i))
    {
      if r.externalId == "" { return false; }
      if r.name == "" { return false; }
      if r.shortcode == "" { return false; }
      if r.consumerKey == "" { return false; }
      if r.consumerSecret == "" { return false; }
      if r.passkey == "" { return false; }
      done := Enrol(id, r, f);
    }

    // EnsureOperatorClient: an existing client is returned as it is, however much of its chart of
    // accounts is missing; a new one gets credentials over encrypted empty strings and is seeded.
    method EnsureOperatorClient(id: string, externalId: string, f: Faults) returns (done: bool)
      requires ClientsExist(db.Tables())
      modifies db`clients, db`credentials, db`accounts
      ensures ClientsExist(db.Tables())
      ensures externalId == "" ==> !done && db.Tables() == old(db.Tables())
      ensures externalId != "" && f.lookup && externalId in old(db.clients).Values ==> done && db.Tables() == old(db.Tables())
      ensures externalId != "" && !(f.lookup && externalId in old(db.clients).Values) ==>
                && done == (CanCreate(old(db.Tables()), id, externalId, f) && Encrypts(Operator(externalId), f)
                            && f.credentials && id !in old(db.credentials))
                && db.clients == (if CanCreate(old(db.Tables()), id, externalId, f) then old(db.clients)[id := externalId] else old(db.clients))
                && db.credentials == (if done then old(db.credentials)[id := Encrypted(Operator(externalId))] else old(db.credentials))
                && db.accounts == old(db.accounts) + (if done then SeededAccounts(id, |DEFAULT_ACCOUNTS|, f.account) else {})
                && (done ==> (Seeded(db.Tables(), id) <==> forall i :: 0 <= i < |DEFAULT_ACCOUNTS| ==> f.account(i)))
                && (done ==> OpensTo(db.credentials[id], Registration(externalId, "", "", "", "", "", "", "")))
    {
      if externalId == "" { return false; }
      if f.lookup && externalId in db.clients.Values { return true; }
      done := Enrol(id, Operator(externalId), f);
    }
  }

  // The eight accounts of a fully seeded client.
  lemma SeededMeans(db: Db, client: string)
    ensures Seeded(db, client) <==>
              && (client, "mpesa.till") in db.accounts && (client, "revenue.sales") in db.accounts
              && (client, "revenue.other") in db.accounts && (client, "expense.cogs") in db.accounts
              && (client, "expense.operations") in db.accounts && (client, "liability.vat_payable") in db.accounts
              && (client, "liability.pending") in db.accounts && (client, "fees.mpesa") in db.accounts
  {
    var d := DEFAULT_ACCOUNTS;
    assert |d| == 8 && d[0] == "mpesa.till" && d[1] == "revenue.sales" && d[2] == "revenue.other" && d[3] == "expense.cogs";
    assert d[4] == "expense.operations" && d[5] == "liability.vat_payable" && d[6] == "liability.pending" && d[7] == "fees.mpesa";
    if Seeded(db, client) {
      assert (client, d[0]) in db.accounts && (client, d[1]) in db.accounts && (client, d[2]) in db.accounts;
      assert (client, d[3]) in db.accounts && (client, d[4]) in db.accounts && (client, d[5]) in db.accounts;
      assert (client, d[6]) in db.accounts && (client, d[7]) in db.accounts;
    }
  }

  // A new client is fully seeded exactly when no account insert failed: duplicates in the list do
  // not exist, so one missing insert is one missing account.
  lemma SeededIffAllInserted(before: set<(string, string)>, client: string, ok: nat -> bool)
    requires forall a :: a in before ==> a.0 != client
    ensures var after := before + SeededAccounts(client, |DEFAULT_ACCOUNTS|, ok);
            (forall k :: 0 <= k < |DEFAULT_ACCOUNTS| ==> (client, DEFAULT_ACCOUNTS[k]) in after)
            <==> (forall i :: 0 <= i < |DEFAULT_ACCOUNTS| ==> ok(i))
  {
    var after := before + SeededAccounts(client, |DEFAULT_ACCOUNTS|, ok);
    if forall k :: 0 <= k < |DEFAULT_ACCOUNTS| ==> (client, DEFAULT_ACCOUNTS[k]) in after {
      forall i | 0 <= i < |DEFAULT_ACCOUNTS| ensures ok(i) {
        assert (client, DEFAULT_ACCOUNTS[i]) in SeededAccounts(client, |DEFAULT_ACCOUNTS|, ok);
        var j :| 0 <= j < |DEFAULT_ACCOUNTS| && ok(j) && (client, DEFAULT_ACCOUNTS[j]) == (client, DEFAULT_ACCOUNTS[i]);
        AccountsDistinct(i, j);
      }
    }
  }

  lemma AccountsDistinct(i: nat, j: nat)
    requires i < |DEFAULT_ACCOUNTS| && j < |DEFAULT_ACCOUNTS| && DEFAULT_ACCOUNTS[i] == DEFAULT_ACCOUNTS[j]
    ensures i == j
  {
    var d := DEFAULT_ACCOUNTS;
    assert d[0][0] == 'm' && |d[0]| == 10;
    assert |d[1]| == 13 && d[1][8] == 's' && |d[2]| == 13 && d[2][8] == 'o';
    assert |d[3]| == 12 && |d[4]| == 18 && |d[5]| == 21 && |d[6]| == 17;
    assert d[7][0] == 'f' && |d[7]| == 10;
  }
}
