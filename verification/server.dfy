/** The routes of server/index.js over the user and transaction collections:
    register, login, pay, and the three admin routes behind `verifyToken` and
    `requireRole('admin')`. Hashing, token signing and token checking are
    parameters or symbolic; the collections are fields the routes update. */
module Server {
  import opened Common
  import Auth
  import Ledger

  /** The cost factor passed to `bcrypt.hash`. */
  const Rounds: nat := 12

  /** A bcrypt digest, kept symbolically: the cost, the salt, and the password it
      was computed from. Nothing reads the password back out of it except
      `Compare`, which recomputes the digest. */
  datatype PasswordHash = Bcrypt(rounds: nat, salt: nat, input: string)

  /** `bcrypt.hash(password, 12)` with the random salt as a parameter. */
  function Hash(password: string, salt: nat): PasswordHash
  {
    Bcrypt(Rounds, salt, password)
  }

  /** `bcrypt.compare(password, stored)`: recompute with the stored cost and salt
      and compare. A missing user compares against `''`, which is no digest. */
  predicate Compare(password: string, stored: Option<PasswordHash>)
  {
    stored.Some? && stored.value == Bcrypt(stored.value.rounds, stored.value.salt, password)
  }

  /** A user document. */
  datatype User = User(
    id: UserId,
    fullName: string,
    idNumber: string,
    accountNumber: string,
    password: PasswordHash,
    role: Role)

  /** `User.findOne({ accountNumber })`: the position of the first stored user
      with that account number. */
  function FirstByAccount(users: seq<User>, accountNumber: string): (r: Option<nat>)
    ensures r.None? <==> forall j :: 0 <= j < |users| ==> users[j].accountNumber != accountNumber
    ensures r.Some? ==>
      && r.value < |users|
      && users[r.value].accountNumber == accountNumber
      && forall j :: 0 <= j < r.value ==> users[j].accountNumber != accountNumber
    decreases |users|
  {
    if users == [] then None
    else if users[0].accountNumber == accountNumber then Some(0)
    else match FirstByAccount(users[1..], accountNumber)
      case None => None
      case Some(i) => Some(i + 1)
  }

  /** The login decision: the user found by account number, if the password
      matches that user's stored digest. */
  function Authenticate(users: seq<User>, accountNumber: string, password: string): (r: Option<User>)
    ensures r.Some? ==>
      && r.value.accountNumber == accountNumber
      && Compare(password, Some(r.value.password))
      && exists i :: 0 <= i < |users| && users[i] == r.value
    ensures r.Some? ==>
      FirstByAccount(users, accountNumber).Some? && r.value == users[FirstByAccount(users, accountNumber).value]
    ensures (forall j :: 0 <= j < |users| ==> users[j].accountNumber != accountNumber) ==> r.None?
    ensures r.None? <==>
      || FirstByAccount(users, accountNumber).None?
      || !Compare(password, Some(users[FirstByAccount(users, accountNumber).value].password))
  {
    var found := FirstByAccount(users, accountNumber);
    var stored := if found.Some? then Some(users[found.value].password) else None;
    if found.Some? && Compare(password, stored) then Some(users[found.value]) else None
  }

  /** An id above every id in `users`: where the id counter starts. */
  function NextFreeId(users: seq<User>): (n: UserId)
    ensures forall i :: 0 <= i < |users| ==> users[i].id < n
    decreases |users|
  {
    if users == [] then 0
    else
      var rest := NextFreeId(users[1..]);
      if users[0].id < rest then rest else users[0].id + 1
  }

  /** The answers of `/api/login`. */
  datatype LoginReply =
    | LoginOk(token: string, userId: UserId, role: Role)  // 200 'Login successful'
    | InvalidCredentials                                   // 401 'Invalid credentials'

  /** The claims a login at time `now` signs for `u`. */
  function SessionClaims(u: User, now: int): (c: Claims)
    ensures c.userId == u.id && c.role == u.role
    ensures c.exp - c.iat == TokenLifetime && c.iat == now
  {
    Claims(u.id, u.role, now, now + TokenLifetime)
  }

  /** A user registered with a new account number can log in with the password
      given at registration, and gets the role `employee`. */
  lemma RegisteredUserLogsIn(users: seq<User>, id: UserId, fullName: string, idNumber: string,
                             accountNumber: string, password: string, salt: nat)
    requires forall j :: 0 <= j < |users| ==> users[j].accountNumber != accountNumber
    ensures var u := User(id, fullName, idNumber, accountNumber, Hash(password, salt), Employee);
      Authenticate(users + [u], accountNumber, password) == Some(u)
  {
    var u := User(id, fullName, idNumber, accountNumber, Hash(password, salt), Employee);
    assert (users + [u])[|users|] == u;
    assert forall j :: 0 <= j < |users| ==> (users + [u])[j] == users[j];
  }

  /** Registration does not check for an existing account number, and login
      only ever looks at the first user with it: adding a later duplicate
      changes no login decision for that account number. */
  lemma DuplicateIsShadowed(users: seq<User>, u: User, password: string)
    requires exists j :: 0 <= j < |users| && users[j].accountNumber == u.accountNumber
    ensures Authenticate(users + [u], u.accountNumber, password)
         == Authenticate(users, u.accountNumber, password)
  {
    var acct := u.accountNumber;
    var before, after := FirstByAccount(users, acct), FirstByAccount(users + [u], acct);
    assert before.Some?;
    assert (users + [u])[before.value] == users[before.value];
    assert forall j :: 0 <= j < |users| ==> (users + [u])[j] == users[j];
    assert after == before;
  }

  /** The admin the setup script inserts: account `admin001`, role `admin`, the
      digest of `adminTest123`; it sets no id number, modelled as "". */
  function SeededAdmin(id: UserId, salt: nat): (u: User)
    ensures u.role == Admin && u.accountNumber == "admin001"
    ensures Compare("adminTest123", Some(u.password))
  {
    User(id, "Admin User", "", "admin001", Hash("adminTest123", salt), Admin)
  }

  /** A store seeded with that admin lets it log in, with the role `admin`,
      whatever users are registered after it. */
  lemma SeededAdminLogsIn(id: UserId, salt: nat, later: seq<User>)
    ensures Authenticate([SeededAdmin(id, salt)] + later, "admin001", "adminTest123")
         == Some(SeededAdmin(id, salt))
  {
    assert ([SeededAdmin(id, salt)] + later)[0] == SeededAdmin(id, salt);
  }

  /** The token a login hands out, sent back as `Bearer <token>`, passes
      `verifyToken` with the logged-in user's id and role whenever `verify`
      accepts it (signature good, not expired). */
  lemma LoginTokenPassesGuard(users: seq<User>, accountNumber: string, password: string,
                              now: int, sign: Claims -> string, verify: string -> Option<Claims>)
    requires Authenticate(users, accountNumber, password).Some?
    requires var t := sign(SessionClaims(Authenticate(users, accountNumber, password).value, now));
      t != "" && ' ' !in t
    requires var c := SessionClaims(Authenticate(users, accountNumber, password).value, now);
      verify(sign(c)) == Some(c)
    ensures var u := Authenticate(users, accountNumber, password).value;
      Auth.Guard(Some("Bearer " + sign(SessionClaims(u, now))), verify)
        == Auth.Proceed(Claims(u.id, u.role, now, now + TokenLifetime))
  {
    var c := SessionClaims(Authenticate(users, accountNumber, password).value, now);
    Auth.BearerRoundTrip(sign(c), verify);
  }

  /** The three routes mounted behind `verifyToken, requireRole('admin')`. */
  datatype AdminRequest = ListAll | VerifyById(id: Ledger.TxId) | SubmitById(id: Ledger.TxId)

  datatype AdminReply =
    | Rejected(guard: Auth.GuardOutcome)         // 401 or 403 from verifyToken
    | RoleRefused                                // answered by requireRole
    | Listed(txs: seq<Ledger.Transaction>)       // 200, the array
    | VerifyDone(tx: Option<Ledger.Transaction>) // 200 'Transaction verified', tx or null
    | SubmitDone(outcome: Ledger.SubmitOutcome)  // 404, 400 or 200

  /** The server's collections. */
  class Portal {
    var users: seq<User>
    var nextUser: UserId
    var txs: map<Ledger.TxId, Ledger.Transaction>
    var nextTx: Ledger.TxId

    ghost predicate Valid()
      reads this
    {
      && Ledger.Valid(Ledger.Store(txs, nextTx))
      && forall i :: 0 <= i < |users| ==> users[i].id < nextUser
    }

    /** The transaction collection as a value. */
    function Book(): Ledger.Store
      reads this
    {
      Ledger.Store(txs, nextTx)
    }

    /** A fresh store holding the users seeded before the server starts (the
        admin inserted by a setup script, say) and no transactions. */
    constructor (seeded: seq<User>)
      ensures Valid() && users == seeded && txs == map[]
    {
      users, nextUser, txs, nextTx := seeded, NextFreeId(seeded), map[], 0;
    }

    /** `/api/register`: stores a new user whose password is the digest of the
        given one and whose role is the schema default; answers 201. */
    method Register(fullName: string, idNumber: string, accountNumber: string,
                    password: string, salt: nat) returns (status: nat)
      requires Valid()
      modifies this
      ensures Valid() && status == 201
      ensures users == old(users) + [User(old(nextUser), fullName, idNumber, accountNumber,
                                          Hash(password, salt), Employee)]
      ensures Book() == old(Book()) && nextUser == old(nextUser) + 1
    {
      var hashedPassword := Hash(password, salt);
      var user := User(nextUser, fullName, idNumber, accountNumber, hashedPassword, Employee);
      users := users + [user];
      nextUser := nextUser + 1;
      status := 201;
    }

    /** `/api/login`: 401 unless the first user with the account number exists
        and the password matches; otherwise a token signed over the user's id and
        role with a one-hour expiry, and that same id and role. */
    method Login(accountNumber: string, password: string, now: int, sign: Claims -> string)
      returns (reply: LoginReply)
      ensures reply.InvalidCredentials? <==> Authenticate(users, accountNumber, password).None?
      ensures (forall j :: 0 <= j < |users| ==> users[j].accountNumber != accountNumber)
              ==> reply == InvalidCredentials
      ensures reply.LoginOk? ==>
        var u := Authenticate(users, accountNumber, password).value;
        && reply.userId == u.id && reply.role == u.role
        && reply.token == sign(SessionClaims(u, now))
    {
      var found := FirstByAccount(users, accountNumber);
      var stored := if found.Some? then Some(users[found.value].password) else None;
      var matched := Compare(password, stored);
      if found.None? || !matched {
        return InvalidCredentials;
      }
      var user := users[found.value];
      var token := sign(SessionClaims(user, now));
      reply := LoginOk(token, user.id, user.role);
    }

    /** `/api/pay` (no auth guard): stores the body as a new transaction with
        both flags false; answers 201. */
    method Pay(p: Ledger.Payment, now: int) returns (status: nat)
      requires Valid()
      modifies this
      ensures Valid() && status == 201 && users == old(users) && nextUser == old(nextUser)
      ensures Book() == Ledger.Create(old(Book()), p, now)
      ensures Ledger.Evolves(old(Book()), Book())
    {
      var tx := Ledger.Transaction(nextTx, p.userId, p.amount, p.currency, p.provider,
                                   p.swiftCode, p.accountInfo, false, false, now);
      txs := txs[nextTx := tx];
      nextTx := nextTx + 1;
      status := 201;
    }

    /** The verify handler: sets `verified` on the record, if there is one. */
    method VerifyTransaction(id: Ledger.TxId) returns (tx: Option<Ledger.Transaction>)
      requires Valid()
      modifies this
      ensures Valid() && users == old(users) && nextUser == old(nextUser)
      ensures (Book(), tx) == Ledger.Verify(old(Book()), id)
      ensures Ledger.Evolves(old(Book()), Book())
    {
      if id in txs {
        txs := txs[id := txs[id].(verified := true)];
        tx := Some(txs[id]);
      } else {
        tx := None;
      }
    }

    /** The submit handler: 404, 400, or `submittedToSwift` set and saved. */
    method SubmitTransaction(id: Ledger.TxId) returns (outcome: Ledger.SubmitOutcome)
      requires Valid()
      modifies this
      ensures Valid() && users == old(users) && nextUser == old(nextUser)
      ensures (Book(), outcome) == Ledger.Submit(old(Book()), id)
      ensures Ledger.Evolves(old(Book()), Book())
    {
      if id !in txs {
        return Ledger.NotFound;
      }
      var tx := txs[id];
      if !tx.verified {
        return Ledger.NotVerified;
      }
      tx := tx.(submittedToSwift := true);
      txs := txs[id := tx];
      outcome := Ledger.Submitted(tx);
    }

    /** An admin route: `verifyToken`, then `requireRole('admin')` (the parameter
        `requireRole`), then the handler. A request stopped by either guard
        leaves the store as it was. */
    method AdminRoute(request: AdminRequest, authorization: Option<string>,
                      verify: string -> Option<Claims>, requireRole: Claims -> bool)
      returns (reply: AdminReply)
      requires Valid()
      modifies this
      ensures Valid() && users == old(users) && nextUser == old(nextUser)
      ensures Ledger.Evolves(old(Book()), Book())
      ensures !Auth.Guard(authorization, verify).Proceed? ==>
        reply == Rejected(Auth.Guard(authorization, verify)) && Book() == old(Book())
      ensures Auth.Guard(authorization, verify).Proceed? &&
              !requireRole(Auth.Guard(authorization, verify).claims) ==>
        reply == RoleRefused && Book() == old(Book())
      ensures Auth.Guard(authorization, verify).Proceed? &&
              requireRole(Auth.Guard(authorization, verify).claims) ==>
        match request
        case ListAll => reply == Listed(Ledger.Listing(old(Book()))) && Book() == old(Book())
        case VerifyById(id) =>
          reply.VerifyDone? && (Book(), reply.tx) == Ledger.Verify(old(Book()), id)
        case SubmitById(id) =>
          reply.SubmitDone? && (Book(), reply.outcome) == Ledger.Submit(old(Book()), id)
    {
      var guard := Auth.Guard(authorization, verify);
      if !guard.Proceed? {
        return Rejected(guard);
      }
      if !requireRole(guard.claims) {
        return RoleRefused;
      }
      match request
      case ListAll =>
        reply := Listed(Ledger.Listing(Book()));
      case VerifyById(id) =>
        var tx := VerifyTransaction(id);
        reply := VerifyDone(tx);
      case SubmitById(id) =>
        var outcome := SubmitTransaction(id);
        reply := SubmitDone(outcome);
    }
  }
}
