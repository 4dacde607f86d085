/** The decisions of client/src/App.js: restoring a session from storage, what
    login, registration and logout store, the `onPay` guard, which view shows for
    which user, the cells of the admin table, and the SWIFT/BIC field check.
    Rendering, requests and toasts are left out; `localStorage` is a map. */
module App {
  import opened Common
  import opened Patterns
  import Ledger

  /** The `user` state: `{ userId, accountNumber, role }`; `userId` may be null. */
  datatype SessionUser = SessionUser(userId: Option<string>, accountNumber: string, role: string)

  /** `localStorage`, key to stored text. */
  type Storage = map<string, string>

  /** `localStorage.getItem(key)`: null (None) for a key never set. */
  function GetItem(st: Storage, key: string): Option<string>
  {
    if key in st then Some(st[key]) else None
  }

  /** JavaScript truthiness of a string that may be null or undefined. */
  predicate Truthy(v: Option<string>)
  {
    v.Some? && v.value != ""
  }

  /** The first effect: the user is restored only when all four keys hold
      non-empty text. */
  function RestoreSession(st: Storage): (u: Option<SessionUser>)
    ensures u.Some? <==>
      && Truthy(GetItem(st, "token")) && Truthy(GetItem(st, "role"))
      && Truthy(GetItem(st, "accountNumber")) && Truthy(GetItem(st, "userId"))
    ensures u.Some? ==>
      u.value == SessionUser(Some(st["userId"]), st["accountNumber"], st["role"])
  {
    var token, role := GetItem(st, "token"), GetItem(st, "role");
    var accountNumber, userId := GetItem(st, "accountNumber"), GetItem(st, "userId");
    if Truthy(token) && Truthy(role) && Truthy(accountNumber) && Truthy(userId)
    then Some(SessionUser(userId, accountNumber.value, role.value))
    else None
  }

  /** The fields of a response body the client reads (`res.data.…`); a field the
      server did not send is None (`undefined`). */
  datatype ReplyBody = ReplyBody(token: Option<string>, userId: Option<string>, role: Option<string>)

  /** `localStorage.setItem` turns `undefined` into the text "undefined". */
  function AsStored(v: Option<string>): string
  {
    if v.Some? then v.value else "undefined"
  }

  /** The four `setItem` calls of `onLogin` and `onRegister`. */
  function SessionStorage(st: Storage, accountNumber: string, body: ReplyBody): (r: Storage)
    ensures r.Keys == st.Keys + {"token", "userId", "role", "accountNumber"}
    ensures r["token"] == AsStored(body.token) && r["userId"] == AsStored(body.userId)
    ensures r["role"] == AsStored(body.role) && r["accountNumber"] == accountNumber
    ensures forall k :: k in st && k !in {"token", "userId", "role", "accountNumber"} ==> r[k] == st[k]
  {
    st["token" := AsStored(body.token)]["userId" := AsStored(body.userId)]
      ["role" := AsStored(body.role)]["accountNumber" := accountNumber]
  }

  /** The `setUser` call of `onLogin` and `onRegister`:
      `userId: res.data.userId || null`, `role: res.data.role || 'employee'`. */
  function SessionUserFrom(accountNumber: string, body: ReplyBody): SessionUser
  {
    SessionUser(if Truthy(body.userId) then body.userId else None,
                accountNumber,
                if Truthy(body.role) then body.role.value else "employee")
  }

  /** A successful login reply (token, user id and role all present) survives a
      reload: the restored user is the one `onLogin` set. */
  lemma LoginSurvivesReload(st: Storage, accountNumber: string, body: ReplyBody)
    requires accountNumber != ""
    requires Truthy(body.token) && Truthy(body.userId) && Truthy(body.role)
    ensures RestoreSession(SessionStorage(st, accountNumber, body))
         == Some(SessionUserFrom(accountNumber, body))
  {
  }

  /** Login and register forms: only when no one is logged in. */
  predicate AuthFormsShown(u: Option<SessionUser>) { u.None? }

  /** The payment form: only for role `employee`. */
  predicate PaymentFormShown(u: Option<SessionUser>) { u.Some? && u.value.role == "employee" }

  /** The admin panel: only for role `admin`. */
  predicate AdminPanelShown(u: Option<SessionUser>) { u.Some? && u.value.role == "admin" }

  /** At most one of the three views shows; a user with any other role sees none. */
  lemma ViewsExclusive(u: Option<SessionUser>)
    ensures !(AuthFormsShown(u) && PaymentFormShown(u))
    ensures !(AuthFormsShown(u) && AdminPanelShown(u))
    ensures !(PaymentFormShown(u) && AdminPanelShown(u))
    ensures u.Some? && u.value.role != "employee" && u.value.role != "admin" ==>
      !AuthFormsShown(u) && !PaymentFormShown(u) && !AdminPanelShown(u)
  {
  }

  /** The `onPay` guard `!user?.userId`. */
  predicate MayPay(u: Option<SessionUser>)
  {
    u.Some? && Truthy(u.value.userId)
  }

  /** A successful `/api/login` reply carries the user's role as its schema text
      (`RoleName`); the client then shows the payment form exactly to an employee
      and the admin panel exactly to an admin, before and after a reload. */
  lemma LoginRoleSelectsView(st: Storage, accountNumber: string, token: string, userId: string, r: Role)
    requires accountNumber != "" && token != "" && userId != ""
    ensures var body := ReplyBody(Some(token), Some(userId), Some(RoleName(r)));
      var u := Some(SessionUserFrom(accountNumber, body));
      && RestoreSession(SessionStorage(st, accountNumber, body)) == u
      && (PaymentFormShown(u) <==> r == Employee)
      && (AdminPanelShown(u) <==> r == Admin)
      && MayPay(u) && !AuthFormsShown(u)
  {
  }

  /** `/api/register` answers only a message. `onRegister` still stores the
      absent token, id and role (as "undefined") and sets a user without an id:
      that user is shown the payment form but `onPay` refuses, and after a reload
      the restored user has the role "undefined" and sees no view at all. */
  lemma RegisterThenReload(st: Storage, accountNumber: string)
    requires accountNumber != ""
    ensures var u := SessionUserFrom(accountNumber, ReplyBody(None, None, None));
      PaymentFormShown(Some(u)) && !MayPay(Some(u))
    ensures var restored := RestoreSession(SessionStorage(st, accountNumber, ReplyBody(None, None, None)));
      && restored == Some(SessionUser(Some("undefined"), accountNumber, "undefined"))
      && !AuthFormsShown(restored) && !PaymentFormShown(restored) && !AdminPanelShown(restored)
  {
  }

  /** What `onPay` does: refuse, or post the form with the user's id, with the
      stored token as a bearer header. */
  datatype PayAction = LoginFirst | PostPay(body: map<string, string>, authorization: string)

  /** A template literal shows a null `getItem` as "null". */
  function Interpolated(v: Option<string>): string
  {
    if v.Some? then v.value else "null"
  }

  /** The client's state. */
  class Client {
    var user: Option<SessionUser>
    var storage: Storage

    /** Page load: the first effect restores the session from storage. */
    constructor (stored: Storage)
      ensures storage == stored && user == RestoreSession(stored)
    {
      storage := stored;
      user := RestoreSession(stored);
    }

    /** The success path shared by `onLogin` and `onRegister`. */
    method StartSession(accountNumber: string, body: ReplyBody)
      modifies this
      ensures storage == SessionStorage(old(storage), accountNumber, body)
      ensures user == Some(SessionUserFrom(accountNumber, body))
    {
      storage := storage["token" := AsStored(body.token)];
      storage := storage["userId" := AsStored(body.userId)];
      storage := storage["role" := AsStored(body.role)];
      storage := storage["accountNumber" := accountNumber];
      user := Some(SessionUserFrom(accountNumber, body));
    }

    /** `onLogin`: `reply` is None when the request failed (an error toast). */
    method OnLogin(accountNumber: string, reply: Option<ReplyBody>)
      modifies this
      ensures reply.None? ==> storage == old(storage) && user == old(user)
      ensures reply.Some? ==>
        && storage == SessionStorage(old(storage), accountNumber, reply.value)
        && user == Some(SessionUserFrom(accountNumber, reply.value))
    {
      if reply.Some? {
        StartSession(accountNumber, reply.value);
      }
    }

    /** `onRegister`: the same steps on the registration reply. */
    method OnRegister(accountNumber: string, reply: Option<ReplyBody>)
      modifies this
      ensures reply.None? ==> storage == old(storage) && user == old(user)
      ensures reply.Some? ==>
        && storage == SessionStorage(old(storage), accountNumber, reply.value)
        && user == Some(SessionUserFrom(accountNumber, reply.value))
    {
      if reply.Some? {
        StartSession(accountNumber, reply.value);
      }
    }

    /** `handleLogout`: storage cleared, no user, so a reload restores nothing
        and the login forms show. */
    method Logout()
      modifies this
      ensures storage == map[] && user == None
      ensures RestoreSession(storage) == None && AuthFormsShown(user)
    {
      storage := map[];
      user := None;
    }

    /** `onPay`: with no logged-in user id, refuse without a request; otherwise
        post the form with `userId` replaced by the user's. */
    method OnPay(data: map<string, string>) returns (action: PayAction)
      ensures action.LoginFirst? <==> !MayPay(user)
      ensures action.PostPay? ==>
        && action.body.Keys == data.Keys + {"userId"}
        && action.body["userId"] == user.value.userId.value
        && (forall k :: k in data && k != "userId" ==> action.body[k] == data[k])
        && action.authorization == "Bearer " + Interpolated(GetItem(storage, "token"))
    {
      if user.None? || user.value.userId.None? || user.value.userId.value == "" {
        return LoginFirst;
      }
      var payload := data["userId" := user.value.userId.value];
      action := PostPay(payload, "Bearer " + Interpolated(GetItem(storage, "token")));
    }
  }

  /** The cells of one admin-table row. */
  datatype Cell = Label(text: string) | VerifyButton(id: Ledger.TxId) | SubmitButton(id: Ledger.TxId) | Blank

  /** The "Verified" column: a Verify button exactly while `verified` is false. */
  function VerifiedCell(tx: Ledger.Transaction): (c: Cell)
    ensures c.VerifyButton? <==> !tx.verified
    ensures c.VerifyButton? ==> c.id == tx.id
  {
    if tx.verified then Label("Verified") else VerifyButton(tx.id)
  }

  /** The "Submitted" column: a Submit button exactly when `verified` is true and
      `submittedToSwift` false; nothing for an unverified, unsubmitted row. */
  function SubmittedCell(tx: Ledger.Transaction): (c: Cell)
    ensures c.SubmitButton? <==> tx.verified && !tx.submittedToSwift
    ensures c.SubmitButton? ==> c.id == tx.id
    ensures c == Blank <==> !tx.verified && !tx.submittedToSwift
  {
    if tx.submittedToSwift then Label("Submitted")
    else if tx.verified then SubmitButton(tx.id)
    else Blank
  }

  /** The buttons agree with the server: Submit is offered only where the server
      accepts it, a row still offering Verify would be answered 400, and once
      verified the row offers Submit. */
  lemma ButtonsAgreeWithServer(s: Ledger.Store, id: Ledger.TxId)
    requires Ledger.Valid(s) && id in s.txs
    ensures SubmittedCell(s.txs[id]).SubmitButton? ==> Ledger.Submit(s, id).1.Submitted?
    ensures VerifiedCell(s.txs[id]).VerifyButton? ==>
      && Ledger.Submit(s, id).1 == Ledger.NotVerified
      && SubmittedCell(s.txs[id]) == Blank
      && SubmittedCell(Ledger.Verify(s, id).0.txs[id]) == SubmitButton(id)
    ensures Ledger.Submit(s, id).1.Submitted? ==>
      SubmittedCell(Ledger.Submit(s, id).0.txs[id]) == Label("Submitted")
  {
  }

  /** The SWIFT/BIC field: react-hook-form applies `pattern` only to a
      non-empty value, so an empty field passes. */
  function SwiftFieldValid(v: string): (ok: bool)
    ensures ok <==> v == "" || SwiftShape(v)
  {
    SwiftPatternShape(v);
    v == "" || Matches(SwiftPattern, v)
  }
}
