/**
  The pyfilemail `User`: an HTTP session whose `logintoken` cookie decides
  whether the user is logged in, a guard that refuses every protected
  operation of an anonymous session before any request is made, and the
  reconstruction of transfer records returned by the service.

  The remote service is a parameter: every operation that talks to it takes
  the `Response` the service gives, and appends the `Request` it issues to
  the session's request log.
 */
module Users {
  import opened Wrappers
  import opened Values

  /** A transfer record as the service lists it; `complete` is what `is_complete` reports. */
  datatype TransferRecord = TransferRecord(from: string, complete: bool, fields: map<string, Value>)

  /** Who owns a restored transfer: this very user object, or another sender named verbatim. */
  datatype Owner = Myself(user: User) | Sender(name: string)

  /** A `Transfer` handle, restored from a record. */
  datatype Transfer = Transfer(owner: Owner, info: TransferRecord) {
    predicate IsComplete()
    {
      info.complete
    }
  }

  datatype Contact = Contact(contactid: Value, name: Value, email: string)

  /** The `contact` argument of `update_contact` and `delete_contact`, which must be a dict. */
  datatype ContactArg = ContactDict(fields: map<string, Value>) | NotADict

  /** The parsed JSON body of a response; a field the body lacks is `None`. */
  datatype Body = Body(
    errorcode: Value,
    errormessage: Value,
    user: Option<map<string, Value>>,
    contacts: Option<seq<Contact>>,
    contact: Option<Contact>,
    transfers: Option<seq<TransferRecord>>)

  /** A response: its status, its body, and the `logintoken` cookie it sets, if it sets one. */
  datatype Response = Response(status: int, body: Body, setLoginToken: Option<string>)

  /** A request the session issued: the route's name and its parameters. */
  datatype Request = Request(route: string, params: map<string, Value>)

  datatype Error =
    | LoginRequired                    // FMBaseError: 'Please login to use this method'
    | Remote(code: Value, message: Value)  // what the service (or the client, for 4003) reports
    | Malformed(field: string)          // KeyError: the body lacks the expected field
    | ContactNotFound(email: string)    // FMBaseError: no contact with that email
    | BadAge                            // FMBaseError: age must be an int between 0 and 90
    | ContactNotDict                    // AttributeError: contact must be a dict
    | NoApiKey                          // AttributeError: the stored apikey is not a string

  /** The error raised for a failed call, built from the response body. */
  function RaisedBy(body: Body): Error
  {
    Remote(body.errorcode, body.errormessage)
  }

  /** The error `transfers_complete` raises. */
  const IncompleteTransfer: Error := Remote(Number(4003), Text("You must complete transfer before logout."))

  /** `cookies.get(name)`. */
  function CookieGet(cookies: map<string, string>, name: string): Value
  {
    if name in cookies then Text(cookies[name]) else Null
  }

  /** A truthy `logintoken` cookie. */
  predicate HasLoginToken(cookies: map<string, string>)
  {
    CookieGet(cookies, "logintoken").Truthy()
  }

  /** The session's cookie jar after it receives `res`. */
  function Absorb(cookies: map<string, string>, res: Response): map<string, string>
  {
    match res.setLoginToken
    case None => cookies
    case Some(token) => cookies["logintoken" := token]
  }

  /** Only the service's own cookie can log a session in or out; the jar keeps every other cookie. */
  lemma AbsorbDecidesLogin(cookies: map<string, string>, res: Response)
    ensures HasLoginToken(Absorb(cookies, res)) <==>
            match res.setLoginToken
            case Some(token) => token != ""
            case None => HasLoginToken(cookies)
    ensures forall name :: name != "logintoken" ==> CookieGet(Absorb(cookies, res), name) == CookieGet(cookies, name)
  {
  }

  /** `login_required`: what a protected call raises before doing anything, if anything. */
  function CheckLogin(cookies: map<string, string>): (denied: Option<Error>)
    ensures denied.None? <==> "logintoken" in cookies && cookies["logintoken"] != ""
    ensures denied.Some? ==> denied.value == LoginRequired
  {
    if HasLoginToken(cookies) then None else Some(LoginRequired)
  }

  /** Whether every transfer reports itself complete. */
  predicate AllComplete(transfers: seq<Transfer>)
  {
    forall i :: 0 <= i < |transfers| ==> transfers[i].IsComplete()
  }

  /** The answer of a call whose payload is one field of the body. */
  function Answer<T>(res: Response, field: Option<T>, name: string): Result<T, Error>
  {
    if res.status != 200 then Failure(RaisedBy(res.body))
    else match field
      case Some(v) => Success(v)
      case None => Failure(Malformed(name))
  }

  /** The answer of a call that returns `True` on success. */
  function Acknowledged(res: Response): Result<bool, Error>
  {
    if res.status == 200 then Success(true) else Failure(RaisedBy(res.body))
  }

  /** The parameters of the `login` request. */
  function LoginParams(config: map<string, Value>, username: string, password: string): map<string, Value>
  {
    map["apikey" := Lookup(config, "apikey"), "username" := Text(username),
        "password" := Text(password), "source" := Text("Desktop")]
  }

  /** `c` is the first entry of `contacts` with this email. */
  ghost predicate FirstWithEmail(contacts: seq<Contact>, email: string, c: Contact)
  {
    exists i :: 0 <= i < |contacts| && contacts[i] == c && c.email == email &&
                forall j :: 0 <= j < i ==> contacts[j].email != email
  }

  /**
    `get_received_files`' check of `age`: a falsy age is not checked; a
    truthy one must be an `int` (a `bool` is one) between 0 and 90.
   */
  function AgeAccepted(age: Value): (ok: bool)
    ensures ok <==> match age
                    case Null => true
                    case Text(s) => s == ""
                    case Number(n) => 0 <= n <= 90
                    case Flag(b) => true
    ensures ok && age.Truthy() ==> 1 <= AgeDays(age) <= 90
  {
    !age.Truthy() || ((age.Number? || age.Flag?) && !(AgeDays(age) < 0 || AgeDays(age) > 90))
  }

  /** An `int` age in days; in Python `True` counts as 1. */
  function AgeDays(age: Value): int
  {
    match age
    case Number(n) => n
    case Flag(b) => if b then 1 else 0
    case _ => 0
  }

  /** The `from` parameter: the Unix time `age` days before `now`, or the falsy age itself. */
  function FromParam(age: Value, now: int): Value
  {
    if age.Truthy() then Number(now - AgeDays(age) * 86400) else age
  }

  /** The user object of `pyfilemail/users.py`. */
  class User {
    const username: string
    /** The transfers this user owns; the transfer collaborator adds to it. */
    var transfers: seq<Transfer>
    /** The settings dictionary read from the per-user JSON file. */
    var config: map<string, Value>
    /** The session's cookie jar; assigning `None` to a cookie removes it. */
    var cookies: map<string, string>
    /** Every request the session has issued, oldest first. */
    var requests: seq<Request>

    /** `logged_in`: the `logintoken` cookie is truthy. */
    predicate LoggedIn()
      reads this
      ensures LoggedIn() <==> "logintoken" in cookies && cookies["logintoken"] != ""
    {
      HasLoginToken(cookies)
    }

    /** `is_anonymous`: the `logintoken` cookie is falsy. */
    function IsAnonymous(): (anonymous: bool)
      reads this
      ensures anonymous <==> !LoggedIn()
    {
      !CookieGet(cookies, "logintoken").Truthy()
    }

    /** The `apikey` and `logintoken` parameters most calls send. */
    function Credentials(): map<string, Value>
      reads this
    {
      map["apikey" := Lookup(config, "apikey"), "logintoken" := CookieGet(cookies, "logintoken")]
    }

    /** `t` is the restoration of `records`: one transfer each, in order, with the owner folded. */
    ghost predicate IsRestoration(t: seq<Transfer>, records: seq<TransferRecord>)
    {
      |t| == |records| &&
      forall i :: 0 <= i < |t| ==>
        t[i].info == records[i] &&
        (t[i].owner == Myself(this) <==> records[i].from == username) &&
        (records[i].from != username ==> t[i].owner == Sender(records[i].from))
    }

    /** What `_restore_transfers` makes of `res`. */
    ghost predicate RestoreOutcome(r: Result<seq<Transfer>, Error>, res: Response)
    {
      match res.body.transfers
      case None => r == Failure(Malformed("transfers"))
      case Some(records) => r.Success? && IsRestoration(r.value, records)
    }

    /** The part of `__init__` common to both paths: no transfers, and the `apikey` cookie. */
    constructor (username: string, config: map<string, Value>, apikey: string)
      ensures this.username == username && this.config == config && transfers == []
      ensures cookies == map["apikey" := apikey] && requests == []
    {
      this.username := username;
      this.config := config;
      transfers := [];
      cookies := map["apikey" := apikey];
      requests := [];
    }

    /**
      `__init__`: with a password, log in and mark the session as "Desktop";
      without one, mark it "web" and clear `logintoken`.
     */
    static method New(username: string, config: map<string, Value>, password: Option<string>, loginResponse: Response)
      returns (r: Result<User, Error>)
      ensures !Lookup(config, "apikey").Text? ==> r == Failure(NoApiKey)
      ensures r.Success? ==>
                fresh(r.value) && r.value.username == username && r.value.config == config &&
                r.value.transfers == []
      ensures Lookup(config, "apikey").Text? && password.None? ==>
                r.Success? && !r.value.LoggedIn() && r.value.requests == [] &&
                r.value.cookies == map["apikey" := Lookup(config, "apikey").s, "source" := "web"]
      ensures Lookup(config, "apikey").Text? && password.Some? ==>
                if loginResponse.status == 200 then
                  r.Success? &&
                  r.value.requests == [Request("login", LoginParams(config, username, password.value))] &&
                  r.value.cookies == Absorb(map["apikey" := Lookup(config, "apikey").s], loginResponse)["source" := "Desktop"]
                else r == Failure(RaisedBy(loginResponse.body))
    {
      var apikey := Lookup(config, "apikey");
      if !apikey.Text? {
        return Failure(NoApiKey);
      }
      var u := new User(username, config, apikey.s);
      if password.Some? {
        var ok := u.Login(password.value, loginResponse);
        if ok.Failure? {
          return Failure(ok.error);
        }
        u.cookies := u.cookies["source" := "Desktop"];
      } else {
        u.cookies := u.cookies["source" := "web"] - {"logintoken"};
      }
      r := Success(u);
    }

    /** Issue one request and take in the cookies of its response. */
    method Send(route: string, params: map<string, Value>, res: Response)
      modifies this`requests, this`cookies
      ensures requests == old(requests) + [Request(route, params)]
      ensures cookies == Absorb(old(cookies), res)
    {
      requests := requests + [Request(route, params)];
      cookies := Absorb(cookies, res);
    }

    /** `login`: the token comes only from the cookie the service sets. */
    method Login(password: string, res: Response) returns (r: Result<bool, Error>)
      modifies this`requests, this`cookies
      ensures requests == old(requests) + [Request("login", LoginParams(config, username, password))]
      ensures cookies == Absorb(old(cookies), res)
      ensures r == Acknowledged(res)
      ensures res.setLoginToken.None? ==> LoggedIn() == old(LoggedIn())
      ensures res.setLoginToken.Some? ==> (LoggedIn() <==> res.setLoginToken.value != "")
    {
      Send("login", LoginParams(config, username, password), res);
      r := Acknowledged(res);
    }

    /** `transfers_complete`: error 4003 as soon as one transfer is incomplete. */
    method TransfersComplete() returns (err: Option<Error>)
      ensures err.None? <==> AllComplete(transfers)
      ensures err.Some? ==> err.value == IncompleteTransfer
    {
      var i := 0;
      while i < |transfers|
        invariant 0 <= i <= |transfers|
        invariant forall j :: 0 <= j < i ==> transfers[j].IsComplete()
      {
        if !transfers[i].IsComplete() {
          return Some(IncompleteTransfer);
        }
        i := i + 1;
      }
      return None;
    }

    /** `logout`: refuse while a transfer is incomplete; on success, drop the token. */
    method Logout(res: Response) returns (r: Result<bool, Error>)
      modifies this`requests, this`cookies
      ensures !old(LoggedIn()) ==>
                r == Failure(LoginRequired) && requests == old(requests) && cookies == old(cookies)
      ensures old(LoggedIn()) && !AllComplete(transfers) ==>
                r == Failure(IncompleteTransfer) && requests == old(requests) && cookies == old(cookies)
      ensures old(LoggedIn()) && AllComplete(transfers) ==>
                requests == old(requests) + [Request("logout", old(Credentials()))] && r == Acknowledged(res) &&
                cookies == if res.status == 200 then old(cookies) - {"logintoken"} else Absorb(old(cookies), res)
      ensures old(LoggedIn()) && AllComplete(transfers) && res.status == 200 ==> !LoggedIn() && IsAnonymous()
    {
      var denied := CheckLogin(cookies);
      if denied.Some? {
        return Failure(denied.value);
      }
      var err := TransfersComplete();
      if err.Some? {
        return Failure(err.value);
      }
      Send("logout", Credentials(), res);
      if res.status == 200 {
        cookies := cookies - {"logintoken"};
        return Success(true);
      }
      r := Failure(RaisedBy(res.body));
    }

    /** `_restore_transfers`: one handle per listed record, in order, owned by `this` when the sender is this user. */
    method RestoreTransfers(res: Response) returns (r: Result<seq<Transfer>, Error>)
      ensures res.body.transfers.None? ==> r == Failure(Malformed("transfers"))
      ensures res.body.transfers.Some? ==> r.Success? && IsRestoration(r.value, res.body.transfers.value)
    {
      if res.body.transfers.None? {
        return Failure(Malformed("transfers"));
      }
      var records := res.body.transfers.value;
      var restored: seq<Transfer> := [];
      var i := 0;
      while i < |records|
        invariant 0 <= i <= |records|
        invariant IsRestoration(restored, records[..i])
      {
        var record := records[i];
        var owner := if record.from == username then Myself(this) else Sender(record.from);
        restored := restored + [Transfer(owner, record)];
        i := i + 1;
      }
      assert records[..i] == records;
      r := Success(restored);
    }

    /** `get_sent`: the transfers this user sent. */
    method GetSent(expired: bool, forAll: bool, res: Response) returns (r: Result<seq<Transfer>, Error>)
      modifies this`requests, this`cookies
      ensures !old(LoggedIn()) ==>
                r == Failure(LoginRequired) && requests == old(requests) && cookies == old(cookies)
      ensures old(LoggedIn()) ==>
                requests == old(requests) + [Request("get_sent", map[
                  "apikey" := CookieGet(old(cookies), "apikey"),
                  "logintoken" := CookieGet(old(cookies), "logintoken"),
                  "getexpired" := Flag(expired), "getforallusers" := Flag(forAll)])] &&
                cookies == Absorb(old(cookies), res) &&
                if res.status == 200 then RestoreOutcome(r, res) else r == Failure(RaisedBy(res.body))
    {
      var denied := CheckLogin(cookies);
      if denied.Some? {
        return Failure(denied.value);
      }
      var params := map[
        "apikey" := CookieGet(cookies, "apikey"), "logintoken" := CookieGet(cookies, "logintoken"),
        "getexpired" := Flag(expired), "getforallusers" := Flag(forAll)];
      Send("get_sent", params, res);
      if res.status == 200 {
        r := RestoreTransfers(res);
        return;
      }
      r := Failure(RaisedBy(res.body));
    }

    /** `get_user_info`: fetch the user's settings, merging them into the settings dictionary if asked. */
    method GetUserInfo(saveToConfig: bool, res: Response) returns (r: Result<map<string, Value>, Error>)
      modifies this`requests, this`cookies, this`config
      ensures !old(LoggedIn()) ==>
                r == Failure(LoginRequired) && requests == old(requests) && cookies == old(cookies)
      ensures old(LoggedIn()) ==>
                requests == old(requests) + [Request("user_get", old(Credentials()))] &&
                cookies == Absorb(old(cookies), res) && r == Answer(res, res.body.user, "user")
      ensures config == if old(LoggedIn()) && r.Success? && saveToConfig then old(config) + r.value else old(config)
    {
      var denied := CheckLogin(cookies);
      if denied.Some? {
        return Failure(denied.value);
      }
      Send("user_get", Credentials(), res);
      r := Answer(res, res.body.user, "user");
      if r.Success? && saveToConfig {
        config := config + r.value;
      }
    }

    /** `update_user_info`: merge `kwargs` into the settings, then send all of them. */
    method UpdateUserInfo(kwargs: map<string, Value>, res: Response) returns (r: Result<bool, Error>)
      modifies this`requests, this`cookies, this`config
      ensures !old(LoggedIn()) ==>
                r == Failure(LoginRequired) && requests == old(requests) && cookies == old(cookies) &&
                config == old(config)
      ensures old(LoggedIn()) ==>
                config == old(config) + kwargs &&
                requests == old(requests) + [Request("user_update", old(config) + kwargs)] &&
                cookies == Absorb(old(cookies), res) && r == Acknowledged(res)
    {
      var denied := CheckLogin(cookies);
      if denied.Some? {
        return Failure(denied.value);
      }
      if kwargs != map[] {
        config := config + kwargs;
      } else {
        assert config + kwargs == config;
      }
      Send("user_update", config, res);
      r := Acknowledged(res);
    }

    /** `get_received_files`: check `age`, then list the transfers sent to this user since `age` days before `now`. */
    method GetReceivedFiles(age: Value, forAll: bool, now: int, res: Response) returns (r: Result<seq<Transfer>, Error>)
      modifies this`requests, this`cookies
      ensures !old(LoggedIn()) ==>
                r == Failure(LoginRequired) && requests == old(requests) && cookies == old(cookies)
      ensures old(LoggedIn()) && !AgeAccepted(age) ==>
                r == Failure(BadAge) && requests == old(requests) && cookies == old(cookies)
      ensures old(LoggedIn()) && AgeAccepted(age) ==>
                requests == old(requests) + [Request("received_get", old(Credentials())[
                  "getForAllUsers" := Flag(forAll)]["from" := FromParam(age, now)])] &&
                cookies == Absorb(old(cookies), res) &&
                if res.status == 200 then RestoreOutcome(r, res) else r == Failure(RaisedBy(res.body))
    {
      var denied := CheckLogin(cookies);
      if denied.Some? {
        return Failure(denied.value);
      }
      if age.Truthy() {
        if !(age.Number? || age.Flag?) || AgeDays(age) < 0 || AgeDays(age) > 90 {
          return Failure(BadAge);
        }
      }
      var params := Credentials()["getForAllUsers" := Flag(forAll)]["from" := FromParam(age, now)];
      Send("received_get", params, res);
      if res.status == 200 {
        r := RestoreTransfers(res);
        return;
      }
      r := Failure(RaisedBy(res.body));
    }

    /** `get_contacts`: the contact list the service holds. */
    method GetContacts(res: Response) returns (r: Result<seq<Contact>, Error>)
      modifies this`requests, this`cookies
      ensures !old(LoggedIn()) ==>
                r == Failure(LoginRequired) && requests == old(requests) && cookies == old(cookies)
      ensures old(LoggedIn()) ==>
                requests == old(requests) + [Request("contacts_get", old(Credentials()))] &&
                cookies == Absorb(old(cookies), res) && r == Answer(res, res.body.contacts, "contacts")
    {
      var denied := CheckLogin(cookies);
      if denied.Some? {
        return Failure(denied.value);
      }
      Send("contacts_get", Credentials(), res);
      r := Answer(res, res.body.contacts, "contacts");
    }

    /** The search of `get_contact`: the first contact with this email, or an error. */
    static method FindContact(contacts: seq<Contact>, email: string) returns (r: Result<Contact, Error>)
      ensures r.Failure? <==> forall i :: 0 <= i < |contacts| ==> contacts[i].email != email
      ensures r.Failure? ==> r.error == ContactNotFound(email)
      ensures r.Success? ==> FirstWithEmail(contacts, email, r.value)
    {
      var i := 0;
      while i < |contacts|
        invariant 0 <= i <= |contacts|
        invariant forall j :: 0 <= j < i ==> contacts[j].email != email
      {
        if contacts[i].email == email {
          return Success(contacts[i]);
        }
        i := i + 1;
      }
      return Failure(ContactNotFound(email));
    }

    /** `get_contact`: fetch the contacts, then search them locally. */
    method GetContact(email: string, res: Response) returns (r: Result<Contact, Error>)
      modifies this`requests, this`cookies
      ensures !old(LoggedIn()) ==>
                r == Failure(LoginRequired) && requests == old(requests) && cookies == old(cookies)
      ensures old(LoggedIn()) ==>
                requests == old(requests) + [Request("contacts_get", old(Credentials()))] &&
                cookies == Absorb(old(cookies), res)
      ensures old(LoggedIn()) && Answer(res, res.body.contacts, "contacts").Failure? ==>
                r == Failure(Answer(res, res.body.contacts, "contacts").error)
      ensures old(LoggedIn()) && Answer(res, res.body.contacts, "contacts").Success? ==>
                var contacts := res.body.contacts.value;
                (r.Failure? <==> forall i :: 0 <= i < |contacts| ==> contacts[i].email != email) &&
                (r.Failure? ==> r.error == ContactNotFound(email)) &&
                (r.Success? ==> FirstWithEmail(contacts, email, r.value))
    {
      var denied := CheckLogin(cookies);
      if denied.Some? {
        return Failure(denied.value);
      }
      var contacts := GetContacts(res);
      if contacts.Failure? {
        return Failure(contacts.error);
      }
      r := FindContact(contacts.value, email);
    }

    /** `update_contact`: send a contact's new name and email. */
    method UpdateContact(contact: ContactArg, res: Response) returns (r: Result<bool, Error>)
      modifies this`requests, this`cookies
      ensures !old(LoggedIn()) ==>
                r == Failure(LoginRequired) && requests == old(requests) && cookies == old(cookies)
      ensures old(LoggedIn()) && contact.NotADict? ==>
                r == Failure(ContactNotDict) && requests == old(requests) && cookies == old(cookies)
      ensures old(LoggedIn()) && contact.ContactDict? ==>
                requests == old(requests) + [Request("contacts_update", old(Credentials())[
                  "contactid" := Lookup(contact.fields, "contactid")][
                  "name" := Lookup(contact.fields, "name")][
                  "email" := Lookup(contact.fields, "email")])] &&
                cookies == Absorb(old(cookies), res) && r == Acknowledged(res)
    {
      var denied := CheckLogin(cookies);
      if denied.Some? {
        return Failure(denied.value);
      }
      if contact.NotADict? {
        return Failure(ContactNotDict);
      }
      var params := Credentials()["contactid" := Lookup(contact.fields, "contactid")][
                      "name" := Lookup(contact.fields, "name")]["email" := Lookup(contact.fields, "email")];
      Send("contacts_update", params, res);
      r := Acknowledged(res);
    }

    /** `add_contact`: create a contact and return what the service made of it. */
    method AddContact(name: string, email: string, res: Response) returns (r: Result<Contact, Error>)
      modifies this`requests, this`cookies
      ensures !old(LoggedIn()) ==>
                r == Failure(LoginRequired) && requests == old(requests) && cookies == old(cookies)
      ensures old(LoggedIn()) ==>
                requests == old(requests) + [Request("contacts_add", old(Credentials())[
                  "name" := Text(name)]["email" := Text(email)])] &&
                cookies == Absorb(old(cookies), res) && r == Answer(res, res.body.contact, "contact")
    {
      var denied := CheckLogin(cookies);
      if denied.Some? {
        return Failure(denied.value);
      }
      Send("contacts_add", Credentials()["name" := Text(name)]["email" := Text(email)], res);
      r := Answer(res, res.body.contact, "contact");
    }

    /** `delete_contact`: delete the contact with the given `contactid`. */
    method DeleteContact(contact: ContactArg, res: Response) returns (r: Result<bool, Error>)
      modifies this`requests, this`cookies
      ensures !old(LoggedIn()) ==>
                r == Failure(LoginRequired) && requests == old(requests) && cookies == old(cookies)
      ensures old(LoggedIn()) && contact.NotADict? ==>
                r == Failure(ContactNotDict) && requests == old(requests) && cookies == old(cookies)
      ensures old(LoggedIn()) && contact.ContactDict? ==>
                requests == old(requests) + [Request("contacts_delete", old(Credentials())[
                  "contactid" := Lookup(contact.fields, "contactid")])] &&
                cookies == Absorb(old(cookies), res) && r == Acknowledged(res)
    {
      var denied := CheckLogin(cookies);
      if denied.Some? {
        return Failure(denied.value);
      }
      if contact.NotADict? {
        return Failure(ContactNotDict);
      }
      Send("contacts_delete", Credentials()["contactid" := Lookup(contact.fields, "contactid")], res);
      r := Acknowledged(res);
    }
  }
}
