/// Brand registration, the first step of carrier (A2P 10DLC) registration:
/// after its guards, the route creates a carrier subaccount for the
/// company, registers the brand, and records both in the user's
/// registration row and a new carrier-account row. A failing call or
/// insert ends the request with 500 before anything further is written.
module RegisterBrand {
  import opened Js
  import opened Text
  import opened Schema

  /** The JSON body of the request. */
  datatype BrandForm = BrandForm(
    companyName: Option<string>,
    ein: Option<string>,
    vertical: Option<string>,
    contactName: Option<string>,
    contactEmail: Option<string>)

  /** A carrier API reply: a created resource (its sid and, for a
      subaccount, its auth token), or a non-OK response with its text. */
  datatype ApiReply = Created(sid: Option<string>, authToken: Option<string>) | Failed(text: string)

  /** The carrier calls the route makes, in order. */
  datatype Call =
    | CreateSubaccount(friendlyName: string)
    | RegisterBrandCall(companyName: string, ein: string, vertical: string, email: string, firstName: string, lastName: string)

  datatype Response =
    | Unauthorized
    | MissingFields
    | ServerError(message: string)
    | Registered(subaccountSid: Option<string>, brandId: Option<string>, registration: Registration)

  function HttpStatus(r: Response): nat {
    match r
    case Unauthorized => 401
    case MissingFields => 400
    case ServerError(_) => 500
    case Registered(_, _, _) => 200
  }

  /** The tables the route writes. */
  datatype Db = Db(registrations: seq<Registration>, accounts: seq<TwilioAccount>)

  predicate Incomplete(f: BrandForm) {
    !Truthy(f.companyName) || !Truthy(f.ein) || !Truthy(f.vertical) || !Truthy(f.contactName) || !Truthy(f.contactEmail)
  }

  /** The brand's first name: the first space-separated token of the
      contact's name, or the whole name when that token is empty. */
  function FirstName(contactName: string): (first: string)
    ensures first == contactName || (first != "" && ' ' !in first && |first| <= |contactName| && first == contactName[..|first|])
  {
    Or(Some(Split(contactName, ' ')[0]), contactName)
  }

  /** The brand's last name: the second space-separated token, or `""`. */
  function LastName(contactName: string): (last: string)
    ensures ' ' !in last
  {
    var parts := Split(contactName, ' ');
    Or(if |parts| > 1 then Some(parts[1]) else None, "")
  }

  /** The first name is the first word; a one-word name is all first name. */
  lemma FirstNameIsFirstWord(w: string, rest: string)
    requires w != "" && ' ' !in w
    ensures FirstName(w + " " + rest) == w
    ensures FirstName(w) == w && LastName(w) == ""
  {
    SplitFirstWord(w, rest, ' ');
    SplitNoSep(w, ' ');
  }

  /** The last name is the second word; any further words are dropped. */
  lemma LastNameIsSecondWord(w1: string, w2: string, rest: string)
    requires ' ' !in w1 && ' ' !in w2
    ensures LastName(w1 + " " + w2 + " " + rest) == w2
    ensures LastName(w1 + " " + w2) == w2
  {
    var tail := w2 + [' '] + rest;
    assert w1 + " " + w2 + " " + rest == w1 + [' '] + tail;
    SplitFirstWord(w1, tail, ' ');
    SplitFirstWord(w2, rest, ' ');
    var parts := Split(w1 + [' '] + tail, ' ');
    assert parts == [w1] + ([w2] + Split(rest, ' '));
    assert parts[1] == w2;
    assert w1 + " " + w2 == w1 + [' '] + w2;
    SplitFirstWord(w1, w2, ' ');
    SplitNoSep(w2, ' ');
    assert Split(w1 + [' '] + w2, ' ') == [w1, w2];
  }

  /** A name that starts with a space has an empty first token, so the
      whole name is sent as the first name. */
  lemma LeadingSpaceKeepsWholeName(rest: string)
    ensures FirstName(" " + rest) == " " + rest
  {
    SplitFirstWord("", rest, ' ');
    assert "" + [' '] + rest == " " + rest;
  }

  function BrandCall(f: BrandForm): Call
    requires !Incomplete(f)
  {
    RegisterBrandCall(f.companyName.value, f.ein.value, f.vertical.value, f.contactEmail.value,
                      FirstName(f.contactName.value), LastName(f.contactName.value))
  }

  function NewRegistration(userId: string, f: BrandForm, subaccountSid: Option<string>, brandId: Option<string>): Registration {
    Registration(userId, subaccountSid, brandId, None, None, None, None, "brand_registered",
                 f.companyName, f.ein, f.vertical, f.contactName, f.contactEmail)
  }

  /** The whole route. `dbError` is the registration insert's error, if
      any; `accountInserted` says whether the account insert, whose error
      the route ignores, wrote its row. */
  function Route(db: Db, user: Option<string>, f: BrandForm, subaccount: ApiReply, brand: ApiReply,
                 dbError: Option<string>, accountInserted: bool): (Response, Db, seq<Call>)
  {
    if user.None? then (Unauthorized, db, [])
    else if Incomplete(f) then (MissingFields, db, [])
    else
      var calls := [CreateSubaccount(f.companyName.value + " Subaccount")];
      match subaccount
      case Failed(t) => (ServerError("Failed to create subaccount: " + t), db, calls)
      case Created(subSid, subToken) =>
        var calls' := calls + [BrandCall(f)];
        match brand
        case Failed(t) => (ServerError("Failed to register brand: " + t), db, calls')
        case Created(brandSid, _) =>
          var reg := NewRegistration(user.value, f, subSid, brandSid);
          if dbError.Some? then (ServerError("Database error: " + dbError.value), db, calls')
          else
            var account := TwilioAccount(user.value, subSid, subToken, subSid, None);
            (Registered(subSid, brandSid, reg),
             Db(db.registrations + [reg], if accountInserted then db.accounts + [account] else db.accounts),
             calls')
  }

  /** A missing user or a missing field is answered before any carrier
      call and any write. */
  lemma GuardsComeFirst(db: Db, user: Option<string>, f: BrandForm, subaccount: ApiReply, brand: ApiReply,
                        dbError: Option<string>, accountInserted: bool)
    requires user.None? || Incomplete(f)
    ensures var (resp, db', calls) := Route(db, user, f, subaccount, brand, dbError, accountInserted);
      && db' == db && calls == []
      && resp == (if user.None? then Unauthorized else MissingFields)
  {
  }

  /** Any failure (a carrier call or the registration insert) is a 500
      and writes no row; only a full success writes. */
  lemma FailuresWriteNothing(db: Db, user: Option<string>, f: BrandForm, subaccount: ApiReply, brand: ApiReply,
                             dbError: Option<string>, accountInserted: bool)
    ensures var (resp, db', _) := Route(db, user, f, subaccount, brand, dbError, accountInserted);
      && (!resp.Registered? ==> db' == db)
      && (resp.ServerError? <==> user.Some? && !Incomplete(f) && (subaccount.Failed? || brand.Failed? || dbError.Some?))
  {
  }

  /** The calls: the subaccount is named after the company, and the brand
      carries the company's details and the contact's first and last name. */
  lemma CallsMade(db: Db, user: string, f: BrandForm, subaccount: ApiReply, brand: ApiReply,
                  dbError: Option<string>, accountInserted: bool)
    requires !Incomplete(f)
    ensures var (_, _, calls) := Route(db, Some(user), f, subaccount, brand, dbError, accountInserted);
      && 1 <= |calls| <= 2
      && calls[0] == CreateSubaccount(f.companyName.value + " Subaccount")
      && (|calls| == 2 <==> subaccount.Created?)
      && (|calls| == 2 ==>
            calls[1].RegisterBrandCall? && calls[1].companyName == f.companyName.value &&
            calls[1].firstName == FirstName(f.contactName.value) && calls[1].lastName == LastName(f.contactName.value))
  {
  }

  /** A success appends one `brand_registered` row for the user with the
      subaccount and brand sids, and (when its insert succeeds) one account
      row whose account sid is that subaccount sid. */
  lemma SuccessRecordsBoth(db: Db, user: string, f: BrandForm, subSid: Option<string>, subToken: Option<string>,
                           brandSid: Option<string>, brandToken: Option<string>)
    requires !Incomplete(f)
    ensures var (resp, db', _) := Route(db, Some(user), f, Created(subSid, subToken), Created(brandSid, brandToken), None, true);
      && resp.Registered? && resp.subaccountSid == subSid && resp.brandId == brandSid
      && |db'.registrations| == |db.registrations| + 1
      && db'.registrations[..|db.registrations|] == db.registrations
      && db'.registrations[|db.registrations|].userId == user
      && db'.registrations[|db.registrations|].status == "brand_registered"
      && db'.registrations[|db.registrations|].subaccountSid == subSid
      && db'.registrations[|db.registrations|].brandId == brandSid
      && |db'.accounts| == |db.accounts| + 1
      && db'.accounts[|db.accounts|].accountSid == subSid
      && db'.accounts[|db.accounts|].userId == user
  {
  }

  class BrandRegistrar {
    var registrations: seq<Registration>
    var accounts: seq<TwilioAccount>

    function Snapshot(): Db
      reads this
    {
      Db(registrations, accounts)
    }

    constructor(registrations: seq<Registration>, accounts: seq<TwilioAccount>)
      ensures Snapshot() == Db(registrations, accounts)
    {
      this.registrations := registrations;
      this.accounts := accounts;
    }

    method Post(user: Option<string>, f: BrandForm, subaccount: ApiReply, brand: ApiReply,
                dbError: Option<string>, accountInserted: bool)
      returns (resp: Response, calls: seq<Call>)
      modifies this
      ensures (resp, Snapshot(), calls) == Route(old(Snapshot()), user, f, subaccount, brand, dbError, accountInserted)
    {
      if user.None? {
        return Unauthorized, [];
      }
      if Incomplete(f) {
        return MissingFields, [];
      }
      calls := [CreateSubaccount(f.companyName.value + " Subaccount")];
      if subaccount.Failed? {
        return ServerError("Failed to create subaccount: " + subaccount.text), calls;
      }
      calls := calls + [BrandCall(f)];
      if brand.Failed? {
        return ServerError("Failed to register brand: " + brand.text), calls;
      }
      var reg := NewRegistration(user.value, f, subaccount.sid, brand.sid);
      if dbError.Some? {
        return ServerError("Database error: " + dbError.value), calls;
      }
      registrations := registrations + [reg];
      if accountInserted {
        accounts := accounts + [TwilioAccount(user.value, subaccount.sid, subaccount.authToken, subaccount.sid, None)];
      }
      resp := Registered(subaccount.sid, brand.sid, reg);
    }
  }
}
