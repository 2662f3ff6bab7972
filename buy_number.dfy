/// Number purchase, the last step of carrier (A2P 10DLC) registration: it
/// needs a registered campaign and the user's carrier account, searches the
/// account's available US numbers in an area code, buys the first one, and
/// records it on the registration (now `number_assigned`) and the account.
module BuyNumber {
  import opened Js
  import opened Tables
  import opened Schema

  /** The JSON body of the request. The client also sends a country, which
      the route never reads. */
  datatype NumberForm = NumberForm(areaCode: Option<string>, countryCode: Option<string>)

  /** The carrier calls the route makes, in order. */
  datatype Call =
    | Search(accountSid: Option<string>, country: string, areaCode: string)
    | Purchase(accountSid: Option<string>, phoneNumber: Option<string>)

  /** The search's reply: the `phone_number` of each available number (the
      list itself may be missing), or a non-OK response with its text. */
  datatype SearchReply = Found(available: Option<seq<Option<string>>>) | SearchFailed(text: string)

  /** The purchase's reply: the purchased number, or a non-OK response with its text. */
  datatype PurchaseReply = Purchased(phoneNumber: Option<string>) | PurchaseFailed(text: string)

  datatype Response =
    | Unauthorized
    | NoRegistration
    | CampaignNotRegistered
    | AccountNotFound
    | NoNumbers(message: string)
    | ServerError(message: string)
    | Bought(phoneNumber: Option<string>)

  function HttpStatus(r: Response): nat {
    match r
    case Unauthorized => 401
    case NoRegistration => 400
    case CampaignNotRegistered => 400
    case AccountNotFound => 400
    case NoNumbers(_) => 404
    case ServerError(_) => 500
    case Bought(_) => 200
  }

  datatype Db = Db(registrations: seq<Registration>, accounts: seq<TwilioAccount>)

  /** The area code searched: the requested one, or 402 when it is missing or empty. */
  function AreaCode(f: NumberForm): (code: string)
    ensures Truthy(f.areaCode) ==> code == f.areaCode.value
    ensures !Truthy(f.areaCode) ==> code == "402"
  {
    Or(f.areaCode, "402")
  }

  function NumberAssigned(r: Registration, phone: Option<string>): Registration {
    r.(phoneNumber := phone, status := "number_assigned")
  }

  /** The whole route. `dbError` is the registration update's error, if
      any; `accountUpdated` says whether the account update, whose error the
      route ignores, took effect. */
  function Route(db: Db, user: Option<string>, f: NumberForm, search: SearchReply, purchase: PurchaseReply,
                 dbError: Option<string>, accountUpdated: bool): (Response, Db, seq<Call>)
  {
    if user.None? then (Unauthorized, db, [])
    else
      var areaCode := AreaCode(f);
      match Single(db.registrations, RegistrationOf(user.value))
      case None => (NoRegistration, db, [])
      case Some(reg) =>
        if !Truthy(reg.campaignId) then (CampaignNotRegistered, db, [])
        else match Single(db.accounts, AccountOf(user.value))
          case None => (AccountNotFound, db, [])
          case Some(account) =>
            var calls := [Search(account.accountSid, "US", areaCode)];
            match search
            case SearchFailed(t) => (ServerError("Failed to search numbers: " + t), db, calls)
            case Found(available) =>
              if available.None? || |available.value| == 0 then
                (NoNumbers("No available numbers in area code " + areaCode), db, calls)
              else
                var calls' := calls + [Purchase(account.accountSid, available.value[0])];
                match purchase
                case PurchaseFailed(t) => (ServerError("Failed to purchase number: " + t), db, calls')
                case Purchased(phone) =>
                  if dbError.Some? then (ServerError("Database error: " + dbError.value), db, calls')
                  else
                    var regs := Update(db.registrations, RegistrationOf(user.value), (r: Registration) => NumberAssigned(r, phone));
                    var accounts :=
                      if accountUpdated
                      then Update(db.accounts, AccountOf(user.value), (a: TwilioAccount) => a.(phoneNumber := phone))
                      else db.accounts;
                    (Bought(phone), Db(regs, accounts), calls')
  }

  /** The requested country changes nothing: every search is in the US. */
  lemma CountryIgnored(db: Db, user: Option<string>, areaCode: Option<string>, c1: Option<string>, c2: Option<string>,
                       search: SearchReply, purchase: PurchaseReply, dbError: Option<string>, accountUpdated: bool)
    ensures Route(db, user, NumberForm(areaCode, c1), search, purchase, dbError, accountUpdated)
         == Route(db, user, NumberForm(areaCode, c2), search, purchase, dbError, accountUpdated)
    ensures var (_, _, calls) := Route(db, user, NumberForm(areaCode, c1), search, purchase, dbError, accountUpdated);
      forall i :: 0 <= i < |calls| && calls[i].Search? ==> calls[i].country == "US" && calls[i].areaCode == AreaCode(NumberForm(areaCode, c1))
  {
  }

  /** Purchase requires campaign registration: a registration without a
      campaign id is a 400 before any carrier call, and nothing is written. */
  lemma PurchaseNeedsCampaign(db: Db, user: string, f: NumberForm, search: SearchReply, purchase: PurchaseReply,
                              dbError: Option<string>, accountUpdated: bool, k: nat)
    requires k < |db.registrations| && db.registrations[k].userId == user && !Truthy(db.registrations[k].campaignId)
    requires forall j :: 0 <= j < |db.registrations| && j != k ==> db.registrations[j].userId != user
    ensures Route(db, Some(user), f, search, purchase, dbError, accountUpdated) == (CampaignNotRegistered, db, [])
  {
    WhereOne(db.registrations, RegistrationOf(user), k);
  }

  /** Any answer but a purchase leaves both tables as they were. */
  lemma OnlyPurchaseWrites(db: Db, user: Option<string>, f: NumberForm, search: SearchReply, purchase: PurchaseReply,
                           dbError: Option<string>, accountUpdated: bool)
    ensures var (resp, db', calls) := Route(db, user, f, search, purchase, dbError, accountUpdated);
      && (!resp.Bought? ==> db' == db)
      && (resp.Bought? ==> |calls| == 2 && calls[1].Purchase?)
      && (resp in {Unauthorized, NoRegistration, CampaignNotRegistered, AccountNotFound} <==> calls == [])
  {
  }

  /** With the user's one registration (campaign registered) and one
      account: an empty search is a 404; otherwise the first number found is
      the one bought, and on success the registration (no other) gets that
      number with `number_assigned` and the account (no other) gets it too. */
  lemma FirstNumberBought(db: Db, user: string, f: NumberForm, available: seq<Option<string>>, phone: Option<string>,
                          k: nat, a: nat)
    requires k < |db.registrations| && db.registrations[k].userId == user && Truthy(db.registrations[k].campaignId)
    requires forall j :: 0 <= j < |db.registrations| && j != k ==> db.registrations[j].userId != user
    requires a < |db.accounts| && db.accounts[a].userId == user
    requires forall j :: 0 <= j < |db.accounts| && j != a ==> db.accounts[j].userId != user
    ensures var (resp, db', calls) := Route(db, Some(user), f, Found(Some(available)), Purchased(phone), None, true);
      && |calls| >= 1 && calls[0] == Search(db.accounts[a].accountSid, "US", AreaCode(f))
      && (available == [] ==> resp == NoNumbers("No available numbers in area code " + AreaCode(f)) && db' == db)
      && (available != [] ==>
            && calls == [Search(db.accounts[a].accountSid, "US", AreaCode(f)), Purchase(db.accounts[a].accountSid, available[0])]
            && resp == Bought(phone)
            && db'.registrations == db.registrations[k := db.registrations[k].(phoneNumber := phone, status := "number_assigned")]
            && db'.accounts == db.accounts[a := db.accounts[a].(phoneNumber := phone)])
  {
    WhereOne(db.registrations, RegistrationOf(user), k);
    WhereOne(db.accounts, AccountOf(user), a);
    var (resp, db', calls) := Route(db, Some(user), f, Found(Some(available)), Purchased(phone), None, true);
    if available != [] {
      assert db'.registrations == db.registrations[k := NumberAssigned(db.registrations[k], phone)];
      assert db'.accounts == db.accounts[a := db.accounts[a].(phoneNumber := phone)];
    }
  }

  class NumberBuyer {
    var registrations: seq<Registration>
    var accounts: seq<TwilioAccount>

    function Snapshot(): Db
      reads this
    {
      Db(registrations, accounts)
    }

    constructor(registrations: seq<Registration>, accounts: seq<TwilioAccount>)
      ensures Snapshot() == Db(registrations, accounts)
    {
      this.registrations := registrations;
      this.accounts := accounts;
    }

    method Post(user: Option<string>, f: NumberForm, search: SearchReply, purchase: PurchaseReply,
                dbError: Option<string>, accountUpdated: bool)
      returns (resp: Response, calls: seq<Call>)
      modifies this
      ensures (resp, Snapshot(), calls) == Route(old(Snapshot()), user, f, search, purchase, dbError, accountUpdated)
    {
      if user.None? {
        return Unauthorized, [];
      }
      var areaCode := AreaCode(f);
      var reg := Single(registrations, RegistrationOf(user.value));
      if reg.None? {
        return NoRegistration, [];
      }
      if !Truthy(reg.value.campaignId) {
        return CampaignNotRegistered, [];
      }
      var account := Single(accounts, AccountOf(user.value));
      if account.None? {
        return AccountNotFound, [];
      }
      calls := [Search(account.value.accountSid, "US", areaCode)];
      if search.SearchFailed? {
        return ServerError("Failed to search numbers: " + search.text), calls;
      }
      if search.available.None? || |search.available.value| == 0 {
        return NoNumbers("No available numbers in area code " + areaCode), calls;
      }
      var phoneNumber := search.available.value[0];
      calls := calls + [Purchase(account.value.accountSid, phoneNumber)];
      if purchase.PurchaseFailed? {
        return ServerError("Failed to purchase number: " + purchase.text), calls;
      }
      if dbError.Some? {
        return ServerError("Database error: " + dbError.value), calls;
      }
      registrations := Update(registrations, RegistrationOf(user.value), (r: Registration) => NumberAssigned(r, purchase.phoneNumber));
      if accountUpdated {
        accounts := Update(accounts, AccountOf(user.value), (a: TwilioAccount) => a.(phoneNumber := purchase.phoneNumber));
      }
      resp := Bought(purchase.phoneNumber);
    }
  }
}
