/// Campaign registration, the second step of carrier (A2P 10DLC)
/// registration: it needs the user's registration row and the brand
/// registered in the first step, registers the messaging campaign with the
/// carrier, and moves the row to `campaign_registered`.
module RegisterCampaign {
  import opened Js
  import opened Tables
  import opened Schema

  /** The JSON body of the request. */
  datatype CampaignForm = CampaignForm(campaignName: Option<string>, useCase: Option<string>)

  /** The carrier call the route makes. */
  datatype CampaignCall = CampaignCall(brandRegistrationSid: string, campaignUseCase: string, description: string, usAppToPersonUsecase: string)

  /** The carrier's reply: the created campaign's sid, or a non-OK response with its text. */
  datatype ApiReply = Created(sid: Option<string>) | Failed(text: string)

  datatype Response =
    | Unauthorized
    | MissingFields
    | NoBrandRegistration
    | BrandIdMissing
    | ServerError(message: string)
    | Registered(campaignId: Option<string>)

  function HttpStatus(r: Response): nat {
    match r
    case Unauthorized => 401
    case MissingFields => 400
    case NoBrandRegistration => 400
    case BrandIdMissing => 400
    case ServerError(_) => 500
    case Registered(_) => 200
  }

  const Suffix := " - Lead reactivation campaign"

  function Call(brandId: string, f: CampaignForm): CampaignCall
    requires f.campaignName.Some? && f.useCase.Some?
  {
    CampaignCall(brandId, f.useCase.value, f.campaignName.value + Suffix, f.useCase.value)
  }

  /** The row after a successful registration. */
  function CampaignRegistered(r: Registration, campaignSid: Option<string>, f: CampaignForm): Registration {
    r.(campaignId := campaignSid, campaignName := f.campaignName, useCase := f.useCase, status := "campaign_registered")
  }

  /** The whole route: the response, the new registration rows, and the
      carrier call made (if any). `dbError` is the update's error, if any. */
  function Route(regs: seq<Registration>, user: Option<string>, f: CampaignForm, reply: ApiReply, dbError: Option<string>)
    : (Response, seq<Registration>, Option<CampaignCall>)
  {
    if user.None? then (Unauthorized, regs, None)
    else if !Truthy(f.campaignName) || !Truthy(f.useCase) then (MissingFields, regs, None)
    else match Single(regs, RegistrationOf(user.value))
      case None => (NoBrandRegistration, regs, None)
      case Some(reg) =>
        if !Truthy(reg.brandId) then (BrandIdMissing, regs, None)
        else
          var call := Some(Call(reg.brandId.value, f));
          match reply
          case Failed(t) => (ServerError("Failed to register campaign: " + t), regs, call)
          case Created(sid) =>
            if dbError.Some? then (ServerError("Database error: " + dbError.value), regs, call)
            else (Registered(sid), Update(regs, RegistrationOf(user.value), (r: Registration) => CampaignRegistered(r, sid, f)), call)
  }

  /** Every guard (no user, a missing field, no registration, no brand)
      answers before the carrier is called, and writes nothing. */
  lemma GuardsComeFirst(regs: seq<Registration>, user: Option<string>, f: CampaignForm, reply: ApiReply, dbError: Option<string>)
    ensures var (resp, regs', call) := Route(regs, user, f, reply, dbError);
      && (resp in {Unauthorized, MissingFields, NoBrandRegistration, BrandIdMissing} <==> call.None?)
      && (!resp.Registered? ==> regs' == regs)
  {
  }

  /** Campaign registration requires a prior brand: a user whose only
      registration row has no brand id gets 400 and nothing is called. */
  lemma BrandRequired(regs: seq<Registration>, user: string, f: CampaignForm, reply: ApiReply, dbError: Option<string>, k: nat)
    requires Truthy(f.campaignName) && Truthy(f.useCase)
    requires k < |regs| && regs[k].userId == user && !Truthy(regs[k].brandId)
    requires forall j :: 0 <= j < |regs| && j != k ==> regs[j].userId != user
    ensures Route(regs, Some(user), f, reply, dbError) == (BrandIdMissing, regs, None)
  {
    WhereOne(regs, RegistrationOf(user), k);
  }

  /** A user without a registration row gets 400 and nothing is called. */
  lemma RegistrationRequired(regs: seq<Registration>, user: string, f: CampaignForm, reply: ApiReply, dbError: Option<string>)
    requires Truthy(f.campaignName) && Truthy(f.useCase)
    requires forall j :: 0 <= j < |regs| ==> regs[j].userId != user
    ensures Route(regs, Some(user), f, reply, dbError) == (NoBrandRegistration, regs, None)
  {
    WhereNone(regs, RegistrationOf(user));
  }

  /** With the user's one registration carrying a brand, the carrier gets
      that brand, the use case twice and the name with the fixed suffix; a
      success moves that row (and no other) to `campaign_registered` with
      the campaign's sid, name and use case, and a failure leaves it. */
  lemma RegistersOnBrand(regs: seq<Registration>, user: string, f: CampaignForm, reply: ApiReply, dbError: Option<string>, k: nat)
    requires Truthy(f.campaignName) && Truthy(f.useCase)
    requires k < |regs| && regs[k].userId == user && Truthy(regs[k].brandId)
    requires forall j :: 0 <= j < |regs| && j != k ==> regs[j].userId != user
    ensures var (resp, regs', call) := Route(regs, Some(user), f, reply, dbError);
      && call == Some(CampaignCall(regs[k].brandId.value, f.useCase.value,
                                   f.campaignName.value + " - Lead reactivation campaign", f.useCase.value))
      && (reply.Failed? ==> resp.ServerError? && regs' == regs)
      && (reply.Created? && dbError.None? ==>
            && resp == Registered(reply.sid)
            && regs' == regs[k := regs[k].(campaignId := reply.sid, campaignName := f.campaignName,
                                           useCase := f.useCase, status := "campaign_registered")])
  {
    WhereOne(regs, RegistrationOf(user), k);
    var (resp, regs', call) := Route(regs, Some(user), f, reply, dbError);
    if reply.Created? && dbError.None? {
      assert regs' == regs[k := CampaignRegistered(regs[k], reply.sid, f)];
    }
  }

  class CampaignRegistrar {
    var registrations: seq<Registration>

    constructor(registrations: seq<Registration>)
      ensures this.registrations == registrations
    {
      this.registrations := registrations;
    }

    method Post(user: Option<string>, f: CampaignForm, reply: ApiReply, dbError: Option<string>)
      returns (resp: Response, call: Option<CampaignCall>)
      modifies this
      ensures (resp, registrations, call) == Route(old(registrations), user, f, reply, dbError)
    {
      if user.None? {
        return Unauthorized, None;
      }
      if !Truthy(f.campaignName) || !Truthy(f.useCase) {
        return MissingFields, None;
      }
      var reg := Single(registrations, RegistrationOf(user.value));
      if reg.None? {
        return NoBrandRegistration, None;
      }
      if !Truthy(reg.value.brandId) {
        return BrandIdMissing, None;
      }
      call := Some(Call(reg.value.brandId.value, f));
      if reply.Failed? {
        return ServerError("Failed to register campaign: " + reply.text), call;
      }
      if dbError.Some? {
        return ServerError("Database error: " + dbError.value), call;
      }
      registrations := Update(registrations, RegistrationOf(user.value), (r: Registration) => CampaignRegistered(r, reply.sid, f));
      resp := Registered(reply.sid);
    }
  }
}
