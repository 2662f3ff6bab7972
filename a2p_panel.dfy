/// The carrier (A2P 10DLC) registration panel: it loads the user's
/// registration, opens on the step the registration's status calls for,
/// shows which of brand, campaign and number are complete, and moves to the
/// next step when the brand, campaign or number request succeeds.
module A2pPanel {
  import opened Js
  import opened Schema
  import RegisterBrand
  import RegisterCampaign
  import BuyNumber

  /** The registration lookup's result: the row, if any, and the error's
      code, if there was an error (`PGRST116` is `.single()` finding no row). */
  datatype Fetched = Fetched(data: Option<Registration>, errorCode: Option<string>)

  /** What a registration request gave the panel: the route's registration
      on success; or a failure (a non-OK response or a thrown request),
      with the message the panel shows. */
  datatype Reply = Succeeded(registration: Option<Registration>) | Failed(message: string)

  /** The step a registration status opens the panel on, from the first step. */
  function StepForStatus(status: string): (step: int)
    ensures 1 <= step <= 4
    ensures step == 4 <==> status == "number_assigned" || status == "active"
    ensures step == 3 <==> status == "campaign_registered"
    ensures step == 2 <==> status == "brand_registered"
  {
    if status == "number_assigned" || status == "active" then 4
    else if status == "campaign_registered" then 3
    else if status == "brand_registered" then 2
    else 1
  }

  /** The step after the lookup, from step `current`: a row with a known
      status sets the step; no row, another status or an error keeps it. */
  function StepAfterFetch(current: int, f: Fetched): int {
    if f.errorCode.Some? && f.errorCode.value != "PGRST116" then current
    else match f.data
      case None => current
      case Some(r) => if StepForStatus(r.status) > 1 then StepForStatus(r.status) else current
  }

  /** The registration held after the lookup. */
  function RegistrationAfterFetch(current: Option<Registration>, f: Fetched): Option<Registration> {
    if f.errorCode.Some? && f.errorCode.value != "PGRST116" then current
    else if f.data.Some? then f.data
    else current
  }

  /** On opening, the panel lands on the step the status calls for, and on
      step 1 when there is no registration ("no row" is not an error). */
  lemma OpeningStep(f: Fetched)
    ensures f.errorCode != Some("PGRST116") && f.errorCode.Some? ==> StepAfterFetch(1, f) == 1
    ensures (f.errorCode.None? || f.errorCode == Some("PGRST116")) ==>
      StepAfterFetch(1, f) == if f.data.Some? then StepForStatus(f.data.value.status) else 1
  {
  }

  /** A row each registration route writes reopens the panel on the step
      that follows it: 2 after the brand, 3 after the campaign, 4 after the
      number. */
  lemma ReloadAgreesWithRoutes(userId: string, bf: RegisterBrand.BrandForm, sub: Option<string>, brand: Option<string>,
                               r: Registration, campaignSid: Option<string>, cf: RegisterCampaign.CampaignForm,
                               phone: Option<string>)
    ensures StepForStatus(RegisterBrand.NewRegistration(userId, bf, sub, brand).status) == 2
    ensures StepForStatus(RegisterCampaign.CampaignRegistered(r, campaignSid, cf).status) == 3
    ensures StepForStatus(BuyNumber.NumberAssigned(r, phone).status) == 4
  {
  }

  /** The panel's own defaults, 402 and US, are what the purchase route
      searches with; the country is ignored whatever it is. */
  lemma DefaultsMatchRoute()
    ensures BuyNumber.AreaCode(BuyNumber.NumberForm(Some("402"), Some("US"))) == "402"
    ensures BuyNumber.AreaCode(BuyNumber.NumberForm(Some(""), Some("US"))) == "402"
  {
  }

  datatype StepStatus = Complete | Pending

  /** The stepper: brand, campaign and number, each complete exactly when
      the registration holds a non-empty brand id, campaign id or phone number. */
  function Stepper(reg: Option<Registration>): (s: seq<StepStatus>)
    ensures |s| == 3
    ensures s[0] == Complete <==> reg.Some? && Truthy(reg.value.brandId)
    ensures s[1] == Complete <==> reg.Some? && Truthy(reg.value.campaignId)
    ensures s[2] == Complete <==> reg.Some? && Truthy(reg.value.phoneNumber)
  {
    var done := (x: Option<string>) => if Truthy(x) then Complete else Pending;
    match reg
    case None => [Pending, Pending, Pending]
    case Some(r) => [done(r.brandId), done(r.campaignId), done(r.phoneNumber)]
  }

  /** Buying a number completes the third step only: brand and campaign
      stay as they were. */
  lemma NumberCompletesLastStep(r: Registration, phone: string)
    requires phone != ""
    ensures var s := Stepper(Some(BuyNumber.NumberAssigned(r, Some(phone))));
      s[2] == Complete && s[..2] == Stepper(Some(r))[..2]
  {
  }

  class Panel {
    var registration: Option<Registration>
    var isLoading: bool
    var currentStep: int
    var areaCode: string
    var countryCode: string
    var isRegisteringBrand: bool
    var isRegisteringCampaign: bool
    var isBuyingNumber: bool

    constructor()
      ensures registration.None? && isLoading && currentStep == 1
      ensures areaCode == "402" && countryCode == "US"
      ensures !isRegisteringBrand && !isRegisteringCampaign && !isBuyingNumber
    {
      registration := None;
      isLoading := true;
      currentStep := 1;
      areaCode := "402";
      countryCode := "US";
      isRegisteringBrand := false;
      isRegisteringCampaign := false;
      isBuyingNumber := false;
    }

    /** `fetchRegistration`: a lookup error other than "no row" is logged
        and changes nothing; loading ends in every case. */
    method FetchRegistration(f: Fetched)
      modifies this
      ensures currentStep == StepAfterFetch(old(currentStep), f)
      ensures registration == RegistrationAfterFetch(old(registration), f)
      ensures !isLoading
      ensures areaCode == old(areaCode) && countryCode == old(countryCode)
      ensures isRegisteringBrand == old(isRegisteringBrand) && isRegisteringCampaign == old(isRegisteringCampaign)
      ensures isBuyingNumber == old(isBuyingNumber)
    {
      if f.errorCode.Some? && f.errorCode.value != "PGRST116" {
        isLoading := false;
        return;
      }
      if f.data.Some? {
        registration := f.data;
        var status := f.data.value.status;
        if status == "number_assigned" || status == "active" {
          currentStep := 4;
        } else if status == "campaign_registered" {
          currentStep := 3;
        } else if status == "brand_registered" {
          currentStep := 2;
        }
      }
      isLoading := false;
    }

    /** The common shape of the three handlers: on success take the
        route's registration and move to `next`; on failure keep both. */
    method Advance(reply: Reply, next: int)
      modifies this
      ensures reply.Succeeded? ==> registration == reply.registration && currentStep == next
      ensures reply.Failed? ==> registration == old(registration) && currentStep == old(currentStep)
      ensures isLoading == old(isLoading) && areaCode == old(areaCode) && countryCode == old(countryCode)
      ensures isRegisteringBrand == old(isRegisteringBrand) && isRegisteringCampaign == old(isRegisteringCampaign)
      ensures isBuyingNumber == old(isBuyingNumber)
    {
      if reply.Succeeded? {
        registration := reply.registration;
        currentStep := next;
      }
    }

    /** `handleRegisterBrand`: step 2 on success. */
    method HandleRegisterBrand(reply: Reply)
      modifies this
      ensures reply.Succeeded? ==> registration == reply.registration && currentStep == 2
      ensures reply.Failed? ==> registration == old(registration) && currentStep == old(currentStep)
      ensures !isRegisteringBrand
      ensures isLoading == old(isLoading) && areaCode == old(areaCode) && countryCode == old(countryCode)
      ensures isRegisteringCampaign == old(isRegisteringCampaign) && isBuyingNumber == old(isBuyingNumber)
    {
      isRegisteringBrand := true;
      Advance(reply, 2);
      isRegisteringBrand := false;
    }

    /** `handleRegisterCampaign`: step 3 on success. */
    method HandleRegisterCampaign(reply: Reply)
      modifies this
      ensures reply.Succeeded? ==> registration == reply.registration && currentStep == 3
      ensures reply.Failed? ==> registration == old(registration) && currentStep == old(currentStep)
      ensures !isRegisteringCampaign
      ensures isLoading == old(isLoading) && areaCode == old(areaCode) && countryCode == old(countryCode)
      ensures isRegisteringBrand == old(isRegisteringBrand) && isBuyingNumber == old(isBuyingNumber)
    {
      isRegisteringCampaign := true;
      Advance(reply, 3);
      isRegisteringCampaign := false;
    }

    /** `handleBuyNumber`: the request carries the form's area code and
        country; step 4 on success. */
    method HandleBuyNumber(reply: Reply) returns (request: BuyNumber.NumberForm)
      modifies this
      ensures request == BuyNumber.NumberForm(Some(old(areaCode)), Some(old(countryCode)))
      ensures reply.Succeeded? ==> registration == reply.registration && currentStep == 4
      ensures reply.Failed? ==> registration == old(registration) && currentStep == old(currentStep)
      ensures !isBuyingNumber
      ensures isLoading == old(isLoading) && areaCode == old(areaCode) && countryCode == old(countryCode)
      ensures isRegisteringBrand == old(isRegisteringBrand) && isRegisteringCampaign == old(isRegisteringCampaign)
    {
      request := BuyNumber.NumberForm(Some(areaCode), Some(countryCode));
      isBuyingNumber := true;
      Advance(reply, 4);
      isBuyingNumber := false;
    }
  }
}
