/// The bulk send: a signed-in user sends one message body to a list of a
/// campaign's contacts through the campaign's carrier account. Each contact
/// is one call of the carrier's HTTP API; a send is logged as `sent` with
/// its sid and recorded as a campaign event, a rejection is logged as
/// `failed` with the API's message, and a call that throws is only
/// reported. One contact's failure never stops the others.
module BulkSend {
  import opened Js
  import opened Tables
  import opened Schema

  /** An element of the request's `contacts` array. */
  datatype Recipient = Recipient(id: Option<string>, phoneNumber: Option<string>)

  /** The JSON body of the request; `None` is a missing or null field. */
  datatype Request = Request(campaignId: Option<string>, messageBody: Option<string>, contacts: Option<seq<Recipient>>)

  /** A campaign joined with its carrier account (the join is an inner join,
      so a campaign without an account is not among these rows). */
  datatype OwnedCampaign = OwnedCampaign(id: string, userId: string, twilioPhoneNumber: Option<string>, accountSid: string)

  /** What happened to one contact's call: an OK response (with the sid the
      API returned), a non-OK response (with the API's message), or an
      exception (with its message). */
  datatype Outcome = Ok(sid: Option<string>) | Rejected(apiMessage: Option<string>) | Threw(message: Option<string>)

  /** One call of the carrier's messages endpoint. */
  datatype SendRequest = SendRequest(accountSid: string, to: Option<string>, from: Option<string>, body: string)

  /** A call of the `log_campaign_event` procedure. */
  datatype CampaignEvent = CampaignEvent(campaignId: string, eventType: string, details: string)

  /** One element of the response's `results`. */
  datatype SendResult = SendResult(phoneNumber: Option<string>, success: bool, sid: Option<string>, error: Option<string>)

  /** The message log and the campaign events the route writes. */
  datatype Log = Log(messages: seq<SmsMessage>, events: seq<CampaignEvent>)

  datatype Run = Run(log: Log, results: seq<SendResult>)

  datatype Response = Unauthorized | MissingFields | CampaignNotFound | Sent(results: seq<SendResult>)

  function HttpStatus(r: Response): nat {
    match r
    case Unauthorized => 401
    case MissingFields => 400
    case CampaignNotFound => 404
    case Sent(_) => 200
  }

  /** A template literal's rendering of a possibly missing string. */
  function Shown(s: Option<string>): string {
    match s case None => "undefined" case Some(v) => v
  }

  /** The request lacks a campaign, a body, or a non-empty contact list. */
  predicate Incomplete(req: Request) {
    !Truthy(req.campaignId) || !Truthy(req.messageBody) || req.contacts.None? || |req.contacts.value| == 0
  }

  function IsOwned(campaignId: string, userId: string): OwnedCampaign -> bool {
    (c: OwnedCampaign) => c.id == campaignId && c.userId == userId
  }

  /** A call of the `log_sms_message` procedure, as the row it adds. */
  function LoggedRow(campaignId: string, contact: Recipient, body: string, status: string, sid: Option<string>, now: int): SmsMessage {
    SmsMessage(campaignId, contact.id, body, None, None, "outbound", status, sid, None, None, Some(now), None)
  }

  function IsFailedOf(campaignId: string, contactId: Option<string>): SmsMessage -> bool {
    (m: SmsMessage) => m.campaignId == campaignId && m.contactId == contactId && m.status == "failed"
  }

  function SentEvent(campaignId: string, contact: Recipient): CampaignEvent {
    CampaignEvent(campaignId, "Message Sent", "Message sent to " + Shown(contact.phoneNumber))
  }

  /** One iteration of the loop. */
  function Step(log: Log, campaignId: string, body: string, contact: Recipient, outcome: Outcome, now: int): (r: Run)
    ensures |r.results| == 1 && r.results[0].phoneNumber == contact.phoneNumber
    ensures r.results[0].success <==> outcome.Ok?
    ensures outcome.Ok? ==> r.results[0].sid == outcome.sid
    ensures outcome.Rejected? ==> r.results[0].error == outcome.apiMessage
    ensures outcome.Threw? ==> r.results[0].error == outcome.message
  {
    match outcome
    case Ok(sid) =>
      Run(Log(log.messages + [LoggedRow(campaignId, contact, body, "sent", sid, now)],
              log.events + [SentEvent(campaignId, contact)]),
          [SendResult(contact.phoneNumber, true, sid, None)])
    case Rejected(m) =>
      var logged := log.messages + [LoggedRow(campaignId, contact, body, "failed", None, now)];
      Run(Log(UpdateLast(logged, IsFailedOf(campaignId, contact.id), (r: SmsMessage) => r.(errorMessage := m)),
              log.events),
          [SendResult(contact.phoneNumber, false, None, m)])
    case Threw(m) =>
      Run(log, [SendResult(contact.phoneNumber, false, None, m)])
  }

  /** The loop over the contacts, in order: one result per contact, each
      success exactly when its call was OK, and the log only growing. */
  function SendAll(log: Log, campaignId: string, body: string, contacts: seq<Recipient>, outcomes: seq<Outcome>, now: int): (r: Run)
    requires |outcomes| == |contacts|
    ensures |r.results| == |contacts|
    ensures forall i :: 0 <= i < |contacts| ==>
      && r.results[i].phoneNumber == contacts[i].phoneNumber
      && (r.results[i].success <==> outcomes[i].Ok?)
      && (outcomes[i].Ok? ==> r.results[i].sid == outcomes[i].sid)
      && (outcomes[i].Rejected? ==> r.results[i].error == outcomes[i].apiMessage)
      && (outcomes[i].Threw? ==> r.results[i].error == outcomes[i].message)
    ensures |log.messages| <= |r.log.messages| && |log.events| <= |r.log.events|
    ensures r.log.messages[..|log.messages|] == log.messages && r.log.events[..|log.events|] == log.events
    decreases |contacts|
  {
    if contacts == [] then Run(log, [])
    else
      var n := |contacts| - 1;
      var prev := SendAll(log, campaignId, body, contacts[..n], outcomes[..n], now);
      var last := Step(prev.log, campaignId, body, contacts[n], outcomes[n], now);
      assert last.log.events[..|prev.log.events|] == prev.log.events;
      assert last.log.messages[..|prev.log.messages|] == prev.log.messages by {
        if outcomes[n].Rejected? {
          RejectedStepLogs(prev.log, campaignId, body, contacts[n], outcomes[n].apiMessage, now);
        }
      }
      var results := prev.results + last.results;
      assert forall i :: 0 <= i < n ==> results[i] == prev.results[i] && contacts[..n][i] == contacts[i] && outcomes[..n][i] == outcomes[i];
      assert results[n] == last.results[0];
      Run(last.log, results)
  }

  /** Sending to one more contact is one more `Step` after the run so far. */
  lemma SendAllExtend(log: Log, campaignId: string, body: string, contacts: seq<Recipient>, outcomes: seq<Outcome>, now: int, i: nat)
    requires |outcomes| == |contacts| && i < |contacts|
    ensures var prev := SendAll(log, campaignId, body, contacts[..i], outcomes[..i], now);
      var last := Step(prev.log, campaignId, body, contacts[i], outcomes[i], now);
      SendAll(log, campaignId, body, contacts[..i + 1], outcomes[..i + 1], now) == Run(last.log, prev.results + last.results)
  {
    assert contacts[..i + 1][..i] == contacts[..i];
    assert outcomes[..i + 1][..i] == outcomes[..i];
  }

  /** The carrier calls the loop makes: one per contact, in order. */
  function Calls(campaign: OwnedCampaign, body: string, contacts: seq<Recipient>): (calls: seq<SendRequest>)
    ensures |calls| == |contacts|
    ensures forall i :: 0 <= i < |contacts| ==>
      calls[i] == SendRequest(campaign.accountSid, contacts[i].phoneNumber, campaign.twilioPhoneNumber, body)
  {
    seq(|contacts|, i requires 0 <= i < |contacts| =>
      SendRequest(campaign.accountSid, contacts[i].phoneNumber, campaign.twilioPhoneNumber, body))
  }

  /** Calling one more contact is one more request after the calls so far. */
  lemma CallsExtend(campaign: OwnedCampaign, body: string, contacts: seq<Recipient>, i: nat)
    requires i < |contacts|
    ensures Calls(campaign, body, contacts[..i + 1])
      == Calls(campaign, body, contacts[..i]) + [SendRequest(campaign.accountSid, contacts[i].phoneNumber, campaign.twilioPhoneNumber, body)]
  {
    assert contacts[..i + 1][..i] == contacts[..i];
  }

  /** A successful call logs one outbound `sent` row with the returned sid
      and one `Message Sent` event. */
  lemma OkStepLogs(log: Log, campaignId: string, body: string, contact: Recipient, sid: Option<string>, now: int)
    ensures var r := Step(log, campaignId, body, contact, Ok(sid), now);
      && r.log.messages == log.messages + [LoggedRow(campaignId, contact, body, "sent", sid, now)]
      && r.log.messages[|log.messages|].direction == "outbound"
      && r.log.messages[|log.messages|].twilioSid == sid
      && r.log.events == log.events + [CampaignEvent(campaignId, "Message Sent", "Message sent to " + Shown(contact.phoneNumber))]
  {
  }

  /** A rejected call logs one outbound `failed` row without a sid, and the
      API's message lands on that very row, since it is the newest failed
      row of the contact. Earlier rows and the events are untouched. */
  lemma RejectedStepLogs(log: Log, campaignId: string, body: string, contact: Recipient, m: Option<string>, now: int)
    ensures var r := Step(log, campaignId, body, contact, Rejected(m), now);
      && r.log.messages == log.messages + [LoggedRow(campaignId, contact, body, "failed", None, now).(errorMessage := m)]
      && r.log.messages[|log.messages|].twilioSid == None
      && r.log.messages[|log.messages|].status == "failed"
      && r.log.events == log.events
  {
    var logged := log.messages + [LoggedRow(campaignId, contact, body, "failed", None, now)];
    var p := IsFailedOf(campaignId, contact.id);
    assert p(logged[|logged| - 1]);
    assert LastIndex(logged, p) == Some(|logged| - 1);
  }

  /** A call that throws writes nothing. */
  lemma ThrewStepWritesNothing(log: Log, campaignId: string, body: string, contact: Recipient, m: Option<string>, now: int)
    ensures Step(log, campaignId, body, contact, Threw(m), now).log == log
  {
  }

  /** The whole route. */
  function Route(log: Log, user: Option<string>, req: Request, campaigns: seq<OwnedCampaign>, outcomes: seq<Outcome>, now: int): (Response, Log, seq<SendRequest>)
    requires req.contacts.Some? ==> |outcomes| == |req.contacts.value|
  {
    if user.None? then (Unauthorized, log, [])
    else if Incomplete(req) then (MissingFields, log, [])
    else match Single(campaigns, IsOwned(req.campaignId.value, user.value))
      case None => (CampaignNotFound, log, [])
      case Some(campaign) =>
        var r := SendAll(log, req.campaignId.value, req.messageBody.value, req.contacts.value, outcomes, now);
        (Sent(r.results), r.log, Calls(campaign, req.messageBody.value, req.contacts.value))
  }

  /** Every rejection (401, 400, 404) happens before any carrier call and
      any write; only an owned campaign with a complete request sends. */
  lemma RejectionsSendNothing(log: Log, user: Option<string>, req: Request, campaigns: seq<OwnedCampaign>, outcomes: seq<Outcome>, now: int)
    requires req.contacts.Some? ==> |outcomes| == |req.contacts.value|
    ensures var (resp, log', calls) := Route(log, user, req, campaigns, outcomes, now);
      && (!resp.Sent? ==> log' == log && calls == [])
      && (user.None? ==> resp == Unauthorized)
      && (user.Some? && Incomplete(req) ==> resp == MissingFields)
      && (resp.Sent? ==>
            user.Some? && !Incomplete(req) &&
            exists k :: 0 <= k < |campaigns| && campaigns[k].id == req.campaignId.value && campaigns[k].userId == user.value)
  {
    if user.Some? && !Incomplete(req) {
      var p := IsOwned(req.campaignId.value, user.value);
      var found := Single(campaigns, p);
      if found.Some? {
        var k :| 0 <= k < |campaigns| && campaigns[k] == found.value;
        assert p(campaigns[k]);
      }
    }
  }

  /** A campaign that is not the user's is never sent from. */
  lemma OtherUsersCampaignNotFound(log: Log, user: string, req: Request, campaigns: seq<OwnedCampaign>, outcomes: seq<Outcome>, now: int)
    requires req.contacts.Some? ==> |outcomes| == |req.contacts.value|
    requires !Incomplete(req)
    requires forall k :: 0 <= k < |campaigns| && campaigns[k].id == req.campaignId.value ==> campaigns[k].userId != user
    ensures Route(log, Some(user), req, campaigns, outcomes, now) == (CampaignNotFound, log, [])
  {
    WhereNone(campaigns, IsOwned(req.campaignId.value, user));
  }

  /** The one campaign with that id owned by the user is sent from: one
      carrier call per contact, from the campaign's number and account. */
  lemma OwnedCampaignSends(log: Log, user: string, req: Request, campaigns: seq<OwnedCampaign>, outcomes: seq<Outcome>, now: int, k: nat)
    requires req.contacts.Some? ==> |outcomes| == |req.contacts.value|
    requires !Incomplete(req)
    requires k < |campaigns| && campaigns[k].id == req.campaignId.value && campaigns[k].userId == user
    requires forall j :: 0 <= j < |campaigns| && j != k ==> campaigns[j].id != req.campaignId.value
    ensures var (resp, _, calls) := Route(log, Some(user), req, campaigns, outcomes, now);
      && resp.Sent? && |resp.results| == |req.contacts.value|
      && calls == Calls(campaigns[k], req.messageBody.value, req.contacts.value)
  {
    WhereOne(campaigns, IsOwned(req.campaignId.value, user), k);
  }

  class BulkSender {
    var messages: seq<SmsMessage>
    var events: seq<CampaignEvent>

    function Snapshot(): Log
      reads this
    {
      Log(messages, events)
    }

    constructor(messages: seq<SmsMessage>, events: seq<CampaignEvent>)
      ensures Snapshot() == Log(messages, events)
    {
      this.messages := messages;
      this.events := events;
    }

    /** The body of the loop for one contact. */
    method SendOne(campaignId: string, body: string, contact: Recipient, outcome: Outcome, now: int) returns (result: SendResult)
      modifies this
      ensures Run(Snapshot(), [result]) == Step(old(Snapshot()), campaignId, body, contact, outcome, now)
    {
      match outcome {
        case Ok(sid) =>
          messages := messages + [LoggedRow(campaignId, contact, body, "sent", sid, now)];
          events := events + [SentEvent(campaignId, contact)];
          result := SendResult(contact.phoneNumber, true, sid, None);
        case Rejected(m) =>
          messages := messages + [LoggedRow(campaignId, contact, body, "failed", None, now)];
          messages := UpdateLast(messages, IsFailedOf(campaignId, contact.id), (r: SmsMessage) => r.(errorMessage := m));
          result := SendResult(contact.phoneNumber, false, None, m);
        case Threw(m) =>
          result := SendResult(contact.phoneNumber, false, None, m);
      }
    }

    /** The loop over the contacts. */
    method SendEach(campaign: OwnedCampaign, campaignId: string, body: string, contacts: seq<Recipient>, outcomes: seq<Outcome>, now: int)
      returns (results: seq<SendResult>, calls: seq<SendRequest>)
      requires |outcomes| == |contacts|
      modifies this
      ensures Run(Snapshot(), results) == SendAll(old(Snapshot()), campaignId, body, contacts, outcomes, now)
      ensures calls == Calls(campaign, body, contacts)
    {
      ghost var start := Snapshot();
      results := [];
      calls := [];
      var i := 0;
      while i < |contacts|
        invariant 0 <= i <= |contacts|
        invariant Run(Snapshot(), results) == SendAll(start, campaignId, body, contacts[..i], outcomes[..i], now)
        invariant calls == Calls(campaign, body, contacts[..i])
      {
        CallsExtend(campaign, body, contacts, i);
        calls := calls + [SendRequest(campaign.accountSid, contacts[i].phoneNumber, campaign.twilioPhoneNumber, body)];
        var result := SendOne(campaignId, body, contacts[i], outcomes[i], now);
        results := results + [result];
        SendAllExtend(start, campaignId, body, contacts, outcomes, now, i);
        i := i + 1;
      }
      assert contacts[..i] == contacts;
      assert outcomes[..i] == outcomes;
    }

    /** The route: the guards, then one carrier call per contact. */
    method Post(user: Option<string>, req: Request, campaigns: seq<OwnedCampaign>, outcomes: seq<Outcome>, now: int)
      returns (resp: Response, calls: seq<SendRequest>)
      requires req.contacts.Some? ==> |outcomes| == |req.contacts.value|
      modifies this
      ensures (resp, Snapshot(), calls) == Route(old(Snapshot()), user, req, campaigns, outcomes, now)
    {
      if user.None? {
        return Unauthorized, [];
      }
      if Incomplete(req) {
        return MissingFields, [];
      }
      var campaign := Single(campaigns, IsOwned(req.campaignId.value, user.value));
      if campaign.None? {
        return CampaignNotFound, [];
      }
      var results;
      results, calls := SendEach(campaign.value, req.campaignId.value, req.messageBody.value, req.contacts.value, outcomes, now);
      resp := Sent(results);
    }
  }
}
