/// Campaign creation: a signed-in user's wizard data becomes a `draft`
/// campaign row, one contact row per lead and one pending template message
/// per sequence step, then an audit entry. Each insert is one statement;
/// the first one that fails ends the request with 500, after whatever was
/// written before it.
module CampaignCreation {
  import opened Js
  import opened Text
  import opened Schema

  /** The JSON body of the request. `leads` and `messages` are `None` when
      missing, which makes the route throw where it first reads them. The
      drip settings are sent by the wizard but never read. */
  datatype CampaignRequest = CampaignRequest(
    name: Option<string>,
    twilioPhoneNumber: Option<string>,
    batchSize: Num,
    leads: Option<seq<Lead>>,
    messages: Option<seq<string>>,
    dripSize: Num,
    dripIntervalDays: Num,
    messageIntervals: Option<seq<Num>>)

  /** A row of `sms_campaigns` as the route creates it; `id` is assigned by the database. */
  datatype CampaignRow = CampaignRow(
    id: string,
    userId: string,
    name: Option<string>,
    twilioPhoneNumber: Option<string>,
    batchSize: Num,
    totalLeads: nat,
    status: string)

  /** A row the route inserts into `campaign_contacts`. */
  datatype NewContact = NewContact(campaignId: string, leadName: Option<string>, phoneNumber: Option<string>, tags: seq<string>)

  /** A row of `campaign_audit_logs`. */
  datatype AuditEntry = AuditEntry(campaignId: string, userId: string, action: string, name: Option<string>, totalLeads: nat)

  datatype Db = Db(campaigns: seq<CampaignRow>, contacts: seq<NewContact>, messages: seq<SmsMessage>, audit: seq<AuditEntry>)

  /** The errors the four inserts report, if any. The route checks the
      first three; the audit insert's error is never read. */
  datatype InsertErrors = InsertErrors(campaign: Option<string>, contacts: Option<string>, messages: Option<string>, audit: Option<string>)

  datatype Response = Unauthorized | ServerError | Created(campaign: CampaignRow)

  function HttpStatus(r: Response): nat {
    match r
    case Unauthorized => 401
    case ServerError => 500
    case Created(_) => 200
  }

  /** `contactsToInsert`: one row per lead, in order, tags defaulting to none. */
  function ContactsToInsert(campaignId: string, leads: seq<Lead>): (rows: seq<NewContact>)
    ensures |rows| == |leads|
    ensures forall i :: 0 <= i < |leads| ==>
      && rows[i].campaignId == campaignId
      && rows[i].leadName == leads[i].leadName
      && rows[i].phoneNumber == leads[i].phoneNumber
      && rows[i].tags == (if leads[i].tags.Some? then leads[i].tags.value else [])
  {
    seq(|leads|, i requires 0 <= i < |leads| =>
      NewContact(campaignId, leads[i].leadName, leads[i].phoneNumber,
                 match leads[i].tags case Some(t) => t case None => []))
  }

  /** The template of step `i + 1`. */
  function Template(campaignId: string, body: string, i: nat): SmsMessage {
    SmsMessage(campaignId, None, body, Some("sequence_" + NatToString(i + 1)), Some(i + 1),
               "outbound", "pending", None, None, None, None, None)
  }

  /** `messagesToInsert`: template `i` is step `i + 1` of the sequence. */
  function MessagesToInsert(campaignId: string, messages: seq<string>): (rows: seq<SmsMessage>)
    ensures |rows| == |messages|
    ensures forall i :: 0 <= i < |messages| ==> rows[i] == Template(campaignId, messages[i], i)
  {
    seq(|messages|, i requires 0 <= i < |messages| => Template(campaignId, messages[i], i))
  }

  /** The templates carry the bodies in order, numbered 1, 2, 3, ... as
      outbound pending messages of the campaign, and nothing is lost. */
  lemma TemplatesNumbered(campaignId: string, messages: seq<string>)
    ensures var rows := MessagesToInsert(campaignId, messages);
      && (forall i :: 0 <= i < |rows| ==>
            && rows[i].sequenceNumber == Some(i + 1)
            && rows[i].messageType == Some("sequence_" + NatToString(i + 1))
            && rows[i].direction == "outbound" && rows[i].status == "pending"
            && rows[i].campaignId == campaignId)
      && (forall i, j :: 0 <= i < j < |rows| ==> rows[i].sequenceNumber != rows[j].sequenceNumber)
      && seq(|rows|, i requires 0 <= i < |rows| => rows[i].body) == messages
  {
  }

  /** The whole route. `newId` is the id the database gives the campaign. */
  function Route(db: Db, user: Option<string>, req: CampaignRequest, newId: string, errors: InsertErrors): (Response, Db)
  {
    if user.None? then (Unauthorized, db)
    else if req.leads.None? then (ServerError, db)
    else
      var leads := req.leads.value;
      var campaign := CampaignRow(newId, user.value, req.name, req.twilioPhoneNumber, req.batchSize, |leads|, "draft");
      if errors.campaign.Some? then (ServerError, db)
      else
        var db1 := db.(campaigns := db.campaigns + [campaign]);
        if errors.contacts.Some? then (ServerError, db1)
        else
          var db2 := db1.(contacts := db1.contacts + ContactsToInsert(newId, leads));
          if req.messages.None? || errors.messages.Some? then (ServerError, db2)
          else
            var db3 := db2.(messages := db2.messages + MessagesToInsert(newId, req.messages.value));
            if errors.audit.Some? then (Created(campaign), db3)
            else (Created(campaign), db3.(audit := db3.audit + [AuditEntry(newId, user.value, "campaign_created", req.name, |leads|)]))
  }

  /** An unauthenticated request writes nothing. */
  lemma UnauthorizedWritesNothing(db: Db, req: CampaignRequest, newId: string, errors: InsertErrors)
    ensures Route(db, None, req, newId, errors) == (Unauthorized, db)
  {
  }

  /** When all four inserts succeed, the route adds one `draft` campaign of
      the user counting every lead, one contact per lead, one template per
      message, and one audit entry, and writes nothing else. */
  lemma CreationWritesAll(db: Db, user: string, req: CampaignRequest, newId: string)
    requires req.leads.Some? && req.messages.Some?
    ensures var (resp, db') := Route(db, Some(user), req, newId, InsertErrors(None, None, None, None));
      && resp.Created?
      && resp.campaign.status == "draft" && resp.campaign.totalLeads == |req.leads.value|
      && resp.campaign.userId == user && resp.campaign.id == newId
      && db'.campaigns == db.campaigns + [resp.campaign]
      && db'.contacts == db.contacts + ContactsToInsert(newId, req.leads.value)
      && |db'.contacts| == |db.contacts| + |req.leads.value|
      && db'.messages == db.messages + MessagesToInsert(newId, req.messages.value)
      && db'.audit == db.audit + [AuditEntry(newId, user, "campaign_created", req.name, |req.leads.value|)]
  {
  }

  /** A failed contacts insert stops the route before any template or
      audit entry is written; the campaign row stays. */
  lemma ContactsErrorStopsTemplates(db: Db, user: string, req: CampaignRequest, newId: string, e: string, m: Option<string>, a: Option<string>)
    requires req.leads.Some?
    ensures var (resp, db') := Route(db, Some(user), req, newId, InsertErrors(None, Some(e), m, a));
      && resp == ServerError
      && |db'.campaigns| == |db.campaigns| + 1
      && db'.contacts == db.contacts && db'.messages == db.messages && db'.audit == db.audit
  {
  }

  /** A failed audit insert goes unnoticed: the route still answers with
      the campaign, and every other table is written as on full success. */
  lemma AuditErrorIgnored(db: Db, user: string, req: CampaignRequest, newId: string, e: string)
    requires req.leads.Some? && req.messages.Some?
    ensures var (resp, db') := Route(db, Some(user), req, newId, InsertErrors(None, None, None, Some(e)));
      var (okResp, okDb) := Route(db, Some(user), req, newId, InsertErrors(None, None, None, None));
      && resp == okResp && resp.Created?
      && db' == okDb.(audit := db.audit)
  {
  }

  /** The drip size, the drip interval and the message intervals in the
      request make no difference to anything the route writes or answers. */
  lemma DripSettingsNotPersisted(db: Db, user: Option<string>, req: CampaignRequest, newId: string, errors: InsertErrors,
                                 dripSize: Num, dripIntervalDays: Num, intervals: Option<seq<Num>>)
    ensures Route(db, user, req, newId, errors) ==
      Route(db, user, req.(dripSize := dripSize, dripIntervalDays := dripIntervalDays, messageIntervals := intervals), newId, errors)
  {
  }

  class CampaignStore {
    var campaigns: seq<CampaignRow>
    var contacts: seq<NewContact>
    var messages: seq<SmsMessage>
    var audit: seq<AuditEntry>

    function Snapshot(): Db
      reads this
    {
      Db(campaigns, contacts, messages, audit)
    }

    constructor(db: Db)
      ensures Snapshot() == db
    {
      campaigns := db.campaigns;
      contacts := db.contacts;
      messages := db.messages;
      audit := db.audit;
    }

    method Post(user: Option<string>, req: CampaignRequest, newId: string, errors: InsertErrors) returns (resp: Response)
      modifies this
      ensures (resp, Snapshot()) == Route(old(Snapshot()), user, req, newId, errors)
    {
      if user.None? {
        return Unauthorized;
      }
      if req.leads.None? {
        return ServerError;
      }
      var leads := req.leads.value;
      var campaign := CampaignRow(newId, user.value, req.name, req.twilioPhoneNumber, req.batchSize, |leads|, "draft");
      if errors.campaign.Some? {
        return ServerError;
      }
      campaigns := campaigns + [campaign];
      if errors.contacts.Some? {
        return ServerError;
      }
      contacts := contacts + ContactsToInsert(newId, leads);
      if req.messages.None? || errors.messages.Some? {
        return ServerError;
      }
      messages := messages + MessagesToInsert(newId, req.messages.value);
      if errors.audit.None? {
        audit := audit + [AuditEntry(newId, user.value, "campaign_created", req.name, |leads|)];
      }
      resp := Created(campaign);
    }
  }
}
