/// Rows of the database tables that the routes write. A field the routes
/// never write holds `None` when the row is created: the database's own
/// default, which is not part of this model.
module Schema {
  import opened Js

  /** A row of `campaign_contacts`. */
  datatype Contact = Contact(
    id: string,
    campaignId: string,
    leadName: Option<string>,
    phoneNumber: Option<string>,
    tags: seq<string>,
    status: Option<string>,
    messageCount: Option<int>,
    lastMessageSentAt: Option<int>,
    lastMessageAt: Option<int>)

  /** A row of `sms_messages`: an outbound send, an inbound reply, or one of a
      campaign's message templates. */
  datatype SmsMessage = SmsMessage(
    campaignId: string,
    contactId: Option<string>,
    body: string,
    messageType: Option<string>,
    sequenceNumber: Option<int>,
    direction: string,
    status: string,
    twilioSid: Option<string>,
    sentAt: Option<int>,
    deliveredAt: Option<int>,
    createdAt: Option<int>,
    errorMessage: Option<string>)

  /** The aggregate counters of an `sms_campaigns` row. */
  datatype CampaignCounters = CampaignCounters(campaignId: string, delivered: nat, replies: nat, failed: nat)

  /** A row of `a2p_registrations`: a user's progress through brand,
      campaign and number registration. */
  datatype Registration = Registration(
    userId: string,
    subaccountSid: Option<string>,
    brandId: Option<string>,
    campaignId: Option<string>,
    campaignName: Option<string>,
    useCase: Option<string>,
    phoneNumber: Option<string>,
    status: string,
    companyName: Option<string>,
    ein: Option<string>,
    vertical: Option<string>,
    contactName: Option<string>,
    contactEmail: Option<string>)

  /** A row of `twilio_accounts`. */
  datatype TwilioAccount = TwilioAccount(
    userId: string,
    accountSid: Option<string>,
    authToken: Option<string>,
    subaccountSid: Option<string>,
    phoneNumber: Option<string>)

  function RegistrationOf(userId: string): Registration -> bool {
    (r: Registration) => r.userId == userId
  }

  function AccountOf(userId: string): TwilioAccount -> bool {
    (a: TwilioAccount) => a.userId == userId
  }

  /** A lead as the campaign wizard holds it and sends it: a missing field
      is `None`. */
  datatype Lead = Lead(leadName: Option<string>, phoneNumber: Option<string>, tags: Option<seq<string>>)
}
