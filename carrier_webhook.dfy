/// The carrier's status callback. One request may carry an inbound reply
/// from a lead (`Body` and `From`), a delivery receipt for an earlier send
/// (`MessageSid` and `MessageStatus`), or both; the two branches run one
/// after the other and each acts only on the row it finds.
module CarrierWebhook {
  import opened Js
  import opened Tables
  import opened Schema

  /** The form fields the route reads; `None` is a field the form lacks. */
  datatype Form = Form(
    messageSid: Option<string>,
    messageStatus: Option<string>,
    from: Option<string>,
    to: Option<string>,
    body: Option<string>)

  /** The tables the callback writes. */
  datatype Db = Db(contacts: seq<Contact>, messages: seq<SmsMessage>, counters: seq<CampaignCounters>)

  function HasPhone(phone: string): Contact -> bool {
    (c: Contact) => c.phoneNumber == Some(phone)
  }

  function IsContact(id: string): Contact -> bool {
    (c: Contact) => c.id == id
  }

  function HasSid(sid: string): SmsMessage -> bool {
    (m: SmsMessage) => m.twilioSid == Some(sid)
  }

  function OfCampaign(id: string): CampaignCounters -> bool {
    (c: CampaignCounters) => c.campaignId == id
  }

  /** The `increment_campaign_replies` procedure, as one more reply on the campaign's row. */
  function IncrementReplies(counters: seq<CampaignCounters>, campaignId: string): seq<CampaignCounters> {
    Update(counters, OfCampaign(campaignId), (c: CampaignCounters) => c.(replies := c.replies + 1))
  }

  /** The `increment_campaign_delivered` procedure. */
  function IncrementDelivered(counters: seq<CampaignCounters>, campaignId: string): seq<CampaignCounters> {
    Update(counters, OfCampaign(campaignId), (c: CampaignCounters) => c.(delivered := c.delivered + 1))
  }

  /** The `increment_campaign_failed` procedure. */
  function IncrementFailed(counters: seq<CampaignCounters>, campaignId: string): seq<CampaignCounters> {
    Update(counters, OfCampaign(campaignId), (c: CampaignCounters) => c.(failed := c.failed + 1))
  }

  /** The log entry of a reply from a lead. */
  function ReplyEntry(contact: Contact, body: string, sid: Option<string>, now: int): SmsMessage {
    SmsMessage(contact.campaignId, Some(contact.id), body, Some("reply"), None,
               "inbound", "received", sid, None, None, Some(now), None)
  }

  /** The inbound branch: runs when the body and the sender are both
      non-empty, and writes only when exactly one contact has that number. */
  function Inbound(s: Db, form: Form, now: int): Db {
    if !(Truthy(form.body) && Truthy(form.from)) then s
    else match Single(s.contacts, HasPhone(form.from.value))
      case None => s
      case Some(contact) =>
        Db(
          Update(s.contacts, IsContact(contact.id),
                 (c: Contact) => c.(status := Some("replied"), lastMessageAt := Some(now))),
          s.messages + [ReplyEntry(contact, form.body.value, form.messageSid, now)],
          IncrementReplies(s.counters, contact.campaignId))
  }

  /** The new status (and, for `delivered`, the delivery time) of a message row. */
  function Receipted(m: SmsMessage, status: string, now: int): SmsMessage {
    if status == "delivered" then m.(status := status, deliveredAt := Some(now)) else m.(status := status)
  }

  /** The receipt branch: runs when the sid and the status are both
      non-empty, and writes only when exactly one message carries that sid. */
  function Receipt(s: Db, form: Form, now: int): Db {
    if !(Truthy(form.messageSid) && Truthy(form.messageStatus)) then s
    else
      var sid := form.messageSid.value;
      var status := form.messageStatus.value;
      match Single(s.messages, HasSid(sid))
      case None => s
      case Some(message) =>
        var counters :=
          if status == "delivered" then IncrementDelivered(s.counters, message.campaignId)
          else if status == "failed" || status == "undelivered" then IncrementFailed(s.counters, message.campaignId)
          else s.counters;
        Db(s.contacts, Update(s.messages, HasSid(sid), (m: SmsMessage) => Receipted(m, status, now)), counters)
  }

  /** A whole request: the inbound branch, then the receipt branch. */
  function Handle(s: Db, form: Form, now: int): Db {
    Receipt(Inbound(s, form, now), form, now)
  }

  /** Without both a body and a sender, the inbound branch writes nothing. */
  lemma InboundNeedsBodyAndSender(s: Db, form: Form, now: int)
    requires !Truthy(form.body) || !Truthy(form.from)
    ensures Inbound(s, form, now) == s
  {
  }

  /** A reply from a number that no contact has writes nothing. */
  lemma UnknownSenderWritesNothing(s: Db, form: Form, now: int)
    requires Truthy(form.from)
    requires forall j :: 0 <= j < |s.contacts| ==> s.contacts[j].phoneNumber != form.from
    ensures Inbound(s, form, now) == s
  {
    WhereNone(s.contacts, HasPhone(form.from.value));
  }

  /** A reply from the one contact with that number logs one inbound
      `received` entry, marks that contact (and no other) `replied`, and adds
      one reply to that contact's campaign and to no other counter. */
  lemma KnownSenderReply(s: Db, form: Form, now: int, k: nat)
    requires Truthy(form.body) && Truthy(form.from)
    requires k < |s.contacts| && s.contacts[k].phoneNumber == form.from
    requires forall j :: 0 <= j < |s.contacts| && j != k ==> s.contacts[j].phoneNumber != form.from
    requires forall j :: 0 <= j < |s.contacts| && j != k ==> s.contacts[j].id != s.contacts[k].id
    ensures var r := Inbound(s, form, now);
      var c := s.contacts[k];
      && r.messages == s.messages + [ReplyEntry(c, form.body.value, form.messageSid, now)]
      && ReplyEntry(c, form.body.value, form.messageSid, now).direction == "inbound"
      && ReplyEntry(c, form.body.value, form.messageSid, now).status == "received"
      && r.contacts == s.contacts[k := c.(status := Some("replied"), lastMessageAt := Some(now))]
      && |r.counters| == |s.counters|
      && (forall j :: 0 <= j < |s.counters| ==>
            r.counters[j] == if s.counters[j].campaignId == c.campaignId
                             then s.counters[j].(replies := s.counters[j].replies + 1)
                             else s.counters[j])
  {
    WhereOne(s.contacts, HasPhone(form.from.value), k);
    var r := Inbound(s, form, now);
    var c := s.contacts[k];
    assert r.contacts == s.contacts[k := c.(status := Some("replied"), lastMessageAt := Some(now))];
  }

  /** Without both a sid and a status, the receipt branch writes nothing;
      nor does it when no message carries the sid. */
  lemma ReceiptNeedsKnownSid(s: Db, form: Form, now: int)
    requires !Truthy(form.messageSid) || !Truthy(form.messageStatus) ||
             forall j :: 0 <= j < |s.messages| ==> s.messages[j].twilioSid != form.messageSid
    ensures Receipt(s, form, now) == s
  {
    if Truthy(form.messageSid) && Truthy(form.messageStatus) {
      WhereNone(s.messages, HasSid(form.messageSid.value));
    }
  }

  /** A receipt for the one message with that sid overwrites its status
      (stamping the delivery time when `delivered`), touches no other
      message and no contact, and bumps the delivered counter for
      `delivered`, the failed counter for `failed` and `undelivered`, and no
      counter for any other status. Replies are never counted here. */
  lemma KnownSidReceipt(s: Db, form: Form, now: int, k: nat)
    requires Truthy(form.messageSid) && Truthy(form.messageStatus)
    requires k < |s.messages| && s.messages[k].twilioSid == form.messageSid
    requires forall j :: 0 <= j < |s.messages| && j != k ==> s.messages[j].twilioSid != form.messageSid
    ensures var r := Receipt(s, form, now);
      var m := s.messages[k];
      var status := form.messageStatus.value;
      && r.contacts == s.contacts
      && r.messages == s.messages[k := Receipted(m, status, now)]
      && r.messages[k].status == status
      && r.messages[k].deliveredAt == (if status == "delivered" then Some(now) else m.deliveredAt)
      && |r.counters| == |s.counters|
      && (forall j :: 0 <= j < |s.counters| ==>
            var c := s.counters[j];
            r.counters[j] ==
              if c.campaignId != m.campaignId then c
              else if status == "delivered" then c.(delivered := c.delivered + 1)
              else if status == "failed" || status == "undelivered" then c.(failed := c.failed + 1)
              else c)
  {
    WhereOne(s.messages, HasSid(form.messageSid.value), k);
    var r := Receipt(s, form, now);
    assert r.messages == s.messages[k := Receipted(s.messages[k], form.messageStatus.value, now)];
  }

  /** The receipt branch never touches contacts or reply counts, so a reply
      handled by the inbound branch survives a receipt in the same request. */
  lemma ReceiptKeepsReplies(s: Db, form: Form, now: int)
    ensures var r := Receipt(s, form, now);
      && r.contacts == s.contacts
      && |r.counters| == |s.counters|
      && forall j :: 0 <= j < |s.counters| ==>
           r.counters[j].replies == s.counters[j].replies && r.counters[j].campaignId == s.counters[j].campaignId
  {
  }

  /** The inbound branch never touches delivery or failure counts, nor any
      logged message. */
  lemma InboundKeepsReceipts(s: Db, form: Form, now: int)
    ensures var r := Inbound(s, form, now);
      && |s.messages| <= |r.messages| && r.messages[..|s.messages|] == s.messages
      && |r.counters| == |s.counters|
      && forall j :: 0 <= j < |s.counters| ==>
           r.counters[j].delivered == s.counters[j].delivered && r.counters[j].failed == s.counters[j].failed
  {
  }

  class Webhook {
    var contacts: seq<Contact>
    var messages: seq<SmsMessage>
    var counters: seq<CampaignCounters>

    function Snapshot(): Db
      reads this
    {
      Db(contacts, messages, counters)
    }

    constructor(contacts: seq<Contact>, messages: seq<SmsMessage>, counters: seq<CampaignCounters>)
      ensures Snapshot() == Db(contacts, messages, counters)
    {
      this.contacts := contacts;
      this.messages := messages;
      this.counters := counters;
    }

    /** The route: the inbound branch, then the receipt branch, each writing
        the tables in the order the route does. */
    method Post(form: Form, now: int)
      modifies this
      ensures Snapshot() == Handle(old(Snapshot()), form, now)
    {
      if Truthy(form.body) && Truthy(form.from) {
        var contact := Single(contacts, HasPhone(form.from.value));
        if contact.Some? {
          var c := contact.value;
          messages := messages + [ReplyEntry(c, form.body.value, form.messageSid, now)];
          contacts := Update(contacts, IsContact(c.id),
                             (x: Contact) => x.(status := Some("replied"), lastMessageAt := Some(now)));
          counters := IncrementReplies(counters, c.campaignId);
        }
      }
      assert Snapshot() == Inbound(old(Snapshot()), form, now);

      if Truthy(form.messageSid) && Truthy(form.messageStatus) {
        var sid := form.messageSid.value;
        var status := form.messageStatus.value;
        var message := Single(messages, HasSid(sid));
        if message.Some? {
          if status == "delivered" {
            counters := IncrementDelivered(counters, message.value.campaignId);
          } else if status == "failed" || status == "undelivered" {
            counters := IncrementFailed(counters, message.value.campaignId);
          }
          messages := Update(messages, HasSid(sid), (m: SmsMessage) => Receipted(m, status, now));
        }
      }
    }
  }
}
