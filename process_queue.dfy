/// The drip-sequence dispatcher: the scheduled job that sends every due
/// message of the 3-message sequence, one queue item at a time. A send
/// marks the queue row `sent`, advances the contact to the label of the
/// step, logs the outbound message and asks for the next step while the
/// step is below 3; a failure marks the queue row `failed` and records the
/// error. No item's failure stops the others.
module ProcessQueue {
  import opened Js
  import opened Text
  import opened Tables
  import opened Schema

  /** A row of `automation_queue`: step `messageNumber` of a contact's sequence. */
  datatype QueueRow = QueueRow(
    campaignId: string,
    contactId: string,
    messageNumber: int,
    status: string,
    errorMessage: Option<string>,
    processedAt: Option<int>)

  /** One row of what the `process_due_messages` procedure returns. */
  datatype DueItem = DueItem(
    campaignId: string,
    contactId: string,
    messageNumber: int,
    phoneNumber: string,
    messageBody: string)

  /** The outcome of `process_due_messages`: its rows, or its error. */
  datatype DueFetch = Fetched(items: seq<DueItem>) | FetchFailed(message: string)

  /** A campaign joined with its Twilio account, as the dispatcher reads it;
      a campaign without an account is not among these rows. */
  datatype SendingCampaign = SendingCampaign(id: string, twilioPhoneNumber: Option<string>, accountSid: string)

  /** What the carrier's HTTP API did with one send: accepted it (an OK
      response with the message sid), rejected it (a non-OK response, with
      the API's message if it gave one), or could not be reached. */
  datatype Transport = Accepted(sid: Option<string>) | Rejected(apiMessage: Option<string>) | Unreachable(message: string)

  /** A call of the `schedule_next_message` procedure, whose body is not part of this model. */
  datatype NextStep = NextStep(contactId: string, campaignId: string, currentMessageNumber: int)

  datatype ErrorEntry = ErrorEntry(phone: string, error: string)

  /** The `results` counters of one run. */
  datatype Tally = Tally(sent: nat, failed: nat, errors: seq<ErrorEntry>)

  /** The tables the dispatcher writes, and the procedure calls it makes. */
  datatype Store = Store(queue: seq<QueueRow>, contacts: seq<Contact>, messages: seq<SmsMessage>, chained: seq<NextStep>)

  datatype Pass = Pass(store: Store, tally: Tally)

  datatype Response =
    | Unauthorized
    | ServerError(message: string)
    | NothingDue
    | Processed(processed: nat, sent: nat, failed: nat, restarted: int, errors: seq<ErrorEntry>)

  function HttpStatus(r: Response): nat {
    match r
    case Unauthorized => 401
    case ServerError(_) => 500
    case _ => 200
  }

  /** The header the job must present: the template literal prints a missing secret as `undefined`. */
  function ExpectedAuthorization(cronSecret: Option<string>): string {
    "Bearer " + match cronSecret case None => "undefined" case Some(s) => s
  }

  const NoAccountError := "No Twilio account configured for campaign"
  const TransportError := "Twilio API error"

  /** The contact status for a step that was sent. */
  function StatusLabel(messageNumber: int): (status: string)
    ensures messageNumber == 1 ==> status == "1st_sent"
    ensures messageNumber == 2 ==> status == "2nd_sent"
    ensures messageNumber == 3 ==> status == "3rd_sent"
    ensures messageNumber !in {1, 2, 3} ==> status == "1st_sent"
  {
    var statusMap := map[1 := "1st_sent", 2 := "2nd_sent", 3 := "3rd_sent"];
    if messageNumber in statusMap then statusMap[messageNumber] else "1st_sent"
  }

  function IsCampaign(id: string): SendingCampaign -> bool {
    (c: SendingCampaign) => c.id == id
  }

  /** The error that sends an item down the failure path, or `None` when it is sent. */
  function Failure(item: DueItem, campaigns: seq<SendingCampaign>, t: Transport): (err: Option<string>)
    ensures err.None? ==> t.Accepted?
  {
    if Single(campaigns, IsCampaign(item.campaignId)).None? then Some(NoAccountError)
    else match t
      case Accepted(_) => None
      case Rejected(m) => Some(Or(m, TransportError))
      case Unreachable(m) => Some(m)
  }

  /** The queue row belongs to the item's (campaign, contact, step). */
  predicate SameKey(item: DueItem, r: QueueRow) {
    r.campaignId == item.campaignId && r.contactId == item.contactId && r.messageNumber == item.messageNumber
  }

  /** The (campaign, contact, step) a queue row is for; no write changes it. */
  function Key(r: QueueRow): (string, string, int) {
    (r.campaignId, r.contactId, r.messageNumber)
  }

  function AtKey(item: DueItem): QueueRow -> bool {
    (r: QueueRow) => SameKey(item, r)
  }

  function MarkQueueSent(queue: seq<QueueRow>, item: DueItem, now: int): seq<QueueRow> {
    Update(queue, AtKey(item), (r: QueueRow) => r.(status := "sent", processedAt := Some(now)))
  }

  function MarkQueueFailed(queue: seq<QueueRow>, item: DueItem, error: string, now: int): seq<QueueRow> {
    Update(queue, AtKey(item), (r: QueueRow) => r.(status := "failed", errorMessage := Some(error), processedAt := Some(now)))
  }

  function IsContact(id: string): Contact -> bool {
    (c: Contact) => c.id == id
  }

  function MarkContactSent(contacts: seq<Contact>, item: DueItem, now: int): seq<Contact> {
    Update(contacts, IsContact(item.contactId),
      (c: Contact) => c.(status := Some(StatusLabel(item.messageNumber)), lastMessageSentAt := Some(now),
                         messageCount := Some(item.messageNumber)))
  }

  function SentEntry(item: DueItem, sid: Option<string>, now: int): SmsMessage {
    SmsMessage(item.campaignId, Some(item.contactId), item.messageBody,
               Some("sequence_" + IntToString(item.messageNumber)), Some(item.messageNumber),
               "outbound", "sent", sid, Some(now), None, None, None)
  }

  /** One iteration of the loop: either the send path or the failure path. */
  function ProcessItem(p: Pass, item: DueItem, campaigns: seq<SendingCampaign>, t: Transport, now: int): (r: Pass)
    ensures r.tally.sent + r.tally.failed == p.tally.sent + p.tally.failed + 1
    ensures r.tally.sent == p.tally.sent + 1 <==> Failure(item, campaigns, t).None?
    ensures |r.tally.errors| == |p.tally.errors| + (r.tally.failed - p.tally.failed)
    ensures |r.store.messages| == |p.store.messages| + (r.tally.sent - p.tally.sent)
    ensures |r.store.queue| == |p.store.queue| && |r.store.contacts| == |p.store.contacts|
    ensures forall j :: 0 <= j < |p.store.queue| ==> Key(r.store.queue[j]) == Key(p.store.queue[j])
    ensures forall j :: 0 <= j < |p.store.queue| && !SameKey(item, p.store.queue[j]) ==> r.store.queue[j] == p.store.queue[j]
    ensures forall j :: 0 <= j < |p.store.queue| && SameKey(item, p.store.queue[j]) ==>
      r.store.queue[j].status == (if Failure(item, campaigns, t).None? then "sent" else "failed")
    ensures forall j :: 0 <= j < |p.store.contacts| ==> r.store.contacts[j].id == p.store.contacts[j].id
    ensures forall j :: (0 <= j < |p.store.contacts| &&
                         (p.store.contacts[j].id != item.contactId || Failure(item, campaigns, t).Some?)) ==>
      r.store.contacts[j] == p.store.contacts[j]
  {
    match Failure(item, campaigns, t)
    case None =>
      var s := p.store;
      var chained := if item.messageNumber < 3
        then s.chained + [NextStep(item.contactId, item.campaignId, item.messageNumber)]
        else s.chained;
      Pass(Store(MarkQueueSent(s.queue, item, now), MarkContactSent(s.contacts, item, now),
                 s.messages + [SentEntry(item, t.sid, now)], chained),
           p.tally.(sent := p.tally.sent + 1))
    case Some(err) =>
      Pass(p.store.(queue := MarkQueueFailed(p.store.queue, item, err, now)),
           Tally(p.tally.sent, p.tally.failed + 1, p.tally.errors + [ErrorEntry(item.phoneNumber, err)]))
  }

  /** The loop over the due items, in order; `transport[i]` is what the
      carrier did with item `i`. */
  function ProcessAll(p: Pass, items: seq<DueItem>, campaigns: seq<SendingCampaign>, transport: seq<Transport>, now: int): (r: Pass)
    requires |transport| == |items|
    ensures r.tally.sent + r.tally.failed == p.tally.sent + p.tally.failed + |items|
    ensures r.tally.sent >= p.tally.sent && r.tally.failed >= p.tally.failed
    ensures |r.tally.errors| == |p.tally.errors| + (r.tally.failed - p.tally.failed)
    ensures |r.store.messages| == |p.store.messages| + (r.tally.sent - p.tally.sent)
    ensures |r.store.queue| == |p.store.queue| && |r.store.contacts| == |p.store.contacts|
    ensures forall j :: 0 <= j < |p.store.contacts| ==> r.store.contacts[j].id == p.store.contacts[j].id
    ensures |r.store.chained| - |p.store.chained| <= r.tally.sent - p.tally.sent
    ensures |p.store.chained| <= |r.store.chained| && r.store.chained[..|p.store.chained|] == p.store.chained
    ensures forall k :: |p.store.chained| <= k < |r.store.chained| ==> r.store.chained[k].currentMessageNumber < 3
    decreases |items|
  {
    if items == [] then p
    else
      var n := |items| - 1;
      ProcessItem(ProcessAll(p, items[..n], campaigns, transport[..n], now), items[n], campaigns, transport[n], now)
  }

  /** The send path of one item: the item's queue rows become `sent`, its
      contact takes the step's label and message count, one outbound `sent`
      entry carrying the carrier's sid is logged, and a next step is asked
      for exactly when the step is below 3. */
  lemma SendPath(p: Pass, item: DueItem, campaigns: seq<SendingCampaign>, t: Transport, now: int)
    requires Failure(item, campaigns, t).None?
    ensures var r := ProcessItem(p, item, campaigns, t, now);
      && r.tally == p.tally.(sent := p.tally.sent + 1)
      && (forall j :: 0 <= j < |p.store.contacts| && p.store.contacts[j].id == item.contactId ==>
            r.store.contacts[j].status == Some(StatusLabel(item.messageNumber)) &&
            r.store.contacts[j].messageCount == Some(item.messageNumber))
      && r.store.messages == p.store.messages + [SentEntry(item, t.sid, now)]
      && SentEntry(item, t.sid, now).direction == "outbound" && SentEntry(item, t.sid, now).status == "sent"
      && (item.messageNumber < 3 ==> r.store.chained == p.store.chained + [NextStep(item.contactId, item.campaignId, item.messageNumber)])
      && (item.messageNumber >= 3 ==> r.store.chained == p.store.chained)
  {
  }

  /** The failure path of one item: its queue rows become `failed` with the
      error text, one error is recorded, and the contacts, the message log
      and the chained steps are left as they were. */
  lemma FailurePath(p: Pass, item: DueItem, campaigns: seq<SendingCampaign>, t: Transport, now: int)
    requires Failure(item, campaigns, t).Some?
    ensures var r := ProcessItem(p, item, campaigns, t, now);
      var err := Failure(item, campaigns, t).value;
      && r.tally == Tally(p.tally.sent, p.tally.failed + 1, p.tally.errors + [ErrorEntry(item.phoneNumber, err)])
      && r.store.contacts == p.store.contacts
      && r.store.messages == p.store.messages
      && r.store.chained == p.store.chained
      && (forall j :: 0 <= j < |p.store.queue| && SameKey(item, p.store.queue[j]) ==>
            r.store.queue[j].errorMessage == Some(err))
  {
  }

  /** For the one campaign with the item's id, the carrier's answer alone
      decides: an accepted send is sent, a rejection fails with the API's
      message (or the generic one), an unreachable carrier with its error. */
  lemma FoundCampaignFailure(item: DueItem, campaigns: seq<SendingCampaign>, t: Transport, k: nat)
    requires k < |campaigns| && campaigns[k].id == item.campaignId
    requires forall j :: 0 <= j < |campaigns| && j != k ==> campaigns[j].id != item.campaignId
    ensures Failure(item, campaigns, t).None? <==> t.Accepted?
    ensures t.Rejected? ==> Failure(item, campaigns, t) == Some(Or(t.apiMessage, TransportError))
    ensures t.Unreachable? ==> Failure(item, campaigns, t) == Some(t.message)
  {
    WhereOne(campaigns, IsCampaign(item.campaignId), k);
  }

  /** A campaign without a Twilio account fails its item with the fixed
      message, whatever the carrier would have done. */
  lemma NoAccountFails(item: DueItem, campaigns: seq<SendingCampaign>, t: Transport)
    requires forall k :: 0 <= k < |campaigns| ==> campaigns[k].id != item.campaignId
    ensures Failure(item, campaigns, t) == Some(NoAccountError)
  {
    WhereNone(campaigns, IsCampaign(item.campaignId));
  }

  /** No run changes which (campaign, contact, step) a queue row is for. */
  lemma {:induction false} KeysKept(p: Pass, items: seq<DueItem>, campaigns: seq<SendingCampaign>,
                                    transport: seq<Transport>, now: int, j: nat)
    requires |transport| == |items| && j < |p.store.queue|
    ensures var q := ProcessAll(p, items, campaigns, transport, now).store.queue;
      Key(q[j]) == Key(p.store.queue[j])
    decreases |items|
  {
    if items != [] {
      var n := |items| - 1;
      KeysKept(p, items[..n], campaigns, transport[..n], now, j);
    }
  }

  /** After a run, the queue row of any due item is `sent` or `failed`. */
  lemma {:induction false} DueRowsSettled(p: Pass, items: seq<DueItem>, campaigns: seq<SendingCampaign>,
                                          transport: seq<Transport>, now: int, j: nat, k: nat)
    requires |transport| == |items| && j < |p.store.queue|
    requires k < |items| && SameKey(items[k], p.store.queue[j])
    ensures ProcessAll(p, items, campaigns, transport, now).store.queue[j].status in {"sent", "failed"}
    decreases |items|
  {
    var n := |items| - 1;
    var prev := ProcessAll(p, items[..n], campaigns, transport[..n], now);
    if k == n {
      KeysKept(p, items[..n], campaigns, transport[..n], now, j);
      assert SameKey(items[n], prev.store.queue[j]);
    } else {
      assert items[..n][k] == items[k];
      DueRowsSettled(p, items[..n], campaigns, transport[..n], now, j, k);
    }
  }

  /** After a run, a queue row of no due item is exactly as it was. */
  lemma {:induction false} UndueRowKept(p: Pass, items: seq<DueItem>, campaigns: seq<SendingCampaign>,
                                        transport: seq<Transport>, now: int, j: nat)
    requires |transport| == |items| && j < |p.store.queue|
    requires forall k :: 0 <= k < |items| ==> !SameKey(items[k], p.store.queue[j])
    ensures ProcessAll(p, items, campaigns, transport, now).store.queue[j] == p.store.queue[j]
    decreases |items|
  {
    if items != [] {
      var n := |items| - 1;
      assert forall k :: 0 <= k < n ==> items[..n][k] == items[k];
      UndueRowKept(p, items[..n], campaigns, transport[..n], now, j);
    }
  }

  /** Contacts advance only through sends: a contact that is the contact of
      no successfully sent item is left exactly as it was. */
  lemma {:induction false} ContactsChangeOnlyOnSend(p: Pass, items: seq<DueItem>, campaigns: seq<SendingCampaign>,
                                                   transport: seq<Transport>, now: int, j: nat)
    requires |transport| == |items| && j < |p.store.contacts|
    requires forall k :: 0 <= k < |items| && items[k].contactId == p.store.contacts[j].id ==>
      Failure(items[k], campaigns, transport[k]).Some?
    ensures var c := ProcessAll(p, items, campaigns, transport, now).store.contacts;
      j < |c| && c[j] == p.store.contacts[j]
    decreases |items|
  {
    if items != [] {
      var n := |items| - 1;
      ContactsChangeOnlyOnSend(p, items[..n], campaigns, transport[..n], now, j);
    }
  }

  class QueueProcessor {
    var queue: seq<QueueRow>
    var contacts: seq<Contact>
    var messages: seq<SmsMessage>
    var chained: seq<NextStep>

    function Snapshot(): Store
      reads this
    {
      Store(queue, contacts, messages, chained)
    }

    constructor (queue: seq<QueueRow>, contacts: seq<Contact>, messages: seq<SmsMessage>)
      ensures Snapshot() == Store(queue, contacts, messages, [])
    {
      this.queue, this.contacts, this.messages, this.chained := queue, contacts, messages, [];
    }

    /** The body of the loop for one due item `msg`. */
    method ProcessMessage(results: Tally, msg: DueItem, campaigns: seq<SendingCampaign>, t: Transport, now: int)
      returns (results': Tally)
      modifies this
      ensures Pass(Snapshot(), results') == ProcessItem(Pass(old(Snapshot()), results), msg, campaigns, t, now)
    {
      var failure := Failure(msg, campaigns, t);
      if failure.None? {
        queue := MarkQueueSent(queue, msg, now);
        contacts := MarkContactSent(contacts, msg, now);
        messages := messages + [SentEntry(msg, t.sid, now)];
        if msg.messageNumber < 3 {
          chained := chained + [NextStep(msg.contactId, msg.campaignId, msg.messageNumber)];
        }
        results' := results.(sent := results.sent + 1);
      } else {
        queue := MarkQueueFailed(queue, msg, failure.value, now);
        results' := Tally(results.sent, results.failed + 1, results.errors + [ErrorEntry(msg.phoneNumber, failure.value)]);
      }
    }

    /** The loop over the due items, each one processed in turn. */
    method ProcessDue(items: seq<DueItem>, campaigns: seq<SendingCampaign>, transport: seq<Transport>, now: int)
      returns (results: Tally)
      requires |transport| == |items|
      modifies this
      ensures Pass(Snapshot(), results) == ProcessAll(Pass(old(Snapshot()), Tally(0, 0, [])), items, campaigns, transport, now)
    {
      ghost var start := Snapshot();
      results := Tally(0, 0, []);
      var i := 0;
      while i < |items|
        invariant 0 <= i <= |items|
        invariant Pass(Snapshot(), results)
               == ProcessAll(Pass(start, Tally(0, 0, [])), items[..i], campaigns, transport[..i], now)
      {
        ghost var before := Pass(Snapshot(), results);
        results := ProcessMessage(results, items[i], campaigns, transport[i], now);
        assert items[..i + 1][..i] == items[..i];
        assert transport[..i + 1][..i] == transport[..i];
        assert ProcessAll(Pass(start, Tally(0, 0, [])), items[..i + 1], campaigns, transport[..i + 1], now)
            == ProcessItem(before, items[i], campaigns, transport[i], now);
        i := i + 1;
      }
      assert items[..i] == items;
      assert transport[..i] == transport;
    }

    /** The `POST` handler. `restarted` is what `restart_dormant_contacts`
        returns; that procedure's own writes are not part of this model. */
    method Post(authorization: Option<string>, cronSecret: Option<string>, due: DueFetch,
                campaigns: seq<SendingCampaign>, transport: seq<Transport>, restarted: Num, now: int)
      returns (resp: Response)
      requires due.Fetched? ==> |transport| == |due.items|
      modifies this
      ensures authorization != Some(ExpectedAuthorization(cronSecret)) ==>
        resp == Unauthorized && Snapshot() == old(Snapshot())
      ensures authorization == Some(ExpectedAuthorization(cronSecret)) && due.FetchFailed? ==>
        resp == ServerError(due.message) && Snapshot() == old(Snapshot())
      ensures authorization == Some(ExpectedAuthorization(cronSecret)) && due.Fetched? && due.items == [] ==>
        resp == NothingDue && Snapshot() == old(Snapshot())
      ensures authorization == Some(ExpectedAuthorization(cronSecret)) && due.Fetched? && due.items != [] ==>
        var r := ProcessAll(Pass(old(Snapshot()), Tally(0, 0, [])), due.items, campaigns, transport, now);
        Snapshot() == r.store &&
        resp == Processed(|due.items|, r.tally.sent, r.tally.failed, NumOr(restarted, 0), r.tally.errors)
    {
      if authorization != Some(ExpectedAuthorization(cronSecret)) {
        return Unauthorized;
      }
      if due.FetchFailed? {
        return ServerError(due.message);
      }
      var dueMessages := due.items;
      if |dueMessages| == 0 {
        return NothingDue;
      }
      var results := ProcessDue(dueMessages, campaigns, transport, now);
      resp := Processed(|dueMessages|, results.sent, results.failed, NumOr(restarted, 0), results.errors);
    }
  }
}
