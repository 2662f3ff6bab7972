# Lead reactivation SMS: a verified model

This project models the sequential logic of a small SaaS application for
reviving old sales leads by SMS, and proves properties of it in Dafny.
A user uploads a CSV of leads and writes a three-message sequence. A
scheduled job then sends the sequence through the carrier (Twilio), one
due message at a time. Replies and delivery receipts come back through a
carrier webhook. Before sending, the user goes through carrier (A2P 10DLC)
registration: brand, then campaign, then a phone number. Billing events
come from the payment provider (Stripe). The application also has a
library of "androids", generated sales assistants, each with a chat screen.

The model has one module per source file:

- **Server routes** (`ProcessQueue`, `CarrierWebhook`, `BulkSend`,
  `RegisterBrand`, `RegisterCampaign`, `BuyNumber`, `BillingWebhook`,
  `CampaignCreation`).
  - Each route is a class that holds the database tables it writes, as
    sequences of rows.
  - Its `Post` method is proved equal to a pure `Route` (or `Handle`,
    `ProcessAll`, `SendAll`) function of the old tables and the request.
  - Lemmas about those functions state what the route promises: the guard
    chains, what a rejection writes (nothing), and which rows change and how.
- **Utilities.**
  - `RateLimit`: the process-wide store of the fixed-window limiter is a
    class over a `map`, plus the client-IP extraction.
  - `Password`: the validator is a method.
- **Client components.**
  - Pure expressions (CSV parsing, interval editing, message
    normalisation, the first-message search, the search filter, initials)
    are functions with lemmas.
  - State that handlers update (the wizard step, the registration panel,
    the library list, the chat input, the original-message toggle) is a
    class with methods.
- **Shared modules.**
  - `Js`: JavaScript truthiness and `||` on optional strings and numbers.
  - `Text`: ASCII trimming, splitting, case and substring search.
  - `Tables`: filter, `.single()` lookup and "update where" on row
    sequences.
  - `Schema`: the rows several routes share.
  - `ChatCommon`: the first-message search shared by both chat screens.

Everything outside the program is a parameter:
- the carrier's and the payment provider's replies;
- the rows that database procedures return;
- the errors of the database reads and writes that the routes check;
- the current time, as an integer `now`.

## Model

| member | source | states |
|---|---|---|
| ProcessQueue.StatusLabel | app/api/automation/process-queue/route.ts:83-92 | A sent step 1, 2 or 3 labels the contact `1st_sent`, `2nd_sent` or `3rd_sent`; any other step number falls back to `1st_sent` |
| ProcessQueue.Failure | app/api/automation/process-queue/route.ts:38-46 | An item escapes the failure path only when the carrier accepted its message. FoundCampaignFailure states the converse and the error texts; NoAccountFails covers a missing account |
| ProcessQueue.ProcessItem | app/api/automation/process-queue/route.ts:35-145 | One item counts once, as sent or as failed. An error entry is added exactly when it fails, and a log entry exactly when it is sent. Only queue rows with the item's (campaign, contact, step) key change, and they become `sent` or `failed`. Contacts change only on a send, and only the item's own contact |
| ProcessQueue.ProcessAll | app/api/automation/process-queue/route.ts:35-145 | After the loop, sent + failed is the number of due items, and there is one error per failure and one log entry per send. Each next-step request is for a step below 3, and there is at most one per send |
| ProcessQueue.SendPath | app/api/automation/process-queue/route.ts:70-120 | On a send, the contact gets the step's label and `message_count` equal to the step number, and one outbound `sent` entry is logged with the carrier's sid. The next step is chained exactly when the step is below 3 |
| ProcessQueue.FailurePath | app/api/automation/process-queue/route.ts:124-144 | On a failure, the queue row gets the error text and one error is recorded. Contacts, the log and the chained steps are unchanged |
| ProcessQueue.NoAccountFails | app/api/automation/process-queue/route.ts:38-46 | A campaign without a carrier account fails its item with the fixed message, whatever the carrier would have done |
| ProcessQueue.FoundCampaignFailure | app/api/automation/process-queue/route.ts:38-122 | For the one campaign with the item's id, the item fails exactly when the carrier did not accept it. A rejection fails with the API's message, or "Twilio API error" when that is empty; an unreachable carrier fails with its own error |
| ProcessQueue.KeysKept | app/api/automation/process-queue/route.ts:35-145 | A run never changes which (campaign, contact, step) a queue row is for |
| ProcessQueue.DueRowsSettled | app/api/automation/process-queue/route.ts:35-145 | After a run, the queue row of any due item is `sent` or `failed` |
| ProcessQueue.UndueRowKept | app/api/automation/process-queue/route.ts:35-145 | After a run, a queue row of no due item is exactly as it was |
| ProcessQueue.ContactsChangeOnlyOnSend | app/api/automation/process-queue/route.ts:89-96 | A contact none of whose items was sent is left exactly as it was |
| ProcessQueue.QueueProcessor.ProcessMessage | app/api/automation/process-queue/route.ts:36-144 | The loop body's writes equal `ProcessItem` |
| ProcessQueue.QueueProcessor.ProcessDue | app/api/automation/process-queue/route.ts:35-145 | The loop over the due items leaves the tables and counters of `ProcessAll` |
| ProcessQueue.QueueProcessor.Post | app/api/automation/process-queue/route.ts:4-159 | A wrong bearer header gives 401 and no write. A procedure error gives 500 and no write. An empty due list gives `processed: 0` and no write. Otherwise the tables and counters are those of `ProcessAll` |
| CarrierWebhook.InboundNeedsBodyAndSender | app/api/twilio/webhook/route.ts:16 | Without both a body and a sender, the inbound branch writes nothing |
| CarrierWebhook.UnknownSenderWritesNothing | app/api/twilio/webhook/route.ts:18-24 | A reply from a number no contact has writes nothing |
| CarrierWebhook.KnownSenderReply | app/api/twilio/webhook/route.ts:16-48 | A reply from the one contact with that number appends one inbound `received` entry. It marks only that contact `replied`, and adds one reply to that contact's campaign only |
| CarrierWebhook.ReceiptNeedsKnownSid | app/api/twilio/webhook/route.ts:52-55 | Without both a sid and a status, or when no message has the sid, the receipt branch writes nothing |
| CarrierWebhook.KnownSidReceipt | app/api/twilio/webhook/route.ts:52-68 | A receipt overwrites the message's status and stamps `delivered_at` on `delivered`. It adds one delivered for `delivered`, one failed for `failed` or `undelivered`, and nothing for any other status. No other message and no contact changes |
| CarrierWebhook.ReceiptKeepsReplies | app/api/twilio/webhook/route.ts:52-69 | The receipt branch never touches contacts or reply counts, so both branches can run in one request |
| CarrierWebhook.InboundKeepsReceipts | app/api/twilio/webhook/route.ts:16-49 | The inbound branch only appends to the log, and never touches delivered or failed counts |
| CarrierWebhook.Inbound | app/api/twilio/webhook/route.ts:16-49 | The inbound branch as a function of the tables and the form (no contract of its own; InboundNeedsBodyAndSender, UnknownSenderWritesNothing and KnownSenderReply state what it does) |
| CarrierWebhook.Receipt | app/api/twilio/webhook/route.ts:52-69 | The receipt branch as a function of the tables and the form (no contract of its own; ReceiptNeedsKnownSid and KnownSidReceipt state what it does) |
| CarrierWebhook.Handle | app/api/twilio/webhook/route.ts:4-71 | The whole request: the inbound branch, then the receipt branch (no contract of its own; ReceiptKeepsReplies and InboundKeepsReceipts state how the two combine) |
| CarrierWebhook.Webhook.Post | app/api/twilio/webhook/route.ts:4-71 | The route's writes equal the inbound branch followed by the receipt branch |
| BulkSend.SendAll | app/api/twilio/send/route.ts:40-98 | There is exactly one result per contact, in input order. Each succeeds exactly when the carrier answered OK, carrying the sid or the error. The log only grows |
| BulkSend.Calls | app/api/twilio/send/route.ts:40-53 | One carrier call per contact, in order, from the campaign's account and number, with the same body |
| BulkSend.OkStepLogs | app/api/twilio/send/route.ts:57-73 | A successful send logs one outbound `sent` row with the carrier's sid, and one `Message Sent` event |
| BulkSend.RejectedStepLogs | app/api/twilio/send/route.ts:74-93 | A rejected send logs one outbound `failed` row without a sid. The API's message lands on that same row; events are untouched |
| BulkSend.ThrewStepWritesNothing | app/api/twilio/send/route.ts:95-97 | A send that throws only adds a failed result |
| BulkSend.Step | app/api/twilio/send/route.ts:41-97 | One contact's send gives exactly one result, for that contact's number. It succeeds exactly when the carrier answered OK, and carries the sid, the API's message or the thrown error. OkStepLogs, RejectedStepLogs and ThrewStepWritesNothing state the log writes |
| BulkSend.RejectionsSendNothing | app/api/twilio/send/route.ts:11-32 | 401, 400 and 404 answer before any carrier call and any write. Only a complete request for a campaign the user owns sends |
| BulkSend.OtherUsersCampaignNotFound | app/api/twilio/send/route.ts:22-32 | A campaign that is not the user's gives 404 with no call and no write |
| BulkSend.OwnedCampaignSends | app/api/twilio/send/route.ts:22-53 | The user's campaign is sent from with one call per contact, and one result per contact |
| BulkSend.Route | app/api/twilio/send/route.ts:4-100 | The handler's answer, writes and calls (no contract of its own; RejectionsSendNothing, OtherUsersCampaignNotFound and OwnedCampaignSends state them) |
| BulkSend.BulkSender.SendOne | app/api/twilio/send/route.ts:41-97 | The loop body's writes and result equal `Step` |
| BulkSend.BulkSender.SendEach | app/api/twilio/send/route.ts:38-98 | The loop's writes and results equal `SendAll`, and its calls equal `Calls` |
| BulkSend.BulkSender.Post | app/api/twilio/send/route.ts:4-100 | The handler's response, writes and calls equal `Route` |
| RegisterBrand.FirstName | app/api/twilio/a2p/register-brand/route.ts:62 | The first name is the whole contact name, or a non-empty prefix of it without spaces |
| RegisterBrand.LastName | app/api/twilio/a2p/register-brand/route.ts:63 | The last name contains no space |
| RegisterBrand.FirstNameIsFirstWord | app/api/twilio/a2p/register-brand/route.ts:62-63 | The first word is the first name. A one-word name is all first name, with an empty last name |
| RegisterBrand.LastNameIsSecondWord | app/api/twilio/a2p/register-brand/route.ts:63 | The second word is the last name; further words are dropped |
| RegisterBrand.LeadingSpaceKeepsWholeName | app/api/twilio/a2p/register-brand/route.ts:62 | A name starting with a space has an empty first token, so the whole name is sent |
| RegisterBrand.GuardsComeFirst | app/api/twilio/a2p/register-brand/route.ts:13-22 | No user gives 401 and a missing field gives 400, before any call and any write |
| RegisterBrand.FailuresWriteNothing | app/api/twilio/a2p/register-brand/route.ts:38-111 | A failed subaccount call, brand call or registration insert gives 500 and writes nothing. Only a full success writes |
| RegisterBrand.CallsMade | app/api/twilio/a2p/register-brand/route.ts:25-65 | The subaccount is named `<company> Subaccount`. The brand call follows only a created subaccount, and carries the company and the first and last names |
| RegisterBrand.SuccessRecordsBoth | app/api/twilio/a2p/register-brand/route.ts:75-108 | A success appends one `brand_registered` row with both sids, and one account row whose account sid is the subaccount sid |
| RegisterBrand.BrandCall | app/api/twilio/a2p/register-brand/route.ts:54-64 | The brand request's fields (no contract of its own; CallsMade states which ones) |
| RegisterBrand.NewRegistration | app/api/twilio/a2p/register-brand/route.ts:77-87 | The `brand_registered` row (no contract of its own; SuccessRecordsBoth states it) |
| RegisterBrand.Route | app/api/twilio/a2p/register-brand/route.ts:4-112 | The handler's answer, writes and calls (no contract of its own; GuardsComeFirst, FailuresWriteNothing, CallsMade and SuccessRecordsBoth state them) |
| RegisterBrand.BrandRegistrar.Post | app/api/twilio/a2p/register-brand/route.ts:4-112 | The handler's response, writes and calls equal `Route` |
| RegisterCampaign.GuardsComeFirst | app/api/twilio/a2p/register-campaign/route.ts:13-37 | Exactly the guard answers (401 and the three 400s) come without a carrier call, and only a registration writes |
| RegisterCampaign.RegistrationRequired | app/api/twilio/a2p/register-campaign/route.ts:24-33 | A user without a registration gets 400, with no call and no write |
| RegisterCampaign.BrandRequired | app/api/twilio/a2p/register-campaign/route.ts:35-37 | A registration without a brand id gets 400, with no call and no write |
| RegisterCampaign.RegistersOnBrand | app/api/twilio/a2p/register-campaign/route.ts:39-89 | The call carries the brand, the use case twice and the name with the fixed suffix. On success only that row becomes `campaign_registered`; a failure leaves it |
| RegisterCampaign.Call | app/api/twilio/a2p/register-campaign/route.ts:48-58 | The campaign request's fields (no contract of its own; RegistersOnBrand states them) |
| RegisterCampaign.CampaignRegistered | app/api/twilio/a2p/register-campaign/route.ts:69-79 | The updated `campaign_registered` row (no contract of its own; RegistersOnBrand states it) |
| RegisterCampaign.Route | app/api/twilio/a2p/register-campaign/route.ts:4-94 | The handler's answer, writes and call (no contract of its own; GuardsComeFirst, RegistrationRequired, BrandRequired and RegistersOnBrand state them) |
| RegisterCampaign.CampaignRegistrar.Post | app/api/twilio/a2p/register-campaign/route.ts:4-89 | The handler's response, writes and call equal `Route` |
| BuyNumber.AreaCode | app/api/twilio/a2p/buy-number/route.ts:17-18 | The requested area code, or 402 when it is missing or empty |
| BuyNumber.CountryIgnored | app/api/twilio/a2p/buy-number/route.ts:17-48 | The requested country changes nothing: every search is in the US, for the chosen area code |
| BuyNumber.PurchaseNeedsCampaign | app/api/twilio/a2p/buy-number/route.ts:31-33 | A registration without a campaign id gets 400, with no call and no write |
| BuyNumber.OnlyPurchaseWrites | app/api/twilio/a2p/buy-number/route.ts:13-107 | Only a purchase writes. Exactly the guard answers make no carrier call |
| BuyNumber.FirstNumberBought | app/api/twilio/a2p/buy-number/route.ts:36-110 | An empty search gives 404. Otherwise the first number found is bought, and only the user's registration (now `number_assigned`) and account take it |
| BuyNumber.Route | app/api/twilio/a2p/buy-number/route.ts:4-116 | The handler's answer, writes and calls (no contract of its own; CountryIgnored, PurchaseNeedsCampaign, OnlyPurchaseWrites and FirstNumberBought state them) |
| BuyNumber.NumberBuyer.Post | app/api/twilio/a2p/buy-number/route.ts:4-116 | The handler's response, writes and calls equal `Route` |
| BillingWebhook.PlanCredits | app/api/billing/webhook/route.ts:45-53 | Non-zero credits are the monthly credits of the plan with that id, and no plan id gives 0. FoundPlanCredits and UnknownPlanNoCredits give the value for a known and an unknown id |
| BillingWebhook.FoundPlanCredits | app/api/billing/webhook/route.ts:45-53 | For the one plan with that id, the credits are its monthly credits, or 0 when those are missing, zero or `NaN` |
| BillingWebhook.UnknownPlanNoCredits | app/api/billing/webhook/route.ts:45-53 | An id no plan has gives 0 credits |
| BillingWebhook.Upsert | app/api/billing/webhook/route.ts:48-56 | The user's record is the new one, every other user's record is kept, and the new record is present |
| BillingWebhook.UnsignedWritesNothing | app/api/billing/webhook/route.ts:17-28 | A missing or failing signature gives 400 and no write. Acknowledged exactly when signed and verified |
| BillingWebhook.CheckoutNeedsMetadata | app/api/billing/webhook/route.ts:39-42 | A checkout without both user and plan metadata writes nothing |
| BillingWebhook.CheckoutUpserts | app/api/billing/webhook/route.ts:34-56 | After a checkout, the user has an active record with the plan's credits, renewing 2592000000 ms later. Other users' records are kept |
| BillingWebhook.UnknownCustomerPaymentWritesNothing | app/api/billing/webhook/route.ts:73-76 | A paid invoice from an unknown customer writes nothing |
| BillingWebhook.PaymentResetsCredits | app/api/billing/webhook/route.ts:62-96 | A paid invoice sets the customer's credits to the plan amount (not added to the balance), with status active and thirty more days. No other record changes |
| BillingWebhook.DeletionOnlyCancels | app/api/billing/webhook/route.ts:99-104 | A deleted subscription sets the customer's status to `canceled` and changes nothing else |
| BillingWebhook.OtherEventsIgnored | app/api/billing/webhook/route.ts:110-114 | Any other event is acknowledged and writes nothing |
| BillingWebhook.Apply | app/api/billing/webhook/route.ts:32-114 | The switch over a verified event's type (no contract of its own; CheckoutNeedsMetadata, CheckoutUpserts, UnknownCustomerPaymentWritesNothing, PaymentResetsCredits, DeletionOnlyCancels and OtherEventsIgnored state each case) |
| BillingWebhook.Route | app/api/billing/webhook/route.ts:12-114 | The handler's answer and writes (no contract of its own; UnsignedWritesNothing states the signature guard) |
| BillingWebhook.BillingLedger.Post | app/api/billing/webhook/route.ts:12-114 | The handler's response and writes equal `Route` |
| CampaignCreation.ContactsToInsert | app/api/campaigns/route.ts:35-40 | One contact row per lead, in order, with the lead's name and phone, and tags defaulting to none |
| CampaignCreation.TemplatesNumbered | app/api/campaigns/route.ts:47-54 | Template i is step i+1 (`sequence_<i+1>`, outbound, pending) with message i as its body. Step numbers are distinct and no message is lost |
| CampaignCreation.Template | app/api/campaigns/route.ts:47-54 | Template row i (no contract of its own; TemplatesNumbered states its step, name, direction, status and body) |
| CampaignCreation.MessagesToInsert | app/api/campaigns/route.ts:47-54 | One template per message, in order (no contract of its own; TemplatesNumbered states it) |
| CampaignCreation.UnauthorizedWritesNothing | app/api/campaigns/route.ts:11-13 | No user gives 401 and no write |
| CampaignCreation.CreationWritesAll | app/api/campaigns/route.ts:15-68 | When all four inserts succeed, the route writes one `draft` campaign with `total_leads` = the number of leads, one contact per lead, one template per message and one audit entry |
| CampaignCreation.AuditErrorIgnored | app/api/campaigns/route.ts:60-68 | A failed audit insert is not noticed: the answer is still the created campaign, and every other table is written as on full success, with no audit entry |
| CampaignCreation.ContactsErrorStopsTemplates | app/api/campaigns/route.ts:42-44 | A failed contacts insert gives 500 before any template or audit entry |
| CampaignCreation.DripSettingsNotPersisted | app/api/campaigns/route.ts:16 | The drip size, drip interval and message intervals change nothing the route writes or answers |
| CampaignCreation.Route | app/api/campaigns/route.ts:4-68 | The handler's answer and writes (no contract of its own; UnauthorizedWritesNothing, CreationWritesAll, AuditErrorIgnored, ContactsErrorStopsTemplates and DripSettingsNotPersisted state them) |
| CampaignCreation.CampaignStore.Post | app/api/campaigns/route.ts:4-68 | The handler's response and writes equal `Route` |
| RateLimit.CheckKeepsBound | lib/rate-limit.ts:26-41 | With max at least 1, every stored count stays between 1 and max |
| RateLimit.CheckIsolated | lib/rate-limit.ts:17-41 | A check never touches another identifier's entry |
| RateLimit.FirstRequestOpensWindow | lib/rate-limit.ts:26-31 | A first request, or one past the window, succeeds with count 1, `resetTime = now + windowMs` and `remaining = max - 1` |
| RateLimit.ResetTimeIsInWindow | lib/rate-limit.ts:20-22 | A request exactly at the reset time still counts in the old window |
| RateLimit.WithinWindow | lib/rate-limit.ts:33-41 | At the limit, a check fails with remaining 0 and no count. Under it, the count grows by one and `remaining = max - count` |
| RateLimit.LimitReached | lib/rate-limit.ts:26-41 | With max at least 1 and a window of at least 0 ms: from an empty store, the k-th check at one instant (k at most max) leaves count k in a window ending at `now + windowMs`. The check after the max-th fails |
| RateLimit.CheckSpec | lib/rate-limit.ts:15-42 | One check's verdict and new store (no contract of its own; CheckKeepsBound, CheckIsolated, FirstRequestOpensWindow, ResetTimeIsInWindow, WithinWindow and LimitReached state them) |
| RateLimit.RateLimitStore.Check | lib/rate-limit.ts:15-42 | The method's verdict and new store equal `CheckSpec` |
| RateLimit.ClientIp | lib/rate-limit.ts:47-60 | A non-empty forwarded header gives a trimmed hop without commas. Otherwise the real-IP header, else `unknown` |
| RateLimit.FirstHop | lib/rate-limit.ts:51-53 | The hop is the forwarded header's text before its first comma, trimmed |
| RateLimit.ClientIpIsFirstHop | lib/rate-limit.ts:47-53 | A non-empty forwarded header gives its text before the first comma (or the whole header without one), trimmed, whatever the real-IP header says |
| Password.Validate | lib/password-validation.ts:9-28 | Each error appears exactly when its rule fails, in the order length, uppercase, digit, at most 3. Valid exactly when there are no errors, i.e. length at least 8 with an uppercase letter and a digit |
| Password.StrongEnough | lib/password-validation.ts:12-22 | A password made of any prefix, an `A`, any middle part and a final `1`, eight characters or more in all, is valid whatever the other characters are. Validate states the general rule as an if-and-only-if |
| Password.HasUppercase | lib/password-validation.ts:16 | The test `/[A-Z]/` (no contract of its own; Validate states its error) |
| Password.HasDigit | lib/password-validation.ts:20 | The test `/[0-9]/` (no contract of its own; Validate states its error) |
| LeadsUpload.NonBlank | components/wizard-steps/leads-upload-step.tsx:22 | Every line kept is a non-blank line of the input. NonBlankAppend and NonBlankOfOne pin the exact result: the non-blank lines, in order, each as often as it occurs |
| LeadsUpload.NonBlankAppend | components/wizard-steps/leads-upload-step.tsx:22 | Filtering two line lists one after the other is filtering each and concatenating |
| LeadsUpload.NonBlankOfOne | components/wizard-steps/leads-upload-step.tsx:22 | A single line is kept exactly when it is not blank |
| LeadsUpload.Lines | components/wizard-steps/leads-upload-step.tsx:22 | The file's non-blank lines (no contract of its own; BlankFileReadsNothing states the empty case) |
| LeadsUpload.Headers | components/wizard-steps/leads-upload-step.tsx:23 | The header cells, trimmed and lower-cased (no contract of its own) |
| LeadsUpload.Cells | components/wizard-steps/leads-upload-step.tsx:26 | A data line's cells, trimmed (no contract of its own) |
| LeadsUpload.Field | components/wizard-steps/leads-upload-step.tsx:29-31 | A text field: the cell of the right-most column mentioning the key (no contract of its own; RightmostColumnWins and ShortRowLeavesFieldsUnset state it) |
| LeadsUpload.Tags | components/wizard-steps/leads-upload-step.tsx:32 | The tag list from the right-most tag column (no contract of its own; RightmostColumnWins and ShortRowLeavesFieldsUnset state it) |
| LeadsUpload.LeadOf | components/wizard-steps/leads-upload-step.tsx:27-35 | The lead one data line makes (no contract of its own; BuildLead is proved equal to it) |
| LeadsUpload.BuildLead | components/wizard-steps/leads-upload-step.tsx:27-35 | The loop over the headers builds `LeadOf`: for each key, the cell of the right-most matching column |
| LeadsUpload.KeepComplete | components/wizard-steps/leads-upload-step.tsx:38 | Every lead kept has a name and a phone and comes from the input. KeepCompleteAppend and KeepCompleteOfOne pin the exact result: the complete leads, in order, each as often as it occurs |
| LeadsUpload.KeepCompleteAppend | components/wizard-steps/leads-upload-step.tsx:38 | Filtering two lead lists one after the other is filtering each and concatenating |
| LeadsUpload.KeepCompleteOfOne | components/wizard-steps/leads-upload-step.tsx:38 | A single lead is kept exactly when it has a name and a phone |
| LeadsUpload.DataLeads | components/wizard-steps/leads-upload-step.tsx:25-36 | One lead per line after the header, read against the header row |
| LeadsUpload.ReadLeads | components/wizard-steps/leads-upload-step.tsx:20-38 | The loop's result equals `Parse` |
| LeadsUpload.Parse | components/wizard-steps/leads-upload-step.tsx:20-38 | The leads a file yields, or none when it has no non-blank line (no contract of its own; ReadLeads is proved equal to it and LeadsFromDataLines states what it keeps) |
| LeadsUpload.LeadsFromDataLines | components/wizard-steps/leads-upload-step.tsx:22-38 | Every lead read has a name and a phone and comes from a data line, never the header. There are at most as many leads as data lines |
| LeadsUpload.BlankFileReadsNothing | components/wizard-steps/leads-upload-step.tsx:22-23 | A file with only blank lines reads nothing |
| LeadsUpload.RightmostColumnWins | components/wizard-steps/leads-upload-step.tsx:29-33 | The right-most column mentioning a key sets that field. A tag cell gives a one-tag list, or none when empty |
| LeadsUpload.ShortRowLeavesFieldsUnset | components/wizard-steps/leads-upload-step.tsx:26-33 | A column past the end of a short row leaves its field unset, and gives a tag column no tags |
| LeadsUpload.MissingColumnDropsAll | components/wizard-steps/leads-upload-step.tsx:29-38 | Without a name column, no lead is kept |
| LeadsUpload.HandleFileUpload | components/wizard-steps/leads-upload-step.tsx:18-41 | The form's leads become the leads read, or stay when reading fails. The rest of the data is kept |
| CampaignSetup.IntervalShown | components/wizard-steps/campaign-setup-step.tsx:102 | A field shows its slot, or 2, 5 or 30 when the slot is missing, zero or `NaN` |
| CampaignSetup.EditInterval | components/wizard-steps/campaign-setup-step.tsx:103-112 | An edit gives exactly 3 intervals: the parsed value at k, and what the field shows at the other slots. Every other field of the data is unchanged |
| CampaignSetup.EditShown | components/wizard-steps/campaign-setup-step.tsx:102-158 | An edit never changes what the other two fields show. The edited field shows the parsed value, or its default when that is 0 or `NaN` |
| CampaignSetup.EditIdempotent | components/wizard-steps/campaign-setup-step.tsx:103-112 | The same edit twice is the same edit once |
| CampaignSetup.EditNormalises | components/wizard-steps/campaign-setup-step.tsx:106-110 | Re-entering in field k the value it already shows leaves the data holding exactly the three intervals the fields showed, whatever it held before (a missing or longer list). EditInterval states the general edit: slot k holds the parsed value and the other slots what they showed |
| CampaignSetup.DripSizeShown | components/wizard-steps/campaign-setup-step.tsx:66 | The drip size shows 100 when unset, zero or `NaN` |
| CampaignSetup.DripIntervalShown | components/wizard-steps/campaign-setup-step.tsx:82 | The drip interval shows 3 when unset, zero or `NaN` |
| CampaignSetup.InitialFormShowsDefaults | components/campaign-wizard.tsx:21-30 | A new wizard's form shows intervals 2, 5 and 30, and a drip of 100 every 3 days |
| MessageSequence.UpdateMessage | components/wizard-steps/message-sequence-step.tsx:14-18 | The length is kept, index i holds the value, and every other index and every other field is unchanged |
| MessageSequence.CharsLeft | components/wizard-steps/message-sequence-step.tsx:52 | The counter plus the length is 160. It is non-negative exactly when the text fits, and 160 exactly when the text is empty |
| MessageSequence.Preview | components/wizard-steps/message-sequence-step.tsx:82-89 | The preview lists exactly the non-empty messages, in order, message i labelled i+1 |
| MessageSequence.EditShowsInPreview | components/wizard-steps/message-sequence-step.tsx:14-89 | An edit to a non-empty text shows under its label; emptying the message removes it |
| CampaignWizard.ViewAt | components/campaign-wizard.tsx:137-139 | Step k renders form k, and no form is rendered outside 1..3 |
| CampaignWizard.OnlyLastStepCompletes | components/campaign-wizard.tsx:153-169 | Only step 3 offers campaign creation |
| CampaignWizard.ForwardAt | components/campaign-wizard.tsx:153-169 | The forward button of a step (no contract of its own; OnlyLastStepCompletes states it) |
| CampaignWizard.NavigationStaysInRange | components/campaign-wizard.tsx:38-48 | Any sequence of presses keeps the step within 1..3 |
| CampaignWizard.NextPressesClamp | components/campaign-wizard.tsx:38-42 | From step 1, k presses of next reach step 1+k, stopping at 3 |
| CampaignWizard.NextPressesFromLast | components/campaign-wizard.tsx:38-42 | Next does nothing on step 3 |
| CampaignWizard.BackUndoesNext | components/campaign-wizard.tsx:38-48 | Back undoes next, and next undoes back, wherever they moved |
| CampaignWizard.Next | components/campaign-wizard.tsx:38-42 | `handleNext` on a step number (no contract of its own; NextPressesClamp, NextPressesFromLast and BackUndoesNext state it) |
| CampaignWizard.Back | components/campaign-wizard.tsx:44-48 | `handleBack` on a step number (no contract of its own; BackUndoesNext states it) |
| CampaignWizard.Navigate | components/campaign-wizard.tsx:38-48 | The step after a series of presses (no contract of its own; NavigationStaysInRange and NextPressesClamp state it) |
| CampaignWizard.InitialData | components/campaign-wizard.tsx:20-30 | The data a new wizard starts with (no contract of its own; the constructor and InitialFormShowsDefaults state it) |
| CampaignWizard.Wizard.constructor | components/campaign-wizard.tsx:20-30 | Starts at step 1, with the initial data (three empty messages, intervals 2/5/30, drip 100 every 3 days, batch 50, the account's number or "") |
| CampaignWizard.Wizard.HandleNext | components/campaign-wizard.tsx:38-42 | Increments the step only below 3, and keeps it in 1..3 |
| CampaignWizard.Wizard.HandleBack | components/campaign-wizard.tsx:44-48 | Decrements the step only above 1, and keeps it in 1..3 |
| CampaignWizard.Wizard.SetData | components/campaign-wizard.tsx:137-139 | A form's update replaces the data and keeps the step |
| A2pPanel.StepForStatus | components/a2p-registration.tsx:56-64 | `number_assigned` or `active` gives step 4, `campaign_registered` step 3, `brand_registered` step 2, anything else step 1 |
| A2pPanel.OpeningStep | components/a2p-registration.tsx:48-71 | On opening, a real error stays on step 1. "No row" (`PGRST116`) or success lands on the status's step, or step 1 without a row |
| A2pPanel.StepAfterFetch | components/a2p-registration.tsx:52-64 | The step after the lookup (no contract of its own; OpeningStep and ReloadAgreesWithRoutes state it) |
| A2pPanel.RegistrationAfterFetch | components/a2p-registration.tsx:52-57 | The registration after the lookup: the row found, else the current one, which a real error also keeps (no contract of its own; Panel.FetchRegistration assigns it) |
| A2pPanel.ReloadAgreesWithRoutes | components/a2p-registration.tsx:56-64 | The rows the brand, campaign and number routes write reopen the panel on steps 2, 3 and 4 |
| A2pPanel.DefaultsMatchRoute | components/a2p-registration.tsx:40-41 | The panel's defaults 402 and US are what the purchase route searches with |
| A2pPanel.Stepper | components/a2p-registration.tsx:198-207 | Brand, campaign and number are complete exactly when the brand id, campaign id and phone number are non-empty |
| A2pPanel.NumberCompletesLastStep | components/a2p-registration.tsx:198-207 | Buying a number completes the third step, and leaves the first two as they were |
| A2pPanel.Panel.constructor | components/a2p-registration.tsx:22-42 | Starts loading on step 1, with no registration and the defaults 402 and US |
| A2pPanel.Panel.FetchRegistration | components/a2p-registration.tsx:48-71 | The step and registration follow the lookup, a real error changes neither, and loading ends in every case. The form fields and the three in-flight flags are unchanged |
| A2pPanel.Panel.Advance | components/a2p-registration.tsx:101-108 | Success takes the route's registration and moves to the next step; failure keeps both |
| A2pPanel.Panel.HandleRegisterBrand | components/a2p-registration.tsx:73-112 | Success takes the route's registration and moves to step 2; failure keeps both. The brand flag ends cleared; loading, the form fields and the other two flags are unchanged |
| A2pPanel.Panel.HandleRegisterCampaign | components/a2p-registration.tsx:114-150 | Success takes the route's registration and moves to step 3; failure keeps both. The campaign flag ends cleared; loading, the form fields and the other two flags are unchanged |
| A2pPanel.Panel.HandleBuyNumber | components/a2p-registration.tsx:152-188 | The request carries the form's area code and country. Success takes the route's registration and moves to step 4; failure keeps both. The number flag ends cleared; loading, the form fields and the other two flags are unchanged |
| LibraryView.Resolve | components/library-view.tsx:34-35 | The first field when non-empty, else the second, else the fallback |
| LibraryView.Company | components/library-view.tsx:34 | The android's company with a given fallback (no contract of its own; CardFallbacks states it) |
| LibraryView.Niche | components/library-view.tsx:35 | The android's niche with a given fallback (no contract of its own; CardFallbacks states it) |
| LibraryView.Matches | components/library-view.tsx:33-42 | The filter's test on one android (no contract of its own; Search, EmptyQueryKeepsAll and SearchIgnoresCase state it) |
| LibraryView.Search | components/library-view.tsx:32-43 | Every android shown is one of the list and matches the query. SearchAppend pins the exact result: the matching androids, in order, each as often as it occurs |
| LibraryView.SearchAppend | components/library-view.tsx:32-43 | Searching two lists one after the other is searching each and concatenating, and one android is shown exactly when it matches |
| LibraryView.EmptyQueryKeepsAll | components/library-view.tsx:32-43 | An empty query keeps every android, in order |
| LibraryView.SearchIgnoresCase | components/library-view.tsx:33 | A query and its lower-case form show the same androids |
| LibraryView.CardFallbacks | components/library-view.tsx:156-157 | A card's company falls back to "My Business" and is never empty; its niche falls back to "General" |
| LibraryView.FirstLetters | components/library-view.tsx:90-93 | Each letter is the first letter of a non-empty word, with at most one per word. FirstLettersAppend and FirstLettersOfOne pin the exact result: one letter per non-empty word, in word order |
| LibraryView.FirstLettersAppend | components/library-view.tsx:90-93 | The letters of two word lists one after the other are the letters of each, concatenated |
| LibraryView.FirstLettersOfOne | components/library-view.tsx:90-93 | One word gives its first letter, or nothing when it is empty |
| LibraryView.Initials | components/library-view.tsx:88-96 | "AB" for a missing or empty name; otherwise at most two letters, none lower-case. InitialsOfWords gives the exact value |
| LibraryView.InitialsStartWithName | components/library-view.tsx:88-96 | A name not starting with a space is badged with its first letter, upper-cased |
| LibraryView.TwoWordInitials | components/library-view.tsx:88-96 | Two words give the upper-cased first letter of each |
| LibraryView.InitialsOfWords | components/library-view.tsx:88-96 | A non-empty name made of space-free words joined by single spaces is badged with the first two of the words' upper-cased first letters |
| LibraryView.WithoutId | components/library-view.tsx:75 | Every android kept is one of the list and has another id. WithoutIdAppend pins the exact result: the androids with another id, in order |
| LibraryView.WithoutIdAppend | components/library-view.tsx:75 | Deleting from two lists one after the other is deleting from each and concatenating, and one android stays exactly when its id differs |
| LibraryView.DeleteUnknownKeepsAll | components/library-view.tsx:75 | Deleting an id no android has keeps the list |
| LibraryView.Library.constructor | components/library-view.tsx:25-30 | Starts with the given androids, nothing pending, and the dialog closed |
| LibraryView.Library.DeleteClick | components/library-view.tsx:60-63 | Holds the android and opens the dialog |
| LibraryView.Library.DeleteConfirm | components/library-view.tsx:65-86 | With nothing pending, nothing changes. Success removes the held android's id and closes the dialog; failure keeps list and dialog. Deleting ends in every case |
| ChatCommon.CaptureStart | components/demo-chat.tsx:44 | The capture starts just after the last line break of the white space after the marker, or there is no match when that white space has no line break |
| ChatCommon.FindFrom | components/demo-chat.tsx:44 | A match found is a marker followed by white space holding a line break; none is found only when no such marker exists. FindFromLeftmost states that the leftmost one is found |
| ChatCommon.FindFromLeftmost | components/demo-chat.tsx:44 | When q is the first position from p holding a marker followed by white space with a line break, the search from p finds the capture after q |
| ChatCommon.CaptureEnd | components/demo-chat.tsx:44 | The capture ends at the first blank line, or at the end of the prompt |
| ChatCommon.NoMarkerGivesFallback | components/demo-chat.tsx:43-49 | A prompt without the marker gives the fallback |
| ChatCommon.MarkerWithoutBreakSkipped | components/demo-chat.tsx:44-49 | A marker with no line break after it is not a match |
| ChatCommon.MarkedMessageExtracted | components/demo-chat.tsx:44-46 | The marker, a line break, then a non-empty one-line message that does not start with white space, then a blank line, give the message, trimmed |
| ChatCommon.CaptureEndIsFirst | components/demo-chat.tsx:44 | The first blank line from the start is where the capture stops |
| ChatCommon.Capture | components/demo-chat.tsx:44 | The regular expression's group, or none (no contract of its own; FindFrom, CaptureEnd and MarkedMessageExtracted state it) |
| ChatCommon.Extract | components/demo-chat.tsx:43-49 | `extractFirstMessage` with the screen's fallback (no contract of its own; NoMarkerGivesFallback, MarkerWithoutBreakSkipped and MarkedMessageExtracted state it) |
| ChatCommon.ScreensAgree | components/chat-interface.tsx:30-35 | The two screens extract the same message and differ only in their fallback |
| ChatCommon.Composer.Submit | components/demo-chat.tsx:164-170 | Blank input, or input while loading, sends nothing and keeps the box. Otherwise the trimmed input is sent and the box cleared |
| DemoChat.JoinPartsAppend | components/demo-chat.tsx:21-24 | Joining two arrays is concatenating their joins |
| DemoChat.JoinPartsOfStrings | components/demo-chat.tsx:21-24 | String elements are used verbatim |
| DemoChat.TextlessPartIgnored | components/demo-chat.tsx:21-24 | An element without text contributes nothing, wherever it sits |
| DemoChat.PartText | components/demo-chat.tsx:22 | One element's text (no contract of its own; JoinPartsOfStrings and TextlessPartIgnored state it) |
| DemoChat.JoinParts | components/demo-chat.tsx:22-24 | The elements' text joined (no contract of its own; JoinPartsAppend, JoinPartsOfStrings and TextlessPartIgnored state it) |
| DemoChat.NormalizePriority | components/demo-chat.tsx:18-27 | String or array `content` decides, whatever `parts` and `text` are. Otherwise an array `parts` decides over `text`, and a non-array `parts` is ignored |
| DemoChat.NormalizeText | components/demo-chat.tsx:18-27 | `normalizeMessageText` (no contract of its own; NormalizePriority states the order of its checks) |
| DemoChat.GenericOpening | components/demo-chat.tsx:95-98 | Without a business context and a marker, the opening uses "My Business" and "services" |
| DemoChat.FallbackNamesAll | components/demo-chat.tsx:49 | The composed opening starts with the android's name and company, and has the niche before " quote" |
| DemoChat.Fallback | components/demo-chat.tsx:49 | The composed opening (no contract of its own; FallbackNamesAll states its parts) |
| DemoChat.FirstAiMessage | components/demo-chat.tsx:95-98 | The demo's opening SMS (no contract of its own; GenericOpening and ChatCommon.ScreensAgree state it) |
| ChatInterface.TextPartsAppend | components/chat-interface.tsx:108-112 | The text of two part lists is the concatenation of each list's text |
| ChatInterface.OtherPartsHidden | components/chat-interface.tsx:108-112 | Parts of another type are never shown, wherever they sit |
| ChatInterface.TextOnlyShowsAll | components/chat-interface.tsx:108-112 | A message of text parts shows each text, in order |
| ChatInterface.TextParts | components/chat-interface.tsx:109-112 | The text parts' text joined (no contract of its own; TextPartsAppend, OtherPartsHidden and TextOnlyShowsAll state it) |
| ChatInterface.Displayed | components/chat-interface.tsx:105-113 | String content is shown as it is; with neither content nor parts, nothing is shown |
| ChatInterface.UnmarkedPromptGreets | components/chat-interface.tsx:30-35 | Without the marker, the panel shows the fixed greeting |
| ChatInterface.OriginalMessage | components/chat-interface.tsx:30-35 | The panel's opening SMS (no contract of its own; UnmarkedPromptGreets and ChatCommon.ScreensAgree state it) |
| ChatInterface.OriginalPanel.constructor | components/chat-interface.tsx:40 | The original message starts shown |
| ChatInterface.OriginalPanel.Toggle | components/chat-interface.tsx:76 | Each toggle flips it |

## Left out

- The bodies of the database procedures are not visible, so each is a parameter or a simple assumed effect:
  - `process_due_messages`: its rows (the due-message selection) are an input list.
  - `schedule_next_message`: modelled as a recorded call.
  - `restart_dormant_contacts`: only its returned count is modelled, not its writes.
  - `increment_campaign_*`: modelled as +1 on the campaign's counter row.
  - `log_sms_message`: modelled as appending one row.
  - `log_campaign_event`: modelled as appending one event.
- Carrier, payment-provider and AI calls are foreign I/O. Their replies are parameters, and the provider's signature check is a parameter too.
- The current time is one integer `now` per request: every timestamp a request writes is that value. ISO date formatting is not modelled.
- Exceptions thrown by the runtime are not modelled: database client failures, JSON parse errors, and the 500 catch-all paths. A database error the route itself checks is modelled.
- Writes whose returned error the route ignores are assumed to succeed. These are:
  - the carrier webhook's log insert, contact and message updates and counter procedures (app/api/twilio/webhook/route.ts:26-47, 61-67);
  - the queue processor's updates, log insert and procedure calls (app/api/automation/process-queue/route.ts:72-118, 128);
  - the bulk send's logging procedures and error update (app/api/twilio/send/route.ts:58-90);
  - the billing webhook's upsert and two updates (app/api/billing/webhook/route.ts:48, 86, 104).
  The exceptions are the campaign route's audit insert and the brand and number routes' account writes, whose ignored errors are modelled.
- `.single()` is modelled as "exactly one matching row". An ignored lookup error is modelled as no row.
- `upsert` in the billing webhook is assumed to conflict on `user_id`; the table's key is not part of this model.
- BulkSend.Step: the error update orders by `created_at`. It is modelled as picking the last matching row in the table, taking insertion order as creation order.
- BulkSend.Step: a send that throws writes nothing; a throw part-way through the logging calls is not modelled.
- Strings are modelled as ASCII:
  - `trim`, `\s`, `toLowerCase` and `toUpperCase` cover ASCII white space and letters only;
  - `length` counts characters, not UTF-16 code units.
- The search regular expression is modelled as an explicit search (ChatCommon), not as general regular-expression semantics.
- The library's sort is left out: it uses `localeCompare` and `Date` parsing. Sorting does not change which androids are shown.
- LibraryView.Android: `prompt` is a string; a null prompt (which both chat screens turn into "") is not modelled.
- MessageSequence.UpdateMessage: requires an index inside the list. The form only calls it for indices 0 to 2 of the three messages; writing past the end of a JavaScript array (which leaves holes) is not modelled.
- ChatInterface.Displayed: for a message with parts, only string content and the part filter are stated. The join of the parts' text is proved by the lemmas beside it.
- React rendering, styling, toasts, timers, routing and page reloads are left out. So are the pages and the other components.
- The prompt generator, the templates, the pricing and payment-fee routes (floating point) and the thin wrappers around the limiter and the validator are left out.
- Plain database reads and deletes are not part of this model.
