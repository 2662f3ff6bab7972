/// The message sequence form: one text field per message of the sequence,
/// each with a counter of the characters left of an SMS's 160, and a
/// preview of the messages written so far.
module MessageSequence {
  import opened CampaignWizard

  /** The length of one SMS segment, which the fields also cap. */
  const SmsLength := 160

  /** `updateMessage(index, value)`: the messages are copied, the copy gets
      the value at `index`, and the data takes the copy. */
  method UpdateMessage(d: CampaignData, index: nat, value: string) returns (d': CampaignData)
    requires index < |d.messages|
    ensures |d'.messages| == |d.messages|
    ensures d'.messages[index] == value
    ensures forall i :: 0 <= i < |d.messages| && i != index ==> d'.messages[i] == d.messages[i]
    ensures d' == d.(messages := d'.messages)
  {
    var copy := new string[|d.messages|](i requires 0 <= i < |d.messages| => d.messages[i]);
    copy[index] := value;
    d' := d.(messages := copy[..]);
  }

  /** The counter beside a message: what is left of 160 characters, never
      negative for text the field accepts, and 160 for an empty message. */
  function CharsLeft(message: string): (left: int)
    ensures left <= SmsLength
    ensures left >= 0 <==> |message| <= SmsLength
    ensures left == SmsLength <==> message == ""
    ensures left + |message| == SmsLength
  {
    SmsLength - |message|
  }

  /** An entry of the preview: the message's label number and its text. */
  datatype PreviewEntry = PreviewEntry(number: nat, text: string)

  /** The preview: the non-empty messages in order, message `i` labelled
      `i + 1`. */
  function Preview(messages: seq<string>): (p: seq<PreviewEntry>)
    ensures |p| <= |messages|
    ensures forall e :: e in p ==> 1 <= e.number <= |messages| && e.text == messages[e.number - 1] && e.text != ""
    ensures forall i :: 0 <= i < |messages| && messages[i] != "" ==> PreviewEntry(i + 1, messages[i]) in p
    ensures forall a, b :: 0 <= a < b < |p| ==> p[a].number < p[b].number
    decreases |messages|
  {
    if messages == [] then []
    else
      var n := |messages| - 1;
      var front := Preview(messages[..n]);
      if messages[n] == "" then front else front + [PreviewEntry(n + 1, messages[n])]
  }

  /** Editing a message to a non-empty text puts it in the preview under
      its label, and emptying it takes it out. */
  method EditShowsInPreview(d: CampaignData, index: nat, value: string) returns (preview: seq<PreviewEntry>)
    requires index < |d.messages|
    ensures value != "" ==> PreviewEntry(index + 1, value) in preview
    ensures value == "" ==> forall e :: e in preview ==> e.number != index + 1
  {
    var d' := UpdateMessage(d, index, value);
    preview := Preview(d'.messages);
  }
}
