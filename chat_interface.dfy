/// The chat screen of the library: the text shown for each chat message,
/// and the panel that shows or hides the opening SMS the conversation
/// replies to (taken from the prompt, or a generic greeting).
module ChatInterface {
  import opened Js
  import opened Text
  import opened LibraryView
  import opened ChatCommon

  /** The generic greeting shown when the prompt has no marked message. */
  const Greeting := "Hi! This is your assistant. Did you recently inquire about our services?"

  /** A part of a chat message: its type and its text, if any. */
  datatype UiPart = UiPart(partType: string, text: Option<string>)

  /** A chat message: its `content` when that is a string, and its parts when present. */
  datatype UiMessage = UiMessage(content: Option<string>, parts: Option<seq<UiPart>>)

  /** The text parts' texts joined; a text part without text adds nothing. */
  function TextParts(parts: seq<UiPart>): string
    decreases |parts|
  {
    if parts == [] then ""
    else (if parts[0].partType == "text" then Or(parts[0].text, "") else "") + TextParts(parts[1..])
  }

  lemma {:induction false} TextPartsAppend(a: seq<UiPart>, b: seq<UiPart>)
    ensures TextParts(a + b) == TextParts(a) + TextParts(b)
    decreases |a|
  {
    if a == [] {
      assert a + b == b;
    } else {
      assert (a + b)[0] == a[0];
      assert (a + b)[1..] == a[1..] + b;
      TextPartsAppend(a[1..], b);
    }
  }

  /** Parts of any other type (tool calls, reasoning, ...) are never shown,
      wherever they sit. */
  lemma OtherPartsHidden(a: seq<UiPart>, p: UiPart, b: seq<UiPart>)
    requires p.partType != "text"
    ensures TextParts(a + [p] + b) == TextParts(a + b)
  {
    assert TextParts([p]) == "" by {
      assert [p][1..] == [];
    }
    TextPartsAppend(a + [p], b);
    TextPartsAppend(a, [p]);
    TextPartsAppend(a, b);
    assert TextParts(a + [p]) == TextParts(a);
  }

  /** A message of text parts only shows each text in order. */
  lemma {:induction false} TextOnlyShowsAll(parts: seq<UiPart>, texts: seq<string>)
    requires |parts| == |texts|
    requires forall k :: 0 <= k < |parts| ==> parts[k] == UiPart("text", Some(texts[k]))
    ensures TextParts(parts) == Concat(texts)
    decreases |parts|
  {
    if parts != [] {
      TextOnlyShowsAll(parts[1..], texts[1..]);
    }
  }

  /** `textContent`: string content as it is; else the text parts joined;
      else nothing. */
  function Displayed(m: UiMessage): (shown: string)
    ensures m.content.Some? ==> shown == m.content.value
    ensures m.content.None? && m.parts.None? ==> shown == ""
  {
    match m.content
    case Some(c) => c
    case None =>
      match m.parts
      case Some(parts) => TextParts(parts)
      case None => ""
  }

  /** The opening SMS the panel shows. */
  function OriginalMessage(a: Android): string {
    Extract(a.prompt, Greeting)
  }

  /** Without a marked message, the panel shows the generic greeting. */
  lemma UnmarkedPromptGreets(a: Android)
    requires forall q :: !OccursAt(a.prompt, Marker, q)
    ensures OriginalMessage(a) == Greeting
  {
    NoMarkerGivesFallback(a.prompt, Greeting);
  }

  /** The panel with the opening SMS. */
  class OriginalPanel {
    var showOriginal: bool

    constructor()
      ensures showOriginal
    {
      showOriginal := true;
    }

    method Toggle()
      modifies this
      ensures showOriginal == !old(showOriginal)
    {
      showOriginal := !showOriginal;
    }
  }
}
