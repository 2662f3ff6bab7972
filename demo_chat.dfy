/// The demo chat screen: the text of a chat message in whatever shape the
/// chat library delivers it, and the android's opening SMS, taken from its
/// prompt or else composed from its name, company and niche.
module DemoChat {
  import opened Js
  import opened Text
  import opened LibraryView
  import opened ChatCommon

  /** An element of a message's `content` or `parts` array: a bare string,
      or an object (or `null`) whose `text` may be missing. */
  datatype Part = Bare(s: string) | Record(text: Option<string>)

  /** A field of a message: a string, an array, or anything else (missing included). */
  datatype Field = Str(s: string) | Items(items: seq<Part>) | NotText

  datatype Message = Message(content: Field, parts: Field, text: Field)

  /** `typeof p === "string" ? p : p?.text || ""`. */
  function PartText(p: Part): string {
    match p
    case Bare(s) => s
    case Record(t) => Or(t, "")
  }

  /** `items.map(PartText).join("")`. */
  function JoinParts(items: seq<Part>): string
    decreases |items|
  {
    if items == [] then "" else PartText(items[0]) + JoinParts(items[1..])
  }

  /** Joining two arrays one after the other is joining each and concatenating. */
  lemma {:induction false} JoinPartsAppend(a: seq<Part>, b: seq<Part>)
    ensures JoinParts(a + b) == JoinParts(a) + JoinParts(b)
    decreases |a|
  {
    if a == [] {
      assert a + b == b;
    } else {
      assert (a + b)[0] == a[0];
      assert (a + b)[1..] == a[1..] + b;
      JoinPartsAppend(a[1..], b);
    }
  }

  /** An array of strings joins to their concatenation, and objects without
      text add nothing. */
  lemma {:induction false} JoinPartsOfStrings(items: seq<Part>, strings: seq<string>)
    requires |items| == |strings|
    requires forall k :: 0 <= k < |items| ==> items[k] == Bare(strings[k])
    ensures JoinParts(items) == Concat(strings)
    decreases |items|
  {
    if items != [] {
      JoinPartsOfStrings(items[1..], strings[1..]);
    }
  }

  /** An object without text contributes nothing, wherever it sits. */
  lemma TextlessPartIgnored(a: seq<Part>, b: seq<Part>, text: Option<string>)
    requires !Truthy(text)
    ensures JoinParts(a + [Record(text)] + b) == JoinParts(a + b)
  {
    var r := [Record(text)];
    assert JoinParts(r) == "" by {
      assert r[1..] == [];
    }
    JoinPartsAppend(a + r, b);
    JoinPartsAppend(a, r);
    JoinPartsAppend(a, b);
    assert JoinParts(a + r) == JoinParts(a);
  }

  /** `normalizeMessageText`: no message gives ""; else the first of a
      string `content`, an array `content`, an array `parts`, a string
      `text`; else "". */
  function NormalizeText(m: Option<Message>): string {
    match m
    case None => ""
    case Some(msg) =>
      if msg.content.Str? then msg.content.s
      else if msg.content.Items? then JoinParts(msg.content.items)
      else if msg.parts.Items? then JoinParts(msg.parts.items)
      else if msg.text.Str? then msg.text.s
      else ""
  }

  /** The checks come in a fixed order: `content` decides whenever it is a
      string or an array, whatever `parts` and `text` hold; `parts` decides
      over `text`; a string `parts` is not read at all. */
  lemma NormalizePriority(content: Field, parts: Field, text: Field, parts2: Field, text2: Field)
    ensures !content.NotText? ==>
      NormalizeText(Some(Message(content, parts, text))) == NormalizeText(Some(Message(content, parts2, text2)))
    ensures parts.Items? ==>
      NormalizeText(Some(Message(NotText, parts, text))) == JoinParts(parts.items)
    ensures !parts.Items? ==>
      NormalizeText(Some(Message(NotText, parts, text))) == NormalizeText(Some(Message(NotText, NotText, text)))
  {
  }

  /** The fixed pieces of the composed opening. */
  const Greet := "It's "
  const From := " from "
  const Here := " here."
  const Ask := " Is this the same person that got a "
  const Quote := " quote"
  const Recently := " from us in the last couple of months?"

  /** The opening SMS the demo composes when the prompt has none:
      "It's <name> from <company> here. Is this the same person that got a
      <niche> quote from us in the last couple of months?" */
  function Fallback(androidName: string, companyName: string, niche: string): string {
    Greet + androidName + From + companyName + Here + Ask + niche + Quote + Recently
  }

  /** `firstAIMessage`: the message after the prompt's marker, or the
      composed one, with the company defaulting to "My Business" and the
      niche to "services". */
  function FirstAiMessage(a: Android): string {
    Extract(a.prompt, Fallback(a.name, Company(a, "My Business"), Niche(a, "services")))
  }

  /** An android without a business context and without a marked message
      opens with the generic business and niche. */
  lemma GenericOpening(id: string, name: string, prompt: string)
    requires forall q :: !OccursAt(prompt, Marker, q)
    ensures FirstAiMessage(Android(id, name, prompt, None)) == Fallback(name, "My Business", "services")
  {
    NoMarkerGivesFallback(prompt, Fallback(name, "My Business", "services"));
  }

  /** The composed opening names the android, its company and its niche,
      each where the sentence puts it. */
  lemma FallbackNamesAll(androidName: string, companyName: string, niche: string)
    ensures var f := Fallback(androidName, companyName, niche);
      var head := Greet + androidName + From + companyName + Here;
      && StartsWith(f, head)
      && OccursAt(f, niche + Quote, |head + Ask|)
  {
    var head := Greet + androidName + From + companyName + Here;
    var f := Fallback(androidName, companyName, niche);
    assert f == head + (Ask + niche + Quote + Recently);
    assert f[..|head|] == head;
    assert f == (head + Ask) + (niche + Quote) + Recently;
    SliceOfConcat(head + Ask, niche + Quote, Recently);
  }

  lemma SliceOfConcat(x: string, y: string, z: string)
    ensures (x + y + z)[|x|..|x| + |y|] == y
  {
  }
}
