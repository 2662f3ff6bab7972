/// The lead upload form's CSV reader. The file's text is split into lines
/// and blank lines are dropped; the first line is the header row, whose
/// cells are trimmed and lower-cased; every other line becomes a lead
/// whose fields come from the columns whose header mentions "name",
/// "phone" or "tag". Only leads with both a name and a phone are kept.
module LeadsUpload {
  import opened Js
  import opened Text
  import opened Tables
  import opened Schema
  import opened CampaignWizard

  /** `lines.filter(line => line.trim())`: the lines that are not blank, in order. */
  function NonBlank(lines: seq<string>): (r: seq<string>)
    ensures |r| <= |lines|
    ensures forall k :: 0 <= k < |r| ==> r[k] in lines && !IsBlank(r[k])
    ensures forall k :: 0 <= k < |lines| && !IsBlank(lines[k]) ==> lines[k] in r
    decreases |lines|
  {
    if lines == [] then []
    else
      var n := |lines| - 1;
      var front := NonBlank(lines[..n]);
      assert forall k :: 0 <= k < n ==> lines[..n][k] == lines[k];
      if IsBlank(lines[n]) then front else front + [lines[n]]
  }

  /** The kept lines keep file order and multiplicity: two runs of lines
      one after the other keep what each keeps, and a single line is kept
      exactly when it is not blank. */
  lemma {:induction false} NonBlankAppend(a: seq<string>, b: seq<string>)
    ensures NonBlank(a + b) == NonBlank(a) + NonBlank(b)
    decreases |b|
  {
    if b == [] {
      assert a + b == a;
    } else {
      var n := |b| - 1;
      assert (a + b)[..|a + b| - 1] == a + b[..n];
      assert (a + b)[|a + b| - 1] == b[n];
      NonBlankAppend(a, b[..n]);
    }
  }

  lemma NonBlankOfOne(line: string)
    ensures NonBlank([line]) == if IsBlank(line) then [] else [line]
  {
    assert [line][..0] == [];
  }

  /** The header row's cells, trimmed and lower-cased. */
  function Headers(line: string): seq<string> {
    var cells := Split(line, ',');
    seq(|cells|, k requires 0 <= k < |cells| => Lower(Trim(cells[k])))
  }

  /** A data line's cells, trimmed. */
  function Cells(line: string): seq<string> {
    var cells := Split(line, ',');
    seq(|cells|, k requires 0 <= k < |cells| => Trim(cells[k]))
  }

  function Mentions(key: string): string -> bool {
    (h: string) => Contains(h, key)
  }

  /** The right-most column whose header mentions `key`: the one whose
      assignment the loop over the headers makes last. */
  function Column(headers: seq<string>, key: string): Option<nat> {
    LastIndex(headers, Mentions(key))
  }

  /** `values[index]`: undefined past the end of a short row. */
  function Cell(values: seq<string>, index: nat): Option<string> {
    if index < |values| then Some(values[index]) else None
  }

  /** A text field of the lead: the cell of the right-most column for the
      key, unset when no header mentions the key. */
  function Field(headers: seq<string>, values: seq<string>, key: string): Option<string> {
    match Column(headers, key)
    case None => None
    case Some(i) => Cell(values, i)
  }

  /** The tags of the lead: the cell of the right-most "tag" column as a
      one-tag list, the empty list when that cell is empty or missing, and
      unset when no header mentions "tag". */
  function Tags(headers: seq<string>, values: seq<string>): Option<seq<string>> {
    match Column(headers, "tag")
    case None => None
    case Some(i) => Some(if Truthy(Cell(values, i)) then [values[i]] else [])
  }

  /** The lead a data line makes. */
  function LeadOf(headers: seq<string>, values: seq<string>): Lead {
    Lead(Field(headers, values, "name"), Field(headers, values, "phone"), Tags(headers, values))
  }

  /** The loop over the headers: each header that mentions a key assigns
      that key's field from the cell in its column. */
  method BuildLead(headers: seq<string>, values: seq<string>) returns (lead: Lead)
    ensures lead == LeadOf(headers, values)
  {
    lead := Lead(None, None, None);
    for index := 0 to |headers|
      invariant lead == LeadOf(headers[..index], values)
    {
      var header := headers[index];
      assert headers[..index + 1][..index] == headers[..index];
      if Contains(header, "name") {
        lead := lead.(leadName := Cell(values, index));
      }
      if Contains(header, "phone") {
        lead := lead.(phoneNumber := Cell(values, index));
      }
      if Contains(header, "tag") {
        lead := lead.(tags := Some(if Truthy(Cell(values, index)) then [values[index]] else []));
      }
    }
    assert headers[..|headers|] == headers;
  }

  predicate Complete(lead: Lead) {
    Truthy(lead.leadName) && Truthy(lead.phoneNumber)
  }

  /** `leads.filter(l => l.lead_name && l.phone_number)`. */
  function KeepComplete(leads: seq<Lead>): (kept: seq<Lead>)
    ensures |kept| <= |leads|
    ensures forall k :: 0 <= k < |kept| ==> kept[k] in leads && Complete(kept[k])
    ensures forall k :: 0 <= k < |leads| && Complete(leads[k]) ==> leads[k] in kept
    decreases |leads|
  {
    if leads == [] then []
    else
      var n := |leads| - 1;
      var front := KeepComplete(leads[..n]);
      assert forall k :: 0 <= k < n ==> leads[..n][k] == leads[k];
      if Complete(leads[n]) then front + [leads[n]] else front
  }

  /** The kept leads keep file order and multiplicity: two runs of leads
      one after the other keep what each keeps, and a single lead is kept
      exactly when it is complete. */
  lemma {:induction false} KeepCompleteAppend(a: seq<Lead>, b: seq<Lead>)
    ensures KeepComplete(a + b) == KeepComplete(a) + KeepComplete(b)
    decreases |b|
  {
    if b == [] {
      assert a + b == a;
    } else {
      var n := |b| - 1;
      assert (a + b)[..|a + b| - 1] == a + b[..n];
      assert (a + b)[|a + b| - 1] == b[n];
      KeepCompleteAppend(a, b[..n]);
    }
  }

  lemma KeepCompleteOfOne(lead: Lead)
    ensures KeepComplete([lead]) == if Complete(lead) then [lead] else []
  {
    assert [lead][..0] == [];
  }

  /** The file's non-blank lines. */
  function Lines(text: string): seq<string> {
    NonBlank(Split(text, '\n'))
  }

  /** One lead per data line, in order, read against the header row. */
  function DataLeads(lines: seq<string>): (leads: seq<Lead>)
    requires |lines| >= 1
    ensures |leads| == |lines| - 1
    ensures forall j :: 0 <= j < |lines| - 1 ==> leads[j] == LeadOf(Headers(lines[0]), Cells(lines[j + 1]))
  {
    var headers := Headers(lines[0]);
    var data := lines[1..];
    var leads := seq(|data|, j requires 0 <= j < |data| => LeadOf(headers, Cells(data[j])));
    assert forall j :: 0 <= j < |lines| - 1 ==> data[j] == lines[j + 1];
    leads
  }

  /** The leads a file's text yields; `None` when it has no non-blank line,
      where reading the header row throws and the form keeps its data. */
  function Parse(text: string): Option<seq<Lead>> {
    var lines := Lines(text);
    if lines == [] then None else Some(KeepComplete(DataLeads(lines)))
  }

  /** `reader.onload`: the data lines are mapped to leads one by one, then
      the incomplete ones are dropped. */
  method ReadLeads(text: string) returns (leads: Option<seq<Lead>>)
    ensures leads == Parse(text)
  {
    var lines := Lines(text);
    if lines == [] {
      return None;
    }
    var headers := Headers(lines[0]);
    var all: seq<Lead> := [];
    for j := 1 to |lines|
      invariant |all| == j - 1
      invariant forall k :: 0 <= k < j - 1 ==> all[k] == DataLeads(lines)[k]
    {
      var lead := BuildLead(headers, Cells(lines[j]));
      all := all + [lead];
    }
    assert all == DataLeads(lines);
    leads := Some(KeepComplete(all));
  }

  /** Every lead read has a name and a phone and comes from one of the data
      lines (never the header row), so there are at most as many leads as
      data lines. */
  lemma LeadsFromDataLines(text: string)
    requires Parse(text).Some?
    ensures var lines := Lines(text);
      var leads := Parse(text).value;
      && |leads| <= |lines| - 1
      && forall k :: 0 <= k < |leads| ==>
           && Complete(leads[k])
           && exists j :: 1 <= j < |lines| && leads[k] == LeadOf(Headers(lines[0]), Cells(lines[j]))
  {
    var lines := Lines(text);
    var all := DataLeads(lines);
    var leads := KeepComplete(all);
    forall k | 0 <= k < |leads|
      ensures exists j :: 1 <= j < |lines| && leads[k] == LeadOf(Headers(lines[0]), Cells(lines[j]))
    {
      var i :| 0 <= i < |all| && all[i] == leads[k];
      assert leads[k] == LeadOf(Headers(lines[0]), Cells(lines[i + 1]));
    }
  }

  /** A text with no non-blank line leaves the form's leads as they were. */
  lemma BlankFileReadsNothing(text: string)
    requires forall k :: 0 <= k < |Split(text, '\n')| ==> IsBlank(Split(text, '\n')[k])
    ensures Parse(text) == None
  {
  }

  /** When several headers mention a key, the right-most one wins, even
      when its cell is missing. */
  lemma RightmostColumnWins(headers: seq<string>, values: seq<string>, key: string, i: nat)
    requires i < |headers| && Contains(headers[i], key)
    requires forall j :: i < j < |headers| ==> !Contains(headers[j], key)
    ensures Field(headers, values, key) == Cell(values, i)
    ensures key == "tag" ==> Tags(headers, values) == Some(if i < |values| && values[i] != "" then [values[i]] else [])
  {
    var c := Column(headers, key);
    assert Mentions(key)(headers[i]);
    assert c == Some(i);
  }

  /** A row with fewer cells than headers leaves unset every field whose
      column lies past its end, and gives such a tag column no tags. */
  lemma ShortRowLeavesFieldsUnset(headers: seq<string>, values: seq<string>, key: string, i: nat)
    requires i < |headers| && Contains(headers[i], key) && |values| <= i
    requires forall j :: i < j < |headers| ==> !Contains(headers[j], key)
    ensures Field(headers, values, key) == None
    ensures key == "tag" ==> Tags(headers, values) == Some([])
  {
    RightmostColumnWins(headers, values, key, i);
  }

  /** Without a column whose header mentions "name", no lead is ever kept. */
  lemma MissingColumnDropsAll(headers: seq<string>, values: seq<string>)
    requires forall j :: 0 <= j < |headers| ==> !Contains(headers[j], "name")
    ensures !Complete(LeadOf(headers, values))
  {
    assert forall j :: 0 <= j < |headers| ==> !Mentions("name")(headers[j]);
  }

  /** The form after a file is read: its leads replaced by the leads read,
      or unchanged when reading failed; the rest of the data is kept. */
  method HandleFileUpload(d: CampaignData, text: string) returns (d': CampaignData)
    ensures Parse(text).None? ==> d' == d
    ensures Parse(text).Some? ==> d' == d.(leads := Parse(text).value)
    ensures forall k :: 0 <= k < |d'.leads| && d'.leads != d.leads ==> Complete(d'.leads[k])
  {
    var leads := ReadLeads(text);
    if leads.None? {
      return d;
    }
    d' := d.(leads := leads.value);
  }
}
