/// What the two chat screens share: the search of an android's prompt for
/// the first SMS it already sent, written after a `FIRST MESSAGE SENT:`
/// marker, and the message box's submit guard.
///
/// The search follows the regular expression
/// `/FIRST MESSAGE SENT:\s*\n(.*?)(?=\n\n|$)/s` step by step: the leftmost
/// marker whose following run of white space holds a line break; the
/// greedy `\s*` gives back characters until the last line break of that
/// run, so the capture starts just after it; the lazy capture stops at the
/// first blank line (`\n\n`) or at the end of the prompt.
module ChatCommon {
  import opened Js
  import opened Text
  import opened Tables

  const Marker := "FIRST MESSAGE SENT:"

  /** The length of the run of white space starting at `m`. */
  function SpaceRun(s: string, m: nat): (n: nat)
    requires m <= |s|
    ensures m + n <= |s|
    ensures forall i :: m <= i < m + n ==> IsSpace(s[i])
    ensures m + n == |s| || !IsSpace(s[m + n])
    decreases |s| - m
  {
    if m < |s| && IsSpace(s[m]) then 1 + SpaceRun(s, m + 1) else 0
  }

  function IsLineBreak(c: char): bool {
    c == '\n'
  }

  /** Where the capture starts for the marker at `p`: just after the last
      line break of the white space that follows the marker; `None` when
      that white space holds no line break. */
  function CaptureStart(s: string, p: nat): (c: Option<nat>)
    requires p + |Marker| <= |s|
    ensures c.Some? ==> p + |Marker| < c.value <= |s| && s[c.value - 1] == '\n'
    ensures c.Some? ==> forall i :: p + |Marker| <= i < c.value ==> IsSpace(s[i])
    ensures c.Some? ==> forall i :: c.value <= i < |s| && (forall j :: c.value <= j <= i ==> IsSpace(s[j])) ==> s[i] != '\n'
    ensures c.None? ==> forall i :: p + |Marker| <= i < p + |Marker| + SpaceRun(s, p + |Marker|) ==> s[i] != '\n'
  {
    var m := p + |Marker|;
    var n := SpaceRun(s, m);
    var run := s[m..m + n];
    match LastIndex(run, IsLineBreak)
    case None =>
      assert forall i :: m <= i < m + n ==> s[i] == run[i - m];
      None
    case Some(k) =>
      assert forall i :: m <= i < m + n ==> s[i] == run[i - m];
      NoLaterBreak(s, m, n, k);
      Some(m + k + 1)
  }

  /** After the last line break of a run of white space, every character of
      white space up to any point is not a line break either. */
  lemma NoLaterBreak(s: string, m: nat, n: nat, k: nat)
    requires m + n <= |s| && k < n
    requires forall i :: m <= i < m + n ==> IsSpace(s[i])
    requires m + n == |s| || !IsSpace(s[m + n])
    requires forall i :: m + k < i < m + n ==> s[i] != '\n'
    ensures forall i :: m + k + 1 <= i < |s| && (forall j :: m + k + 1 <= j <= i ==> IsSpace(s[j])) ==> s[i] != '\n'
  {
  }

  /** The capture's start for the leftmost marker at or after `p` that is
      followed by white space holding a line break. */
  function FindFrom(s: string, p: nat): (c: Option<nat>)
    ensures c.Some? ==> exists q :: p <= q && q + |Marker| <= |s| && OccursAt(s, Marker, q) && CaptureStart(s, q) == c
    ensures c.None? ==> forall q :: p <= q && q + |Marker| <= |s| && OccursAt(s, Marker, q) ==> CaptureStart(s, q).None?
    decreases |s| - p
  {
    if p + |Marker| > |s| then None
    else if OccursAt(s, Marker, p) && CaptureStart(s, p).Some? then CaptureStart(s, p)
    else FindFrom(s, p + 1)
  }

  /** A marker at `r` followed by white space holding a line break. */
  predicate Hit(s: string, r: nat) {
    r + |Marker| <= |s| && OccursAt(s, Marker, r) && CaptureStart(s, r).Some?
  }

  /** `FindFrom` finds the leftmost match: a marker at `q` whose capture
      starts, with no such marker between `p` and `q`, is the one found. */
  lemma FindFromLeftmost(s: string, p: nat, q: nat)
    requires p <= q && Hit(s, q)
    requires forall r :: p <= r < q ==> !Hit(s, r)
    ensures FindFrom(s, p) == CaptureStart(s, q)
  {
    forall r | p <= r < q
      ensures FindFrom(s, r) == FindFrom(s, r + 1)
    {
      FindFromSkips(s, r);
    }
    ChainEqual((r: nat) => FindFrom(s, r), p, q);
    FindFromHits(s, q);
  }

  /** Neighbours that agree all the way from `p` to `q` make the ends agree. */
  lemma {:induction false} ChainEqual<T>(f: nat -> T, p: nat, q: nat)
    requires p <= q
    requires forall r: nat :: p <= r < q ==> f(r) == f(r + 1)
    ensures f(p) == f(q)
    decreases q - p
  {
    if p < q {
      ChainEqual(f, p + 1, q);
    }
  }

  /** A position without a match is skipped. */
  lemma FindFromSkips(s: string, p: nat)
    requires p + |Marker| <= |s| && !Hit(s, p)
    ensures FindFrom(s, p) == FindFrom(s, p + 1)
  {
  }

  /** A position with a match is the one found. */
  lemma FindFromHits(s: string, p: nat)
    requires Hit(s, p)
    ensures FindFrom(s, p) == CaptureStart(s, p)
  {
  }

  /** Where the lazy capture stops: the first blank line at or after `c`,
      or the end of the text. */
  function CaptureEnd(s: string, c: nat): (e: nat)
    requires c <= |s|
    ensures c <= e <= |s|
    ensures e == |s| || OccursAt(s, "\n\n", e)
    ensures forall j :: c <= j < e ==> !OccursAt(s, "\n\n", j)
    decreases |s| - c
  {
    if c == |s| || OccursAt(s, "\n\n", c) then c else CaptureEnd(s, c + 1)
  }

  /** The regular expression's first group, when it matches. */
  function Capture(s: string): Option<string> {
    match FindFrom(s, 0)
    case None => None
    case Some(c) => Some(s[c..CaptureEnd(s, c)])
  }

  /** `extractFirstMessage`: the trimmed capture when it is non-empty,
      otherwise the screen's own `fallback`. */
  function Extract(prompt: string, fallback: string): string {
    match Capture(prompt)
    case Some(t) => if t != "" then Trim(t) else fallback
    case None => fallback
  }

  /** A prompt without the marker gives the fallback. */
  lemma NoMarkerGivesFallback(prompt: string, fallback: string)
    requires forall q :: !OccursAt(prompt, Marker, q)
    ensures Extract(prompt, fallback) == fallback
  {
  }

  /** A marker with no line break anywhere after it is not a match: the
      `\n` after the white space is required. */
  lemma MarkerWithoutBreakSkipped(prompt: string, fallback: string)
    requires forall q :: q + |Marker| <= |prompt| && OccursAt(prompt, Marker, q) ==>
      forall i :: q + |Marker| <= i < |prompt| ==> prompt[i] != '\n'
    ensures Extract(prompt, fallback) == fallback
  {
  }

  /** The common case: the marker, a line break, then a one-line message
      followed by a blank line. The message is what comes out, trimmed. */
  lemma MarkedMessageExtracted(message: string, rest: string, fallback: string)
    requires message != "" && !IsSpace(message[0]) && '\n' !in message
    ensures Extract(Marker + "\n" + message + "\n\n" + rest, fallback) == Trim(message)
  {
    MarkedStart(message, rest);
    MarkedEnd(message, rest);
  }

  /** In such a prompt the capture starts just after the line break. */
  lemma MarkedStart(message: string, rest: string)
    requires message != "" && !IsSpace(message[0])
    ensures FindFrom(Marker + "\n" + message + "\n\n" + rest, 0) == Some(|Marker| + 1)
  {
    var s := Marker + "\n" + message + "\n\n" + rest;
    var m := |Marker|;
    assert OccursAt(s, Marker, 0) by {
      assert s[0..m] == Marker;
    }
    assert s[m] == '\n';
    assert s[m + 1] == message[0];
    assert SpaceRun(s, m) == 1 by {
      assert SpaceRun(s, m + 1) == 0;
    }
    var c := CaptureStart(s, 0);
    assert c.Some?;
    assert !IsSpace(s[m + 1]);
    assert c.value == m + 1;
  }

  /** In such a prompt the capture is the message itself. */
  lemma MarkedEnd(message: string, rest: string)
    requires '\n' !in message
    ensures var s := Marker + "\n" + message + "\n\n" + rest;
      var c := |Marker| + 1;
      && c + |message| <= |s|
      && CaptureEnd(s, c) == c + |message|
      && s[c..c + |message|] == message
  {
    var s := Marker + "\n" + message + "\n\n" + rest;
    var c := |Marker| + 1;
    var e := c + |message|;
    assert s == (Marker + "\n") + message + ("\n\n" + rest);
    assert s[c..e] == message;
    assert OccursAt(s, "\n\n", e) by {
      assert s[e..e + 2] == "\n\n";
    }
    forall j | c <= j < e
      ensures !OccursAt(s, "\n\n", j)
    {
      assert s[j] == message[j - c];
    }
    CaptureEndIsFirst(s, c, e);
  }

  /** A position where a blank line starts, with none before it from `c`, is where the capture stops. */
  lemma {:induction false} CaptureEndIsFirst(s: string, c: nat, e: nat)
    requires c <= e <= |s| && OccursAt(s, "\n\n", e)
    requires forall j :: c <= j < e ==> !OccursAt(s, "\n\n", j)
    ensures CaptureEnd(s, c) == e
    decreases e - c
  {
    if c < e {
      CaptureEndIsFirst(s, c + 1, e);
    }
  }

  /** The two screens extract the same message from the same prompt; they
      differ only in what they show when there is none. */
  lemma ScreensAgree(prompt: string, fallback1: string, fallback2: string)
    ensures Capture(prompt).Some? && Capture(prompt).value != "" ==>
      Extract(prompt, fallback1) == Extract(prompt, fallback2)
    ensures Capture(prompt).None? || Capture(prompt) == Some("") ==>
      Extract(prompt, fallback1) == fallback1 && Extract(prompt, fallback2) == fallback2
  {
  }

  /** The message box of a chat screen. */
  class Composer {
    var input: string

    constructor()
      ensures input == ""
    {
      input := "";
    }

    /** `handleSubmit`: blank input, or input while a reply is loading, sends
        nothing and keeps the box; otherwise the trimmed input is sent and
        the box is cleared. */
    method Submit(isLoading: bool) returns (sent: Option<string>)
      modifies this
      ensures IsBlank(old(input)) || isLoading ==> sent.None? && input == old(input)
      ensures !IsBlank(old(input)) && !isLoading ==> sent == Some(Trim(old(input))) && input == ""
      ensures sent.Some? ==> sent.value != "" && !IsSpace(sent.value[0]) && !IsSpace(sent.value[|sent.value| - 1])
    {
      if Trim(input) == "" || isLoading {
        return None;
      }
      sent := Some(Trim(input));
      input := "";
    }
  }
}
