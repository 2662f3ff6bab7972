/// The library of a user's androids (generated sales assistants): a
/// case-insensitive search over name, prompt, company and niche, the
/// company badge's initials, and deletion of one android from the list.
module LibraryView {
  import opened Js
  import opened Text
  import opened Tables

  /** The business an android was generated for; any field may be missing. */
  datatype BusinessContext = BusinessContext(
    companyName: Option<string>,
    businessName: Option<string>,
    niche: Option<string>,
    industry: Option<string>)

  datatype Android = Android(id: string, name: string, prompt: string, context: Option<BusinessContext>)

  /** `context?.first || context?.second || fallback`. */
  function Resolve(first: Option<string>, second: Option<string>, fallback: string): (r: string)
    ensures Truthy(first) ==> r == first.value
    ensures !Truthy(first) && Truthy(second) ==> r == second.value
    ensures !Truthy(first) && !Truthy(second) ==> r == fallback
  {
    Or(first, Or(second, fallback))
  }

  /** The android's company: its company name, else its business name, else `fallback`. */
  function Company(a: Android, fallback: string): string {
    match a.context
    case None => fallback
    case Some(c) => Resolve(c.companyName, c.businessName, fallback)
  }

  /** The android's niche: its niche, else its industry, else `fallback`. */
  function Niche(a: Android, fallback: string): string {
    match a.context
    case None => fallback
    case Some(c) => Resolve(c.niche, c.industry, fallback)
  }

  /** The search filter: the lower-cased query occurs in the lower-cased
      name, prompt, company or niche (missing ones count as empty). */
  predicate Matches(a: Android, query: string) {
    var q := Lower(query);
    Contains(Lower(a.name), q) || Contains(Lower(a.prompt), q)
    || Contains(Lower(Company(a, "")), q) || Contains(Lower(Niche(a, "")), q)
  }

  function Matching(query: string): Android -> bool {
    (a: Android) => Matches(a, query)
  }

  /** `filteredAndroids`. */
  function Search(androids: seq<Android>, query: string): (shown: seq<Android>)
    ensures forall k :: 0 <= k < |shown| ==> shown[k] in androids && Matches(shown[k], query)
    ensures forall k :: 0 <= k < |androids| && Matches(androids[k], query) ==> androids[k] in shown
  {
    Where(androids, Matching(query))
  }

  /** The search keeps list order and multiplicity: searching two lists one
      after the other is searching each, and a single android is shown
      exactly when it matches. */
  lemma SearchAppend(a: seq<Android>, b: seq<Android>, x: Android, query: string)
    ensures Search(a + b, query) == Search(a, query) + Search(b, query)
    ensures Search([x], query) == if Matches(x, query) then [x] else []
  {
    WhereAppend(a, b, Matching(query));
    WhereOfOne(x, Matching(query));
  }

  /** An empty search shows every android. */
  lemma EmptyQueryKeepsAll(androids: seq<Android>)
    ensures Search(androids, "") == androids
  {
    forall k | 0 <= k < |androids|
      ensures Matching("")(androids[k])
    {
      ContainsEmpty(Lower(androids[k].name));
    }
    WhereAll(androids, Matching(""));
  }

  /** The search ignores the query's case: a query and its lower-case form
      show the same androids. */
  lemma SearchIgnoresCase(androids: seq<Android>, query: string)
    ensures Search(androids, query) == Search(androids, Lower(query))
  {
    assert Lower(Lower(query)) == Lower(query);
    WhereAgree(androids, Matching(query), Matching(Lower(query)));
  }

  /** The company shown on a card falls back to "My Business", the niche to
      "General"; so the card's company is never empty. */
  lemma CardFallbacks(a: Android)
    ensures Company(a, "My Business") != ""
    ensures Niche(a, "General") != ""
    ensures Company(a, "") != "" ==> Company(a, "My Business") == Company(a, "")
  {
  }

  /** `word[0]` for each word, joined: an empty word contributes nothing. */
  function FirstLetters(words: seq<string>): (letters: string)
    ensures |letters| <= |words|
    ensures forall k :: 0 <= k < |letters| ==> exists j :: 0 <= j < |words| && words[j] != "" && letters[k] == words[j][0]
    decreases |words|
  {
    if words == [] then ""
    else
      var rest := FirstLetters(words[1..]);
      assert forall k :: 0 <= k < |rest| ==> exists j :: 1 <= j < |words| && words[j] != "" && rest[k] == words[j][0] by {
        forall k | 0 <= k < |rest|
          ensures exists j :: 1 <= j < |words| && words[j] != "" && rest[k] == words[j][0]
        {
          var j :| 0 <= j < |words[1..]| && words[1..][j] != "" && rest[k] == words[1..][j][0];
          assert words[j + 1] == words[1..][j];
        }
      }
      if words[0] == "" then rest else [words[0][0]] + rest
  }

  /** One letter per non-empty word, in word order: the letters of two runs
      of words are the letters of each, and a single word gives its first
      letter, or nothing when it is empty. */
  lemma {:induction false} FirstLettersAppend(a: seq<string>, b: seq<string>)
    ensures FirstLetters(a + b) == FirstLetters(a) + FirstLetters(b)
    decreases |a|
  {
    if a == [] {
      assert a + b == b;
    } else {
      assert (a + b)[0] == a[0];
      assert (a + b)[1..] == a[1..] + b;
      FirstLettersAppend(a[1..], b);
    }
  }

  lemma FirstLettersOfOne(w: string)
    ensures FirstLetters([w]) == if w == "" then "" else [w[0]]
  {
    assert [w][1..] == [];
  }

  /** `getCompanyInitials`: "AB" for a missing or empty name; otherwise the
      upper-cased first letters of its space-separated words, at most two. */
  function Initials(companyName: Option<string>): (initials: string)
    ensures |initials| <= 2
    ensures !Truthy(companyName) ==> initials == "AB"
    ensures forall k :: 0 <= k < |initials| ==> !('a' <= initials[k] <= 'z')
  {
    if !Truthy(companyName) then "AB"
    else
      var letters := Upper(FirstLetters(Split(companyName.value, ' ')));
      if |letters| <= 2 then letters else letters[..2]
  }

  /** The initials of any name: written as its space-free words joined by
      spaces (as `Split` gives every name, see `JoinSplit`), the name is
      badged with the upper-cased first letters of its non-empty words, the
      first two of them. */
  lemma InitialsOfWords(words: seq<string>)
    requires |words| >= 1 && forall k :: 0 <= k < |words| ==> ' ' !in words[k]
    requires Join(words, ' ') != ""
    ensures var letters := Upper(FirstLetters(words));
      Initials(Some(Join(words, ' '))) == letters[..if |letters| < 2 then |letters| else 2]
  {
    SplitJoin(words, ' ');
  }

  /** A name that does not start with a space is badged with its first
      letter, upper-cased. */
  lemma {:induction false} InitialsStartWithName(name: string)
    requires name != "" && name[0] != ' '
    ensures var initials := Initials(Some(name));
      |initials| >= 1 && initials[0] == UpperChar(name[0])
  {
    var words := Split(name, ' ');
    assert words[0][0] == name[0];
  }

  /** Two words give the upper-cased first letter of each: "acme roofing"
      gives "AR". */
  lemma {:induction false} TwoWordInitials(first: string, second: string)
    requires first != "" && second != "" && ' ' !in first && ' ' !in second
    ensures Initials(Some(first + " " + second)) == [UpperChar(first[0]), UpperChar(second[0])]
  {
    var name := first + " " + second;
    assert name == first + [' '] + second;
    SplitFirstWord(first, second, ' ');
    SplitNoSep(second, ' ');
    var words := Split(name, ' ');
    assert words == [first, second];
    FirstLettersOfTwo(first, second);
    var letters := FirstLetters(words);
    assert Upper(letters) == [UpperChar(first[0]), UpperChar(second[0])];
  }

  lemma FirstLettersOfTwo(first: string, second: string)
    requires first != "" && second != ""
    ensures FirstLetters([first, second]) == [first[0], second[0]]
  {
    assert [first, second][1..] == [second];
    assert [second][1..] == [];
  }

  /** The android list after its deletion succeeded: the others, in order. */
  function WithoutId(androids: seq<Android>, id: string): (rest: seq<Android>)
    ensures forall k :: 0 <= k < |rest| ==> rest[k].id != id && rest[k] in androids
    ensures forall k :: 0 <= k < |androids| && androids[k].id != id ==> androids[k] in rest
  {
    Where(androids, (a: Android) => a.id != id)
  }

  /** Deletion keeps the others in order: deleting from two lists one after
      the other is deleting from each, and a single android stays exactly
      when its id differs. */
  lemma WithoutIdAppend(a: seq<Android>, b: seq<Android>, x: Android, id: string)
    ensures WithoutId(a + b, id) == WithoutId(a, id) + WithoutId(b, id)
    ensures WithoutId([x], id) == if x.id != id then [x] else []
  {
    WhereAppend(a, b, (c: Android) => c.id != id);
    WhereOfOne(x, (c: Android) => c.id != id);
  }

  /** Deleting an id no android has changes nothing. */
  lemma DeleteUnknownKeepsAll(androids: seq<Android>, id: string)
    requires forall k :: 0 <= k < |androids| ==> androids[k].id != id
    ensures WithoutId(androids, id) == androids
  {
    WhereAll(androids, (a: Android) => a.id != id);
  }

  class Library {
    var androids: seq<Android>
    var pending: Option<Android>
    var dialogOpen: bool
    var isDeleting: bool

    constructor(initial: seq<Android>)
      ensures androids == initial && pending.None? && !dialogOpen && !isDeleting
    {
      androids := initial;
      pending := None;
      dialogOpen := false;
      isDeleting := false;
    }

    /** `handleDeleteClick`: the android to delete is held and the dialog opens. */
    method DeleteClick(a: Android)
      modifies this
      ensures pending == Some(a) && dialogOpen && androids == old(androids) && isDeleting == old(isDeleting)
    {
      pending := Some(a);
      dialogOpen := true;
    }

    /** `handleDeleteConfirm`: `ok` is whether the delete request succeeded.
        On success the android leaves the list and the dialog closes; on
        failure list and dialog stay as they are. */
    method DeleteConfirm(ok: bool)
      modifies this
      ensures old(pending).None? ==> androids == old(androids) && pending == old(pending) && dialogOpen == old(dialogOpen)
      ensures old(pending).Some? && ok ==>
        androids == WithoutId(old(androids), old(pending).value.id) && pending.None? && !dialogOpen
      ensures old(pending).Some? && !ok ==>
        androids == old(androids) && pending == old(pending) && dialogOpen == old(dialogOpen)
      ensures old(pending).Some? ==> !isDeleting
      ensures old(pending).None? ==> isDeleting == old(isDeleting)
    {
      if pending.None? {
        return;
      }
      isDeleting := true;
      if ok {
        androids := WithoutId(androids, pending.value.id);
        dialogOpen := false;
        pending := None;
      }
      isDeleting := false;
    }
  }
}
