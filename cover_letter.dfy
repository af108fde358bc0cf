/**
 * The cover letter page: its list of letter objects, the active letter and
 * the selected job. Generating a letter appends a new object; editing the
 * content copies the list (a shallow copy) and assigns the active letter's
 * `content` in place, so the letter object the previous list holds changes
 * too.
 */
module CoverLetter {
  import opened Wrappers
  import opened Text

  const Separator := " - "
  const DefaultJob := "Acme Technology - Senior Frontend Developer"
  const UntitledLetter := "New Cover Letter"

  /** A template literal's rendering of a value that may be `undefined`. */
  function Interpolate(o: Option<string>): string {
    match o
    case None => "undefined"
    case Some(s) => s
  }

  /** `${selectedJob.split(' - ')[0]} Application`. */
  function NewTitle(job: string): (r: string)
    ensures |r| >= |" Application"| && r[|r| - |" Application"|..] == " Application"
    ensures r[..|r| - |" Application"|] == SplitHead(job, Separator)
  {
    SplitHead(job, Separator) + " Application"
  }

  /** The generated letter's opening, which names `selectedJob.split(' - ')[1]` as the position. */
  function NewContent(job: string): string {
    "Dear Hiring Manager,\n\nI'm excited to apply for the " + Interpolate(SplitSecond(job, Separator)) + " position..."
  }

  /** `s` contains no hyphen. */
  predicate NoHyphen(s: string) {
    forall k :: 0 <= k < |s| ==> s[k] != '-'
  }

  lemma NoSeparatorWithoutHyphen(s: string)
    requires NoHyphen(s)
    ensures forall i: nat :: !OccursAt(s, Separator, i)
  {
    forall i: nat ensures !OccursAt(s, Separator, i) {
      if i + |Separator| <= |s| {
        assert s[i..i + |Separator|][1] == s[i + 1] != Separator[1];
      }
    }
  }

  /**
   * A job entry "<company> - <position>" whose company has no hyphen yields
   * the title "<company> Application"; when the position has none either,
   * the letter names that position.
   */
  lemma {:induction false} NewLetterForJob(company: string, position: string)
    requires NoHyphen(company)
    ensures NewTitle(company + Separator + position) == company + " Application"
    ensures NoHyphen(position) ==>
      NewContent(company + Separator + position) ==
        "Dear Hiring Manager,\n\nI'm excited to apply for the " + position + " position..."
  {
    var job := company + Separator + position;
    assert OccursAt(job, Separator, |company|) by {
      assert job[|company|..|company| + 3] == Separator;
    }
    forall k | 0 <= k < |company| ensures !OccursAt(job, Separator, k) {
      assert k + |Separator| <= |job|;
      var c := if k + 1 < |company| then company[k + 1] else Separator[0];
      assert job[k + 1] == c != '-';
      assert job[k..k + |Separator|][1] == job[k + 1] != Separator[1];
    }
    assert IndexOf(job, Separator, 0) == Some(|company|);
    assert job[..|company|] == company;
    if NoHyphen(position) {
      var rest := job[|company| + 3..];
      assert rest == position;
      forall k: nat | |company| + 3 <= k ensures !OccursAt(job, Separator, k) {
        if k + |Separator| <= |job| {
          assert job[k..k + |Separator|][1] == job[k + 1] == position[k + 1 - |company| - 3];
        }
      }
      assert IndexOf(job, Separator, |company| + 3).None?;
    }
  }

  /** A job without the separator keeps its whole text in the title, and the letter reads "undefined". */
  lemma NoSeparatorJob(job: string)
    requires forall i: nat :: !OccursAt(job, Separator, i)
    ensures NewTitle(job) == job + " Application"
    ensures NewContent(job) == "Dear Hiring Manager,\n\nI'm excited to apply for the undefined position..."
  {
  }

  /** A cover letter as the page holds it: a mutable object. */
  class Letter {
    var id: int
    var title: string
    var content: string

    constructor (id: int, title: string, content: string)
      ensures this.id == id && this.title == title && this.content == content
    {
      this.id := id;
      this.title := title;
      this.content := content;
    }
  }

  /** The values a letter object holds. */
  datatype LetterData = LetterData(id: int, title: string, content: string)

  class CoverLetterPage {
    var selectedJob: string
    var letters: seq<Letter>
    var activeLetterIndex: nat

    /** Distinct letter objects whose ids are their positions plus one. */
    ghost predicate Valid()
      reads this, letters
    {
      && (forall i, j :: 0 <= i < j < |letters| ==> letters[i] != letters[j])
      && (forall i :: 0 <= i < |letters| ==> letters[i].id == i + 1)
    }

    /** The letters' current values, in list order. */
    function Snapshot(): (r: seq<LetterData>)
      reads this, letters
      ensures |r| == |letters|
      ensures forall i :: 0 <= i < |letters| ==>
        r[i] == LetterData(letters[i].id, letters[i].title, letters[i].content)
    {
      seq(|letters|, i reads this, letters requires 0 <= i < |letters| =>
        LetterData(letters[i].id, letters[i].title, letters[i].content))
    }

    /** The heading: the active letter's title, or "New Cover Letter" when the index is past the end. */
    function DisplayedTitle(): (r: string)
      reads this, letters
      ensures activeLetterIndex < |letters| ==> r == Snapshot()[activeLetterIndex].title
      ensures activeLetterIndex >= |letters| ==> r == UntitledLetter
    {
      if activeLetterIndex < |letters| then letters[activeLetterIndex].title else UntitledLetter
    }

    /** The editor's text: the active letter's content, or "" when the index is past the end. */
    function DisplayedContent(): (r: string)
      reads this, letters
      ensures activeLetterIndex < |letters| ==> r == Snapshot()[activeLetterIndex].content
      ensures activeLetterIndex >= |letters| ==> r == ""
    {
      if activeLetterIndex < |letters| then letters[activeLetterIndex].content else ""
    }

    /** The page's initial state; the first letter's long text is taken as given. */
    constructor (initialContent: string)
      ensures Valid()
      ensures selectedJob == DefaultJob && activeLetterIndex == 0
      ensures Snapshot() == [LetterData(1, "Acme Technology Application", initialContent),
                             LetterData(2, "InnovateTech Cover Letter", "Cover letter content for InnovateTech...")]
    {
      var first := new Letter(1, "Acme Technology Application", initialContent);
      var second := new Letter(2, "InnovateTech Cover Letter", "Cover letter content for InnovateTech...");
      selectedJob := DefaultJob;
      letters := [first, second];
      activeLetterIndex := 0;
    }

    /**
     * `generateNewLetter()` once its timer fires: one new letter with id
     * length + 1 and the title and opening derived from the selected job,
     * made active.
     */
    method GenerateNewLetter()
      requires Valid()
      modifies this
      ensures Valid()
      ensures |letters| == |old(letters)| + 1 && letters[..|old(letters)|] == old(letters)
      ensures fresh(letters[|old(letters)|])
      ensures Snapshot() == old(Snapshot()) + [LetterData(|old(letters)| + 1, NewTitle(selectedJob), NewContent(selectedJob))]
      ensures activeLetterIndex == |old(letters)| && selectedJob == old(selectedJob)
      ensures DisplayedTitle() == NewTitle(selectedJob) && DisplayedContent() == NewContent(selectedJob)
    {
      var newLetter := new Letter(|letters| + 1, NewTitle(selectedJob), NewContent(selectedJob));
      var n := |letters|;
      letters := letters + [newLetter];
      activeLetterIndex := n;
      assert letters[..n] == old(letters);
      assert Snapshot()[..n] == old(Snapshot());
    }

    /**
     * The content editor's change handler: when the active index is in range,
     * the active letter object's content becomes `value`; the list still holds
     * the same objects. Otherwise nothing changes.
     */
    method EditContent(value: string)
      requires Valid()
      modifies this, if activeLetterIndex < |letters| then {letters[activeLetterIndex]} else {}
      ensures Valid()
      ensures letters == old(letters) && activeLetterIndex == old(activeLetterIndex) && selectedJob == old(selectedJob)
      ensures activeLetterIndex < |letters| ==>
        Snapshot() == old(Snapshot())[activeLetterIndex := old(Snapshot())[activeLetterIndex].(content := value)]
      ensures activeLetterIndex < |letters| ==> DisplayedContent() == value
      ensures activeLetterIndex >= |letters| ==> Snapshot() == old(Snapshot())
    {
      if activeLetterIndex < |letters| {
        var updated := letters;
        updated[activeLetterIndex].content := value;
        letters := updated;
      }
    }

    /** Choosing a letter in the list makes it active. */
    method SelectLetter(index: nat)
      requires Valid() && index < |letters|
      modifies this
      ensures Valid() && activeLetterIndex == index
      ensures letters == old(letters) && selectedJob == old(selectedJob) && Snapshot() == old(Snapshot())
    {
      activeLetterIndex := index;
    }

    /** Choosing a job in the selector. */
    method SelectJob(job: string)
      requires Valid()
      modifies this
      ensures Valid() && selectedJob == job
      ensures letters == old(letters) && activeLetterIndex == old(activeLetterIndex) && Snapshot() == old(Snapshot())
    {
      selectedJob := job;
    }
  }
}
