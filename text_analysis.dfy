/** The text-analysis page: a form whose submit handler validates the text,
    obtains an analysis, writes one submission to the store and shows the
    result. The scorer, the store write and the signed-in user are external:
    each handler receives their outcomes as parameters. */
module TextAnalysis {
  import opened Wrappers
  import opened Records

  const MinTextLength := 100
  const TooShortMessage := "Text must be at least 100 characters long"
  const AnalysisFailedMessage := "Failed to analyze text. Please try again."
  const DefaultTitle := "Untitled Analysis"

  /** What the page shows after a successful submission: the id the store
      assigned and the analysis. */
  datatype Results = Results(id: string, analysis: Analysis)

  /** The page's five state fields, as one value. */
  datatype FormState = FormState(
    title: string,
    text: string,
    analyzing: bool,
    error: string,
    results: Option<Results>)

  /** `title || 'Untitled Analysis'`. */
  function PersistedTitle(title: string): (t: string)
    ensures t != ""
    ensures title != "" ==> t == title
    ensures title == "" ==> t == DefaultTitle
  {
    if title != "" then title else DefaultTitle
  }

  /** The document written for an analysed text. The readability level is not
      part of it: only the readability score is stored. */
  function PersistedRecord(userId: string, title: string, text: string, a: Analysis): (r: NewSubmission)
    ensures r.userId == userId && r.text == text
    ensures r.title == PersistedTitle(title)
    ensures r.aiInfluence == a.aiInfluence && r.score == a.score
    ensures r.readabilityScore == a.readability.score
    ensures r.suggestions == a.suggestions && r.strengths == a.strengths
  {
    NewSubmission(userId, PersistedTitle(title), text,
      a.aiInfluence, a.score, a.readability.score, a.suggestions, a.strengths)
  }

  /** JavaScript's `length` of a string: the number of UTF-16 code units,
      two for a character outside the Basic Multilingual Plane. */
  function Utf16Length(s: string): (n: nat)
    ensures |s| <= n <= 2 * |s|
    ensures (forall i :: 0 <= i < |s| ==> s[i] as int <= 0xFFFF) ==> n == |s|
  {
    if s == [] then 0
    else (if s[0] as int > 0xFFFF then 2 else 1) + Utf16Length(s[1..])
  }

  /** A text made only of characters outside the Basic Multilingual Plane
      is twice as long for JavaScript as it has characters. */
  lemma {:induction false} AstralTextLength(s: string)
    requires forall i :: 0 <= i < |s| ==> s[i] as int > 0xFFFF
    ensures Utf16Length(s) == 2 * |s|
  {
    if s != [] {
      AstralTextLength(s[1..]);
    }
  }

  /** Whether the "Analyze Text" button is enabled. */
  predicate SubmitEnabled(analyzing: bool, text: string)
    ensures SubmitEnabled(analyzing, text) <==> !analyzing && Utf16Length(text) >= MinTextLength
  {
    !(analyzing || Utf16Length(text) < MinTextLength)
  }

  /** Sixty emoji make a long enough text: the button is enabled. */
  lemma SixtyEmojiEnableSubmit(s: string)
    requires |s| == 60 && forall i :: 0 <= i < |s| ==> s[i] == '\U{1F600}'
    ensures SubmitEnabled(false, s)
  {
    AstralTextLength(s);
  }

  /** The band of the result's AI influence, used for the bar colour and the
      label beside the percentage. */
  datatype InfluenceLevel = High | Moderate | Low

  function AiInfluenceLevel(aiInfluence: real): (l: InfluenceLevel)
    ensures l == High <==> aiInfluence > 50.0
    ensures l == Moderate <==> 20.0 < aiInfluence <= 50.0
    ensures l == Low <==> aiInfluence <= 20.0
  {
    if aiInfluence > 50.0 then High
    else if aiInfluence > 20.0 then Moderate
    else Low
  }

  class TextAnalysisPage {
    var title: string
    var text: string
    var analyzing: bool
    var error: string
    var results: Option<Results>

    function State(): FormState
      reads this
    {
      FormState(title, text, analyzing, error, results)
    }

    constructor ()
      ensures State() == FormState("", "", false, "", None)
    {
      title := "";
      text := "";
      analyzing := false;
      error := "";
      results := None;
    }

    /** The title and text inputs' change handlers. */
    method SetTitle(t: string)
      modifies this
      ensures State() == old(State()).(title := t)
    {
      title := t;
    }

    method SetText(t: string)
      modifies this
      ensures State() == old(State()).(text := t)
    {
      text := t;
    }

    /** The form's submit handler. `currentUser` is the signed-in user's id
        (None when nobody is signed in, which makes building the document
        throw); `scored` is the scorer's outcome; `storedId` is the id the
        store assigns, or None when the write fails. `written` is the
        document handed to the store, if any; `whileScoring` is the state
        the page is in while the scorer runs. */
    method HandleSubmit(currentUser: Option<string>, scored: Option<Analysis>, storedId: Option<string>)
      returns (written: Option<NewSubmission>, ghost whileScoring: Option<FormState>)
      modifies this
      ensures title == old(title) && text == old(text)
      // Validation failure: only the error changes.
      ensures Utf16Length(old(text)) < MinTextLength ==>
                State() == old(State()).(error := TooShortMessage) &&
                written == None && whileScoring == None
      // Validation passes: the error is cleared and the page is analysing
      // while the scorer runs, and analysing is over at the end.
      ensures Utf16Length(old(text)) >= MinTextLength ==>
                whileScoring == Some(old(State()).(error := "", analyzing := true)) &&
                !analyzing
      // The document is built only from a score and a signed-in user.
      ensures written ==
                if Utf16Length(old(text)) >= MinTextLength && scored.Some? && currentUser.Some?
                then Some(PersistedRecord(currentUser.value, old(title), old(text), scored.value))
                else None
      // Success: results show the store's id and the analysis.
      ensures written.Some? && storedId.Some? ==>
                error == "" && results == Some(Results(storedId.value, scored.value))
      // Any failure after validation: the retry message, results untouched.
      ensures Utf16Length(old(text)) >= MinTextLength && !(written.Some? && storedId.Some?) ==>
                error == AnalysisFailedMessage && results == old(results)
    {
      written := None;
      whileScoring := None;
      if Utf16Length(text) < MinTextLength {
        error := TooShortMessage;
        return;
      }
      error := "";
      analyzing := true;
      whileScoring := Some(State());
      if scored.Some? && currentUser.Some? {
        var rec := PersistedRecord(currentUser.value, title, text, scored.value);
        written := Some(rec);
        if storedId.Some? {
          results := Some(Results(storedId.value, scored.value));
        } else {
          error := AnalysisFailedMessage;
        }
      } else {
        error := AnalysisFailedMessage;
      }
      analyzing := false;
    }

    /** The "New Analysis" button: empties the form and hides the results. */
    method HandleNewAnalysis()
      modifies this
      ensures title == "" && text == "" && results == None
      ensures error == old(error) && analyzing == old(analyzing)
    {
      title := "";
      text := "";
      results := None;
    }

    /** The "Clear" button: empties the text only. */
    method ClearText()
      modifies this
      ensures State() == old(State()).(text := "")
    {
      text := "";
    }
  }

  /** A submission of at least the minimum length, from a signed-in user,
      with the scorer and the store both succeeding: one document with the
      default title when none was given, and the results on screen. */
  method SubmitScenario(user: string, text: string, a: Analysis, id: string)
    returns (written: Option<NewSubmission>, shown: Option<Results>, enabled: bool)
    requires Utf16Length(text) >= MinTextLength
    ensures enabled
    ensures written == Some(PersistedRecord(user, "", text, a))
    ensures written.value.title == DefaultTitle
    ensures shown == Some(Results(id, a))
  {
    var page := new TextAnalysisPage();
    page.SetText(text);
    enabled := SubmitEnabled(page.analyzing, page.text);
    ghost var whileScoring;
    written, whileScoring := page.HandleSubmit(Some(user), Some(a), Some(id));
    shown := page.results;
  }
}
