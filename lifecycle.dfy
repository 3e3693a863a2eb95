/** How the two pages fit together through the store: what the text-analysis
    page writes is what the progress page reads back, and both pages band
    AI influence at the same thresholds. */
module Lifecycle {
  import opened Wrappers
  import opened Records
  import opened Progress
  import opened TextAnalysis

  /** The result label on the analysis page and the badge colour on the
      progress page put every AI-influence value in the same band. */
  lemma LevelMatchesBadge(aiInfluence: real)
    ensures AiInfluenceLevel(aiInfluence) == High <==> AiBadge(Some(aiInfluence)) == Red
    ensures AiInfluenceLevel(aiInfluence) == Moderate <==> AiBadge(Some(aiInfluence)) == Yellow
    ensures AiInfluenceLevel(aiInfluence) == Low <==> AiBadge(Some(aiInfluence)) == Green
  {
  }

  /** A submission written by the analysis page and created by the store at
      `at` loads as an original (unrevised) record dated `at`, carrying the
      user, the persisted title, the exact text and the scores, and it is
      banded as it was on the analysis page. */
  lemma WrittenSubmissionReadsBack(
    id: string, at: Time, now: Time,
    user: string, title: string, text: string, a: Analysis)
    ensures var s := ToSubmission(Created(id, at, PersistedRecord(user, title, text, a)), now);
      && s.id == id && s.createdAt == at
      && StatusOf(s) == Original
      && !Matches(Updated, s)
      && s.userId == Some(user) && s.text == Some(text)
      && s.title == Some(if title != "" then title else DefaultTitle)
      && MetricOf(Quality, s) == a.score
      && MetricOf(AiInfluence, s) == a.aiInfluence
      && (AiBadge(s.aiInfluence) == Red <==> AiInfluenceLevel(a.aiInfluence) == High)
      && (AiBadge(s.aiInfluence) == Green <==> AiInfluenceLevel(a.aiInfluence) == Low)
  {
  }

  /** A loaded snapshot whose documents carry no `updatedAt` shows nothing
      under the "updated" filter. */
  lemma {:induction false} FreshSnapshotHasNoRevisions(docs: seq<Doc>, now: Time)
    requires forall i :: 0 <= i < |docs| ==> docs[i].data.updatedAt.None?
    ensures FilteredSubmissions(ToSubmissions(docs, now), "updated") == []
  {
    UpdatedFilterSelectsRevisedDocs(docs, now);
    NoRevisedDocs(docs);
  }

  lemma {:induction false} NoRevisedDocs(docs: seq<Doc>)
    requires forall i :: 0 <= i < |docs| ==> docs[i].data.updatedAt.None?
    ensures RevisedDocs(docs) == []
  {
    if docs != [] {
      NoRevisedDocs(docs[1..]);
    }
  }
}
