/** The progress page: the user's submissions as loaded from the store, the
    five filters over them, the two averages and the display bands. */
module Progress {
  import opened Wrappers
  import opened Records

  // ---------------------------------------------------------------------
  // Loading the snapshot
  // ---------------------------------------------------------------------

  /** A submission as the page holds it: the document's id and fields, with
      `createdAt` always present and `updatedAt` present only once revised. */
  datatype Submission = Submission(
    id: string,
    userId: Option<string>,
    title: Option<string>,
    text: Option<string>,
    createdAt: Time,
    updatedAt: Option<Time>,
    aiInfluence: Option<real>,
    score: Option<real>,
    readabilityScore: Option<real>,
    suggestions: Option<seq<Item>>,
    strengths: Option<seq<Item>>)

  const LoadFailedMessage := "Failed to load your progress data"

  /** The record built for one document; `now` is the page's current time. */
  function ToSubmission(doc: Doc, now: Time): (s: Submission)
    ensures s.id == doc.id
    ensures doc.data.createdAt.Some? ==> s.createdAt == doc.data.createdAt.value
    ensures doc.data.createdAt.None? ==> s.createdAt == now
    ensures s.updatedAt == doc.data.updatedAt
    ensures s.updatedAt.None? <==> doc.data.updatedAt.None?
    ensures s.aiInfluence == doc.data.aiInfluence && s.score == doc.data.score
    ensures s.title == doc.data.title && s.text == doc.data.text && s.userId == doc.data.userId
    ensures s.readabilityScore == doc.data.readabilityScore
    ensures s.suggestions == doc.data.suggestions && s.strengths == doc.data.strengths
  {
    var d := doc.data;
    Submission(
      doc.id, d.userId, d.title, d.text,
      if d.createdAt.Some? then d.createdAt.value else now,
      d.updatedAt,
      d.aiInfluence, d.score, d.readabilityScore, d.suggestions, d.strengths)
  }

  /** One record per document, in the snapshot's order. */
  function ToSubmissions(docs: seq<Doc>, now: Time): (subs: seq<Submission>)
  {
    seq(|docs|, i requires 0 <= i < |docs| => ToSubmission(docs[i], now))
  }

  /** Builds the list the way the page does: one push per document. */
  method CollectSubmissions(docs: seq<Doc>, now: Time) returns (list: seq<Submission>)
    ensures |list| == |docs|
    ensures forall i :: 0 <= i < |docs| ==> list[i] == ToSubmission(docs[i], now)
    ensures list == ToSubmissions(docs, now)
  {
    list := [];
    var k := 0;
    while k < |docs|
      invariant 0 <= k <= |docs|
      invariant |list| == k
      invariant forall i :: 0 <= i < k ==> list[i] == ToSubmission(docs[i], now)
    {
      list := list + [ToSubmission(docs[k], now)];
      k := k + 1;
    }
  }

  // ---------------------------------------------------------------------
  // Filters
  // ---------------------------------------------------------------------

  /** The four selective filters; "all" and unknown keys select everything. */
  datatype Criterion = HighAi | LowAi | HighScore | Updated

  function KeyOf(c: Criterion): (key: string)
  {
    match c
    case HighAi => "high-ai"
    case LowAi => "low-ai"
    case HighScore => "high-score"
    case Updated => "updated"
  }

  /** Whether a submission passes a filter. A comparison with a missing
      number is false, as it is in JavaScript against `undefined`. */
  predicate Matches(c: Criterion, s: Submission)
  {
    match c
    case HighAi => s.aiInfluence.Some? && s.aiInfluence.value > 50.0
    case LowAi => s.aiInfluence.Some? && s.aiInfluence.value <= 20.0
    case HighScore => s.score.Some? && s.score.value >= 8.0
    case Updated => s.updatedAt.Some?
  }

  /** Array `filter`: the elements passing `c`, in order. */
  function Where(subs: seq<Submission>, c: Criterion): (r: seq<Submission>)
  {
    if subs == [] then []
    else (if Matches(c, subs[0]) then [subs[0]] else []) + Where(subs[1..], c)
  }

  const SelectiveKeys: set<string> := {"high-ai", "low-ai", "high-score", "updated"}

  /** The list shown under the filter `key`. */
  function FilteredSubmissions(subs: seq<Submission>, key: string): (r: seq<Submission>)
    ensures key !in SelectiveKeys ==> r == subs
  {
    if key == "all" then subs
    else if key == "high-ai" then Where(subs, HighAi)
    else if key == "low-ai" then Where(subs, LowAi)
    else if key == "high-score" then Where(subs, HighScore)
    else if key == "updated" then Where(subs, Updated)
    else subs
  }

  /** `r` can be obtained from `s` by deleting elements. */
  predicate IsSubsequence(r: seq<Submission>, s: seq<Submission>)
    decreases |s|
  {
    if r == [] then true
    else if s == [] then false
    else if r[0] == s[0] then IsSubsequence(r[1..], s[1..])
    else IsSubsequence(r, s[1..])
  }

  lemma {:induction false} WhereKeepsOrder(subs: seq<Submission>, c: Criterion)
    ensures IsSubsequence(Where(subs, c), subs)
    ensures forall x :: x in Where(subs, c) ==> Matches(c, x)
  {
    if subs != [] {
      var r, rt := Where(subs, c), Where(subs[1..], c);
      WhereKeepsOrder(subs[1..], c);
      if Matches(c, subs[0]) {
        assert r == [subs[0]] + rt;
        assert r[0] == subs[0] && r[1..] == rt;
      } else {
        assert r == rt;
        assert rt != [] ==> rt[0] in rt && rt[0] != subs[0];
      }
    }
  }

  lemma {:induction false} WhereCounts(subs: seq<Submission>, c: Criterion)
    ensures forall x :: multiset(Where(subs, c))[x] == if Matches(c, x) then multiset(subs)[x] else 0
  {
    if subs != [] {
      WhereCounts(subs[1..], c);
      assert subs == [subs[0]] + subs[1..];
      assert multiset(subs) == multiset{subs[0]} + multiset(subs[1..]);
      if Matches(c, subs[0]) {
        assert multiset(Where(subs, c)) == multiset{subs[0]} + multiset(Where(subs[1..], c));
      } else {
        assert Where(subs, c) == Where(subs[1..], c);
      }
    }
  }

  /** Each selective filter keeps the original order and holds exactly the
      submissions passing its test, each as often as the input holds it. */
  lemma FilterSelectsExactlyMatching(subs: seq<Submission>, c: Criterion)
    ensures IsSubsequence(FilteredSubmissions(subs, KeyOf(c)), subs)
    ensures forall x :: x in FilteredSubmissions(subs, KeyOf(c)) ==> Matches(c, x)
    ensures forall x :: multiset(FilteredSubmissions(subs, KeyOf(c)))[x] ==
                        if Matches(c, x) then multiset(subs)[x] else 0
  {
    assert FilteredSubmissions(subs, KeyOf(c)) == Where(subs, c);
    WhereKeepsOrder(subs, c);
    WhereCounts(subs, c);
  }

  /** No submission is both high and low in AI influence, and one without an
      AI-influence value is in neither list. */
  lemma HighAndLowAiDisjoint(subs: seq<Submission>)
    ensures forall x :: x in FilteredSubmissions(subs, "high-ai") ==>
                        x !in FilteredSubmissions(subs, "low-ai")
    ensures forall x: Submission :: x.aiInfluence.None? ==>
                        x !in FilteredSubmissions(subs, "high-ai") &&
                        x !in FilteredSubmissions(subs, "low-ai")
  {
    FilterSelectsExactlyMatching(subs, HighAi);
    FilterSelectsExactlyMatching(subs, LowAi);
  }

  /** The documents that carry an `updatedAt`, in order. */
  function RevisedDocs(docs: seq<Doc>): (revised: seq<Doc>)
  {
    if docs == [] then []
    else (if docs[0].data.updatedAt.Some? then [docs[0]] else []) + RevisedDocs(docs[1..])
  }

  /** After loading, the "updated" filter shows exactly the records of the
      documents that were revised, in the snapshot's order. */
  lemma {:induction false} UpdatedFilterSelectsRevisedDocs(docs: seq<Doc>, now: Time)
    ensures FilteredSubmissions(ToSubmissions(docs, now), "updated") ==
            ToSubmissions(RevisedDocs(docs), now)
  {
    var subs := ToSubmissions(docs, now);
    if docs != [] {
      assert subs[1..] == ToSubmissions(docs[1..], now);
      UpdatedFilterSelectsRevisedDocs(docs[1..], now);
      assert subs[0] == ToSubmission(docs[0], now);
      if docs[0].data.updatedAt.Some? {
        assert ToSubmissions(RevisedDocs(docs), now) ==
               [ToSubmission(docs[0], now)] + ToSubmissions(RevisedDocs(docs[1..]), now);
      }
    }
  }

  // ---------------------------------------------------------------------
  // Averages
  // ---------------------------------------------------------------------

  datatype Metric = Quality | AiInfluence

  /** `value || 0`: a missing number counts as zero. */
  function ValueOrZero(o: Option<real>): (v: real)
  {
    if o.Some? then o.value else 0.0
  }

  function MetricOf(m: Metric, s: Submission): (v: real)
  {
    match m
    case Quality => ValueOrZero(s.score)
    case AiInfluence => ValueOrZero(s.aiInfluence)
  }

  /** `reduce` from the left, starting at 0. */
  function Total(subs: seq<Submission>, m: Metric): (sum: real)
  {
    if subs == [] then 0.0
    else Total(subs[..|subs| - 1], m) + MetricOf(m, subs[|subs| - 1])
  }

  function AverageOf(subs: seq<Submission>, m: Metric): (avg: real)
    ensures subs == [] ==> avg == 0.0
    ensures subs != [] ==> avg * |subs| as real == Total(subs, m)
  {
    if |subs| == 0 then 0.0 else Total(subs, m) / |subs| as real
  }

  datatype Averages = Averages(avgScore: real, avgAiInfluence: real)

  function AverageScores(subs: seq<Submission>): (r: Averages)
    ensures subs == [] ==> r.avgScore == 0.0 && r.avgAiInfluence == 0.0
    ensures r.avgScore == AverageOf(subs, Quality)
    ensures r.avgAiInfluence == AverageOf(subs, AiInfluence)
  {
    if |subs| == 0 then Averages(0.0, 0.0)
    else Averages(AverageOf(subs, Quality), AverageOf(subs, AiInfluence))
  }

  /** A record carrying only a score and an AI influence. */
  function Scored(id: string, score: real, aiInfluence: real): (s: Submission)
  {
    Submission(id, None, None, None, 0, None, Some(aiInfluence), Some(score), None, None, None)
  }

  /** Scores 6, 8 and 10 with AI influence 10, 30 and 80 average to 8 and 40. */
  lemma AveragesOfThree()
    ensures AverageScores([Scored("a", 6.0, 10.0), Scored("b", 8.0, 30.0), Scored("c", 10.0, 80.0)])
            == Averages(8.0, 40.0)
  {
    var subs := [Scored("a", 6.0, 10.0), Scored("b", 8.0, 30.0), Scored("c", 10.0, 80.0)];
    var two, one := subs[..2], subs[..1];
    assert two[..1] == one && one[..0] == [];
    assert Total(one, Quality) == Total(one[..0], Quality) + MetricOf(Quality, one[0]);
    assert Total(one, AiInfluence) == Total(one[..0], AiInfluence) + MetricOf(AiInfluence, one[0]);
    assert Total(one, Quality) == 6.0;
    assert Total(one, AiInfluence) == 10.0;
    assert Total(two, Quality) == 14.0 && Total(two, AiInfluence) == 40.0;
    assert Total(subs, Quality) == 24.0 && Total(subs, AiInfluence) == 120.0;
  }

  /** The smallest per-item value (missing counted as zero). */
  function MinMetric(subs: seq<Submission>, m: Metric): (lo: real)
    requires subs != []
    ensures forall i :: 0 <= i < |subs| ==> lo <= MetricOf(m, subs[i])
    ensures exists i :: 0 <= i < |subs| && lo == MetricOf(m, subs[i])
  {
    if |subs| == 1 then MetricOf(m, subs[0])
    else
      var rest := MinMetric(subs[1..], m);
      if MetricOf(m, subs[0]) <= rest then MetricOf(m, subs[0]) else rest
  }

  /** The largest per-item value (missing counted as zero). */
  function MaxMetric(subs: seq<Submission>, m: Metric): (hi: real)
    requires subs != []
    ensures forall i :: 0 <= i < |subs| ==> MetricOf(m, subs[i]) <= hi
    ensures exists i :: 0 <= i < |subs| && hi == MetricOf(m, subs[i])
  {
    if |subs| == 1 then MetricOf(m, subs[0])
    else
      var rest := MaxMetric(subs[1..], m);
      if MetricOf(m, subs[0]) >= rest then MetricOf(m, subs[0]) else rest
  }

  lemma {:induction false} TotalBounded(subs: seq<Submission>, m: Metric, lo: real, hi: real)
    requires forall i :: 0 <= i < |subs| ==> lo <= MetricOf(m, subs[i]) <= hi
    ensures lo * |subs| as real <= Total(subs, m) <= hi * |subs| as real
  {
    if subs != [] {
      var init := subs[..|subs| - 1];
      TotalBounded(init, m, lo, hi);
      var n := |init| as real;
      assert |subs| as real == n + 1.0;
      assert lo * (n + 1.0) == lo * n + lo;
      assert hi * (n + 1.0) == hi * n + hi;
    }
  }

  lemma QuotientBounded(t: real, n: real, lo: real, hi: real)
    requires n > 0.0 && lo * n <= t <= hi * n
    ensures lo <= t / n <= hi
  {
  }

  lemma AverageBounded(subs: seq<Submission>, m: Metric, lo: real, hi: real)
    requires subs != []
    requires forall i :: 0 <= i < |subs| ==> lo <= MetricOf(m, subs[i]) <= hi
    ensures lo <= AverageOf(subs, m) <= hi
  {
    TotalBounded(subs, m, lo, hi);
    QuotientBounded(Total(subs, m), |subs| as real, lo, hi);
  }

  /** Each average of a non-empty list lies between the smallest and the
      largest per-item value. */
  lemma AverageWithinExtremes(subs: seq<Submission>, m: Metric)
    requires subs != []
    ensures MinMetric(subs, m) <= AverageOf(subs, m) <= MaxMetric(subs, m)
  {
    AverageBounded(subs, m, MinMetric(subs, m), MaxMetric(subs, m));
  }

  // ---------------------------------------------------------------------
  // Display bands
  // ---------------------------------------------------------------------

  /** Message under the average quality score. */
  datatype QualityVerdict = Excellent | Good | RoomForImprovement

  function QualityMessage(avgScore: real): (v: QualityVerdict)
    ensures v == Excellent <==> avgScore >= 8.0
    ensures v == Good <==> 6.0 <= avgScore < 8.0
    ensures v == RoomForImprovement <==> avgScore < 6.0
  {
    if avgScore >= 8.0 then Excellent
    else if avgScore >= 6.0 then Good
    else RoomForImprovement
  }

  /** Message under the average AI influence. */
  datatype OriginalityVerdict = HighOriginality | ModerateInfluence | SignificantPatterns

  function OriginalityMessage(avgAiInfluence: real): (v: OriginalityVerdict)
    ensures v == HighOriginality <==> avgAiInfluence <= 20.0
    ensures v == ModerateInfluence <==> 20.0 < avgAiInfluence <= 50.0
    ensures v == SignificantPatterns <==> avgAiInfluence > 50.0
  {
    if avgAiInfluence <= 20.0 then HighOriginality
    else if avgAiInfluence <= 50.0 then ModerateInfluence
    else SignificantPatterns
  }

  /** Colour of a row's AI-influence badge. */
  datatype BadgeColor = Red | Yellow | Green

  function AiBadge(aiInfluence: Option<real>): (b: BadgeColor)
    ensures b == Red <==> aiInfluence.Some? && aiInfluence.value > 50.0
    ensures b == Yellow <==> aiInfluence.Some? && 20.0 < aiInfluence.value <= 50.0
    ensures b == Green <==> aiInfluence.None? || aiInfluence.value <= 20.0
  {
    if aiInfluence.Some? && aiInfluence.value > 50.0 then Red
    else if aiInfluence.Some? && aiInfluence.value > 20.0 then Yellow
    else Green
  }

  /** The badge's text: the percentage, or "N/A" (None) for a missing or
      zero value. */
  function AiBadgeText(aiInfluence: Option<real>): (t: Option<real>)
    ensures t.Some? <==> aiInfluence.Some? && aiInfluence.value != 0.0
    ensures t.Some? ==> t == aiInfluence
  {
    if aiInfluence.Some? && aiInfluence.value != 0.0 then aiInfluence else None
  }

  datatype Status = Revised | Original

  function StatusOf(s: Submission): (st: Status)
    ensures st == Revised <==> s.updatedAt.Some?
  {
    if s.updatedAt.Some? then Revised else Original
  }

  /** The "updated" filter and the status column agree. */
  lemma UpdatedFilterShowsRevised(subs: seq<Submission>)
    ensures forall x :: x in FilteredSubmissions(subs, "updated") ==> StatusOf(x) == Revised
    ensures forall x :: x in subs && StatusOf(x) == Revised ==> x in FilteredSubmissions(subs, "updated")
  {
    FilterSelectsExactlyMatching(subs, Updated);
    forall x | x in subs && StatusOf(x) == Revised
      ensures x in FilteredSubmissions(subs, "updated")
    {
      assert multiset(subs)[x] > 0;
    }
  }

  // ---------------------------------------------------------------------
  // Page state
  // ---------------------------------------------------------------------

  /** The page's state: the loaded list, the loading flag, the error message
      and the selected filter key. */
  class ProgressPage {
    var submissions: seq<Submission>
    var loading: bool
    var error: string
    var filter: string

    constructor ()
      ensures submissions == [] && loading && error == "" && filter == "all"
    {
      submissions := [];
      loading := true;
      error := "";
      filter := "all";
    }

    /** Loads the user's submissions. `snapshot` is the query's outcome:
        None when it fails. `now` is the time a missing `createdAt` takes. */
    method FetchSubmissions(snapshot: Option<seq<Doc>>, now: Time)
      modifies this
      ensures !loading && filter == old(filter)
      ensures snapshot.Some? ==> submissions == ToSubmissions(snapshot.value, now) && error == old(error)
      ensures snapshot.None? ==> submissions == old(submissions) && error == LoadFailedMessage
    {
      if snapshot.Some? {
        var list := CollectSubmissions(snapshot.value, now);
        submissions := list;
      } else {
        error := LoadFailedMessage;
      }
      loading := false;
    }

    /** The filter selector's change handler. */
    method SetFilter(key: string)
      modifies this
      ensures filter == key
      ensures submissions == old(submissions) && loading == old(loading) && error == old(error)
    {
      filter := key;
    }
  }
}
