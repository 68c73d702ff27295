/** The decision tables of diary-guide.tools.ts: the keyword sentiment score
    and its label, the progress tracker's start and week number, the nudge
    chosen from the days since the last reflection, and the per-pillar
    question and resource tables. Everything here is a pure function of the
    tool's input. */
module DiaryGuide {
  import opened Common

  /** The four life pillars of the diary. */
  datatype Pillar = Work | Finances | Health | Relationships

  function PillarName(p: Pillar): string
  {
    match p
    case Work => "work"
    case Finances => "finances"
    case Health => "health"
    case Relationships => "relationships"
  }

  // ----------------------------------------------------------- sentiment

  const PositiveWords: seq<string> :=
    ["happy", "great", "good", "excellent", "progress", "achieved", "better"]
  const NegativeWords: seq<string> :=
    ["stressed", "difficult", "hard", "struggling", "worried", "tired"]

  predicate Distinct(words: seq<string>)
  {
    forall i, j :: 0 <= i < j < |words| ==> words[i] != words[j]
  }

  /** Neither keyword list repeats a word. */
  lemma KeywordListsAreDistinct()
    ensures Distinct(PositiveWords) && Distinct(NegativeWords)
  {
  }

  /** `words.filter(w => text.includes(w))`. */
  function Included(words: seq<string>, text: string): (r: seq<string>)
    ensures |r| <= |words|
    ensures forall k :: 0 <= k < |r| ==> r[k] in words && Contains(text, r[k])
    decreases |words|
  {
    if words == [] then []
    else if Contains(text, words[0]) then [words[0]] + Included(words[1..], text)
    else Included(words[1..], text)
  }

  /** The set of listed words the text includes. */
  function IncludedSet(words: seq<string>, text: string): set<string>
  {
    set w | w in words && Contains(text, w)
  }

  /** Filtering a list without repeats counts each included word once. */
  lemma {:induction false} CountIsDistinctWords(words: seq<string>, text: string)
    requires Distinct(words)
    ensures |Included(words, text)| == |IncludedSet(words, text)|
    decreases |words|
  {
    if words != [] {
      var rest := words[1..];
      assert Distinct(rest) by {
        forall i, j | 0 <= i < j < |rest| ensures rest[i] != rest[j] {
          assert rest[i] == words[i + 1] && rest[j] == words[j + 1];
        }
      }
      CountIsDistinctWords(rest, text);
      assert words[0] !in rest by {
        forall k | 0 <= k < |rest| ensures rest[k] != words[0] {
          assert rest[k] == words[k + 1];
        }
      }
      assert words == [words[0]] + rest;
      if Contains(text, words[0]) {
        assert IncludedSet(words, text) == {words[0]} + IncludedSet(rest, text);
      } else {
        assert IncludedSet(words, text) == IncludedSet(rest, text);
      }
    }
  }

  function PositiveCount(entry: string): nat
  {
    |Included(PositiveWords, Lower(entry))|
  }

  function NegativeCount(entry: string): nat
  {
    |Included(NegativeWords, Lower(entry))|
  }

  /** Each count is the number of distinct listed words that occur in the
      lower-cased entry. */
  lemma CountsAreDistinctWords(entry: string)
    ensures PositiveCount(entry) == |IncludedSet(PositiveWords, Lower(entry))|
    ensures NegativeCount(entry) == |IncludedSet(NegativeWords, Lower(entry))|
  {
    KeywordListsAreDistinct();
    CountIsDistinctWords(PositiveWords, Lower(entry));
    CountIsDistinctWords(NegativeWords, Lower(entry));
  }

  /** `Math.max(lo, Math.min(hi, x))`: `x` saturated into `[lo, hi]`. */
  function Clamp(lo: int, hi: int, x: int): (r: int)
    requires lo <= hi
    ensures lo <= r <= hi
    ensures lo <= x <= hi ==> r == x
    ensures x < lo ==> r == lo
    ensures x > hi ==> r == hi
  {
    if x > hi then hi else if x < lo then lo else x
  }

  /** The score of an entry: 5, plus one per positive word, minus one per
      negative word, kept within 1..10. */
  function SentimentScore(entry: string): (r: int)
    ensures 1 <= r <= 10
  {
    Clamp(1, 10, 5 + PositiveCount(entry) - NegativeCount(entry))
  }

  /** The score leans the way the keyword counts lean: clamping never moves
      it across the neutral 5. */
  lemma ScoreFollowsBalance(entry: string)
    ensures SentimentScore(entry) > 5 <==> PositiveCount(entry) > NegativeCount(entry)
    ensures SentimentScore(entry) < 5 <==> PositiveCount(entry) < NegativeCount(entry)
    ensures SentimentScore(entry) == 5 <==> PositiveCount(entry) == NegativeCount(entry)
  {
  }

  /** The entry is lower-cased first, so its case does not matter. */
  lemma ScoreIgnoresCase(entry: string)
    ensures SentimentScore(Upper(entry)) == SentimentScore(entry)
  {
    LowerOfUpper(entry);
  }

  /** The emotion word of the first insight. */
  datatype Mood = Positive | Challenging | Mixed

  function MoodOf(score: int): (m: Mood)
    ensures m == Positive <==> score > 6
    ensures m == Challenging <==> score < 4
    ensures m == Mixed <==> 4 <= score <= 6
  {
    if score > 6 then Positive else if score < 4 then Challenging else Mixed
  }

  function MoodWord(m: Mood): string
  {
    match m
    case Positive => "positive"
    case Challenging => "challenging"
    case Mixed => "mixed"
  }

  /** `s.charAt(0).toUpperCase() + s.slice(1)`. */
  function Capitalize(s: string): (r: string)
    ensures |r| == |s|
    ensures |s| > 0 ==> r[0] == UpperChar(s[0]) && r[1..] == s[1..]
  {
    if s == [] then "" else [UpperChar(s[0])] + s[1..]
  }

  /** The result of reflectionAnalyzerTool. */
  datatype Analysis = Analysis(
    sentimentScore: int,
    keyInsights: seq<string>,
    actionableSteps: seq<string>,
    resourceSuggestion: string)

  function InsightLine(p: Pillar, m: Mood): string
  {
    Capitalize(PillarName(p)) + " reflection shows " + MoodWord(m) + " emotions"
  }

  function GoalLine(p: Pillar): string
  {
    "Set a specific goal for " + PillarName(p) + " this week"
  }

  const AwarenessLine := "Continued awareness is key to growth in this area"
  const CheckInLine := "Track daily progress with brief check-ins"

  /** reflectionAnalyzerTool: the score, two insights (the first names the
      pillar and the mood of the score), two actions (the first names the
      pillar) and the pillar's resource. Earlier insights are accepted and
      not used. */
  function AnalyzeReflection(entry: string, p: Pillar, previousInsights: seq<string>): (r: Analysis)
    ensures r.sentimentScore == SentimentScore(entry) && 1 <= r.sentimentScore <= 10
    ensures |r.keyInsights| == 2 && |r.actionableSteps| == 2
    ensures r.keyInsights[0] == InsightLine(p, MoodOf(SentimentScore(entry)))
    ensures r.keyInsights[1] == AwarenessLine
    ensures r.actionableSteps[0] == GoalLine(p) && r.actionableSteps[1] == CheckInLine
    ensures r.resourceSuggestion == ResourceForPillar(p)
  {
    var score := SentimentScore(entry);
    Analysis(
      score,
      [InsightLine(p, MoodOf(score)), AwarenessLine],
      [GoalLine(p), CheckInLine],
      ResourceForPillar(p))
  }

  /** An entry with as many positive as negative words reads as mixed. */
  lemma BalancedEntryIsMixed(entry: string, p: Pillar, previousInsights: seq<string>)
    requires PositiveCount(entry) == NegativeCount(entry)
    ensures AnalyzeReflection(entry, p, previousInsights).keyInsights[0] == InsightLine(p, Mixed)
  {
    ScoreFollowsBalance(entry);
  }

  /** Two more positive than negative words is a positive reflection, two
      more negative ones a challenging one. */
  lemma LopsidedEntries(entry: string, p: Pillar, previousInsights: seq<string>)
    ensures PositiveCount(entry) >= NegativeCount(entry) + 2 ==>
      AnalyzeReflection(entry, p, previousInsights).keyInsights[0] == InsightLine(p, Positive)
    ensures NegativeCount(entry) >= PositiveCount(entry) + 2 ==>
      AnalyzeReflection(entry, p, previousInsights).keyInsights[0] == InsightLine(p, Challenging)
  {
  }

  // ------------------------------------------------------------ progress

  datatype TimeRange = Week | Month | All

  datatype Trend = Improving | Stable | Declining

  /** The report's summary: the starting text, or the trend report for a
      pillar over a time range. */
  datatype Summary =
    | StartingJourney(pillar: Pillar)
    | TrendReport(pillar: Pillar, trend: Trend, range: TimeRange)

  /** The text of a StartingJourney summary. */
  function StartingSummary(p: Pillar): string
  {
    "Starting your " + PillarName(p) + " journey. Keep reflecting to see progress over time!"
  }

  datatype Progress = Progress(averageSentiment: real, trend: Trend, summary: Summary, weekNumber: nat)

  /** The average reported before any score is recorded. */
  const StartingAverage: real := 5.0

  /** `reduce((a, b) => a + b, 0)`: the scores added from the left. */
  function Sum(s: seq<real>): real
  {
    if s == [] then 0.0 else Sum(s[..|s| - 1]) + s[|s| - 1]
  }

  function Mean(s: seq<real>): real
    requires |s| > 0
  {
    Sum(s) / |s| as real
  }

  /** `slice(-3)`: the last three scores, or all of them when there are fewer. */
  function Recent(s: seq<real>): (r: seq<real>)
    ensures |r| == if |s| <= 3 then |s| else 3
  {
    if |s| <= 3 then s else s[|s| - 3..]
  }

  /** `slice(0, -3)`: the scores before the last three. */
  function Older(s: seq<real>): (r: seq<real>)
    ensures |r| == if |s| <= 3 then 0 else |s| - 3
  {
    if |s| <= 3 then [] else s[..|s| - 3]
  }

  /** Recent averages more than half a point above the older ones improve,
      more than half a point below decline. */
  function TrendOf(recentAvg: real, olderAvg: real): Trend
  {
    if recentAvg > olderAvg + 0.5 then Improving
    else if recentAvg < olderAvg - 0.5 then Declining
    else Stable
  }

  /** `Math.ceil(n / 7)`: the number of seven-entry weeks the entries span. */
  function WeekNumber(n: nat): (r: nat)
    ensures n > 0 ==> (r - 1) * 7 < n <= r * 7
    ensures n == 0 ==> r == 0
  {
    (n + 6) / 7
  }

  /** progressTrackerTool: with no history the starting report; otherwise
      the mean score, the trend of the last three scores against the ones
      before them (against the mean when there are none before), and the
      weeks the scores span. */
  function TrackProgress(p: Pillar, range: TimeRange, history: seq<real>): (r: Progress)
    ensures history == [] ==> r == Progress(StartingAverage, Stable, StartingJourney(p), 1)
    ensures history != [] ==>
      && r.averageSentiment == Mean(history)
      && r.summary == TrendReport(p, r.trend, range)
      && r.weekNumber == WeekNumber(|history|)
  {
    if |history| == 0 then Progress(StartingAverage, Stable, StartingJourney(p), 1)
    else
      var average := Mean(history);
      var olderAvg := if |Older(history)| > 0 then Mean(Older(history)) else average;
      var trend := TrendOf(Mean(Recent(history)), olderAvg);
      Progress(average, trend, TrendReport(p, trend, range), WeekNumber(|history|))
  }

  /** The older and the recent scores are the history, split. */
  lemma OlderThenRecent(s: seq<real>)
    ensures Older(s) + Recent(s) == s
  {
    if |s| > 3 {
      assert s[..|s| - 3] + s[|s| - 3..] == s;
    }
  }

  /** Every report shows a week of at least 1; it is week 1 exactly while
      at most seven scores are recorded, and one more score than a multiple
      of seven opens a new week. */
  lemma WeekCountsSevens(p: Pillar, range: TimeRange, history: seq<real>)
    ensures TrackProgress(p, range, history).weekNumber >= 1
    ensures TrackProgress(p, range, history).weekNumber == 1 <==> |history| <= 7
    ensures |history| % 7 == 1 ==>
      TrackProgress(p, range, history).weekNumber == |history| / 7 + 1
  {
  }

  /** Scores of at least lo add up to at least n * lo. */
  lemma {:induction false} SumAtLeast(s: seq<real>, lo: real)
    requires forall i :: 0 <= i < |s| ==> lo <= s[i]
    ensures |s| as real * lo <= Sum(s)
  {
    if s != [] {
      var init := s[..|s| - 1];
      assert forall i :: 0 <= i < |init| ==> init[i] == s[i];
      SumAtLeast(init, lo);
    }
  }

  /** Scores of at most hi add up to at most n * hi. */
  lemma {:induction false} SumAtMost(s: seq<real>, hi: real)
    requires forall i :: 0 <= i < |s| ==> s[i] <= hi
    ensures Sum(s) <= |s| as real * hi
  {
    if s != [] {
      var init := s[..|s| - 1];
      assert forall i :: 0 <= i < |init| ==> init[i] == s[i];
      SumAtMost(init, hi);
    }
  }

  /** The mean of scores of at least lo is at least lo. */
  lemma MeanAtLeast(s: seq<real>, lo: real)
    requires |s| > 0
    requires forall i :: 0 <= i < |s| ==> lo <= s[i]
    ensures lo <= Mean(s)
  {
    SumAtLeast(s, lo);
    var n := |s| as real;
    assert Sum(s) == Mean(s) * n;
  }

  /** The mean of scores of at most hi is at most hi. */
  lemma MeanAtMost(s: seq<real>, hi: real)
    requires |s| > 0
    requires forall i :: 0 <= i < |s| ==> s[i] <= hi
    ensures Mean(s) <= hi
  {
    SumAtMost(s, hi);
    var n := |s| as real;
    assert Sum(s) == Mean(s) * n;
  }

  /** The mean of scores between lo and hi lies between lo and hi. */
  lemma MeanBetween(s: seq<real>, lo: real, hi: real)
    requires |s| > 0
    requires forall i :: 0 <= i < |s| ==> lo <= s[i] <= hi
    ensures lo <= Mean(s) <= hi
  {
    MeanAtLeast(s, lo);
    MeanAtMost(s, hi);
  }

  /** The reported average of scores on the 1 to 10 scale stays on it. */
  lemma AverageStaysOnScale(p: Pillar, range: TimeRange, history: seq<real>)
    requires forall i :: 0 <= i < |history| ==> 1.0 <= history[i] <= 10.0
    ensures 1.0 <= TrackProgress(p, range, history).averageSentiment <= 10.0
  {
    if history != [] {
      MeanBetween(history, 1.0, 10.0);
    }
  }

  /** Up to three scores have no older ones to compare with: the trend is
      stable. */
  lemma ShortHistoryIsStable(p: Pillar, range: TimeRange, history: seq<real>)
    requires |history| <= 3
    ensures TrackProgress(p, range, history).trend == Stable
  {
  }

  /** Scores that never move report a stable trend at that score. */
  lemma SteadyScoresAreStable(p: Pillar, range: TimeRange, history: seq<real>, c: real)
    requires history != []
    requires forall i :: 0 <= i < |history| ==> history[i] == c
    ensures TrackProgress(p, range, history).averageSentiment == c
    ensures TrackProgress(p, range, history).trend == Stable
  {
    MeanBetween(history, c, c);
    var recent, older := Recent(history), Older(history);
    OlderThenRecent(history);
    assert forall i :: 0 <= i < |recent| ==> recent[i] == history[|older| + i];
    MeanBetween(recent, c, c);
    if |older| > 0 {
      assert forall i :: 0 <= i < |older| ==> older[i] == history[i];
      MeanBetween(older, c, c);
    }
  }

  /** Older scores in the low range and a recent run a full point higher
      read as improving; a full point lower, as declining. */
  lemma TrendFollowsRecentScores(p: Pillar, range: TimeRange, history: seq<real>, lo: real, hi: real)
    requires |history| > 3 && lo <= hi
    requires forall i :: 0 <= i < |history| - 3 ==> lo <= history[i] <= hi
    ensures (forall i :: |history| - 3 <= i < |history| ==> history[i] >= hi + 1.0) ==>
      TrackProgress(p, range, history).trend == Improving
    ensures (forall i :: |history| - 3 <= i < |history| ==> history[i] <= lo - 1.0) ==>
      TrackProgress(p, range, history).trend == Declining
  {
    var recent, older := Recent(history), Older(history);
    assert forall i :: 0 <= i < |older| ==> older[i] == history[i];
    assert forall i :: 0 <= i < 3 ==> recent[i] == history[|history| - 3 + i];
    MeanBetween(older, lo, hi);
    if forall i :: |history| - 3 <= i < |history| ==> history[i] >= hi + 1.0 {
      MeanAtLeast(recent, hi + 1.0);
    }
    if forall i :: |history| - 3 <= i < |history| ==> history[i] <= lo - 1.0 {
      MeanAtMost(recent, lo - 1.0);
    }
  }

  // --------------------------------------------------------------- nudges

  /** The nudge message, tagged with the figure it reports. */
  datatype NudgeKind =
    | DoneToday
    | ReadyToday
    | Lapsed(days: int)
    | WeekCheckIn(week: int)

  datatype Nudge = Nudge(kind: NudgeKind, suggestedPillar: Option<Pillar>)

  /** nudgeGeneratorTool: today, yesterday and more than three days ago get
      their own nudge; any other day count gets the check-in for the given
      week, week 1 when none is given. */
  function NudgeFor(days: int, current: Option<Pillar>, week: Option<int>): (r: Nudge)
    ensures days == 0 ==> r == Nudge(DoneToday, None)
    ensures days == 1 ==> r == Nudge(ReadyToday, current)
    ensures days > 3 ==> r == Nudge(Lapsed(days), Some(Health))
    ensures days != 0 && days != 1 && days <= 3 ==>
      r == Nudge(WeekCheckIn(if week.Some? then week.value else 1), None)
  {
    if days == 0 then Nudge(DoneToday, None)
    else if days == 1 then Nudge(ReadyToday, current)
    else if days > 3 then Nudge(Lapsed(days), Some(Health))
    else Nudge(WeekCheckIn(match week case Some(w) => w case None => 1), None)
  }

  /** A pillar is suggested only after one day (the one last reflected on)
      or after a lapse (health); a lapse always suggests health. */
  lemma SuggestionRule(days: int, current: Option<Pillar>, week: Option<int>)
    ensures var r := NudgeFor(days, current, week);
      && (r.suggestedPillar.Some? ==> days == 1 || days > 3)
      && (days > 3 <==> r.kind.Lapsed?)
      && (r.kind.WeekCheckIn? <==> days < 0 || days == 2 || days == 3)
  {
  }

  function NudgeText(k: NudgeKind): string
  {
    match k
    case DoneToday => "Great job on today's reflection! See you tomorrow! \U{1F31F}"
    case ReadyToday =>
      "Ready for today's reflection? Just a quick check-in on how you're feeling! \U{2728}"
    case Lapsed(d) =>
      "It's been " + IntToString(d)
      + " days! No pressure, but a quick mood check can work wonders. How are you feeling today? \U{1F4AD}"
    case WeekCheckIn(w) =>
      "Week " + IntToString(w) + " check-in time! What's one win you've had recently? \U{1F3AF}"
  }

  // ------------------------------------------------------ lookup tables

  datatype Question = Question(question: string, scale: string)

  /** The position of an entry in a per-pillar table. */
  datatype Nth = First | Second | Third

  /** The question tables, entry by entry. */
  function Ask(p: Pillar, n: Nth): Question
  {
    match p
    case Work => (
      match n
      case First => Question("On a scale of 1-10, how satisfied are you with your current work?",
                             "1 (very unsatisfied) - 10 (very satisfied)")
      case Second => Question("How would you rate your work-life balance?", "1 (poor) - 10 (excellent)")
      case Third => Question("How engaged do you feel with your current projects?",
                             "1 (not engaged) - 10 (highly engaged)"))
    case Finances => (
      match n
      case First => Question("How confident do you feel about your financial situation?",
                             "1 (not confident) - 10 (very confident)")
      case Second => Question("How would you rate your current savings habits?", "1 (poor) - 10 (excellent)")
      case Third => Question("How comfortable are you with your financial knowledge?",
                             "1 (uncomfortable) - 10 (very comfortable)"))
    case Health => (
      match n
      case First => Question("How would you rate your overall physical health?", "1 (poor) - 10 (excellent)")
      case Second => Question("How consistent is your exercise routine?",
                              "1 (not consistent) - 10 (very consistent)")
      case Third => Question("How well do you manage stress?", "1 (poorly) - 10 (very well)"))
    case Relationships => (
      match n
      case First => Question("How satisfied are you with your close relationships?",
                             "1 (unsatisfied) - 10 (very satisfied)")
      case Second => Question("How well do you communicate with important people in your life?",
                              "1 (poorly) - 10 (very well)")
      case Third => Question("How much quality time do you spend with loved ones?",
                             "1 (very little) - 10 (plenty)"))
  }

  /** baselineAssessmentTool: the pillar's three questions, in table order. */
  function BaselineQuestions(p: Pillar): (r: seq<Question>)
    ensures |r| == 3
    ensures r[0] == Ask(p, First) && r[1] == Ask(p, Second) && r[2] == Ask(p, Third)
  {
    [Ask(p, First), Ask(p, Second), Ask(p, Third)]
  }

  /** getResourceForPillar: one suggestion per pillar. */
  function ResourceForPillar(p: Pillar): string
  {
    match p
    case Work => "Book: 'Deep Work' by Cal Newport - Focus strategies for career growth"
    case Finances => "Podcast: 'The Money Guy Show' - Practical financial advice"
    case Health => "Article: 'The Science of Better Sleep' - Sleep optimization tips"
    case Relationships => "Book: 'The 5 Love Languages' by Gary Chapman"
  }

  datatype ResourceKind = Book | Article | Podcast | Video

  datatype Resource = Resource(kind: ResourceKind, title: string, description: string, url: Option<string>)

  const PlaceholderUrl := "https://example.com"

  /** The curated tables, entry by entry: a book first, then a podcast, an
      article or a video. */
  function CuratedKind(p: Pillar, n: Nth): ResourceKind
  {
    match (p, n)
    case (_, First) => Book
    case (Work, _) => Podcast
    case (Finances, _) => Article
    case (Health, _) => Video
    case (Relationships, _) => Podcast
  }

  function CuratedTitle(p: Pillar, n: Nth): string
  {
    match (p, n)
    case (Work, First) => "Deep Work"
    case (Work, _) => "The Tim Ferriss Show"
    case (Finances, First) => "The Psychology of Money"
    case (Finances, _) => "Budgeting 101"
    case (Health, First) => "Why We Sleep"
    case (Health, _) => "Yoga for Beginners"
    case (Relationships, First) => "The 5 Love Languages"
    case (Relationships, _) => "Where Should We Begin?"
  }

  function CuratedDescription(p: Pillar, n: Nth): string
  {
    match (p, n)
    case (Work, First) => "Focus in a distracted world"
    case (Work, _) => "Productivity and performance"
    case (Finances, First) => "Wealth and happiness"
    case (Finances, _) => "Getting started with budgets"
    case (Health, First) => "The science of sleep"
    case (Health, _) => "10-minute daily practice"
    case (Relationships, First) => "Understanding love styles"
    case (Relationships, _) => "Relationship therapy insights"
  }

  function Curated(p: Pillar, n: Nth): Resource
  {
    Resource(CuratedKind(p, n), CuratedTitle(p, n), CuratedDescription(p, n), Some(PlaceholderUrl))
  }

  /** getCuratedResources (resourceFetcherTool): two resources per pillar,
      a book first and then one of another kind, each with the placeholder
      link; the topic is accepted and not used. */
  function CuratedResources(p: Pillar, topic: string): (r: seq<Resource>)
    ensures |r| == 2 && r[0].kind == Book && r[1].kind != Book
    ensures forall k :: 0 <= k < |r| ==> r[k].url == Some(PlaceholderUrl)
  {
    [Curated(p, First), Curated(p, Second)]
  }
}
