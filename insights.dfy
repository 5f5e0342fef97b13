/** The focus-insights panel: four study insights read off today's statistics
    by fixed threshold ladders, of which the first three are shown, plus the
    time formatting, score colouring and daily-goal percentage it displays. */
module Insights {
  import opened Basics
  import opened Ledger

  datatype InsightKind = Success | Info | Warning

  /** What the panel shows of an insight: its kind and its title. */
  datatype Insight = Insight(kind: InsightKind, title: string)

  /** The four questions the panel answers, in the order it answers them. */
  datatype Topic = SessionCount | SessionLength | FocusLevel | StudyTime

  /** The rung of a ladder an answer lands on. */
  datatype Tier = High | Middle | Low

  function Rank(t: Tier): nat
  {
    match t
    case High => 2
    case Middle => 1
    case Low => 0
  }

  /** A JavaScript quotient of two non-negative integers: `0 / 0` is NaN, a
      positive number over zero is positive infinity, and anything else is the
      exact fraction. */
  datatype Quotient = NaN | PosInfinity | Finite(num: nat, den: nat)

  function Divide(num: nat, den: nat): (q: Quotient)
    ensures q.Finite? <==> den > 0
    ensures den > 0 ==> q.num == num && q.den == den
    ensures q == NaN <==> num == 0 && den == 0
  {
    if den > 0 then Finite(num, den) else if num == 0 then NaN else PosInfinity
  }

  /** `q >= k`: false for NaN, true for positive infinity. */
  predicate AtLeast(q: Quotient, k: nat)
  {
    match q
    case NaN => false
    case PosInfinity => true
    case Finite(num, den) => num >= k * den
  }

  /** Sessions completed today: five or more is high, three or four middle. */
  function SessionCountTier(sessions: nat): (t: Tier)
    ensures t == High <==> sessions >= 5
    ensures t == Low <==> sessions < 3
  {
    if sessions >= 5 then High else if sessions >= 3 then Middle else Low
  }

  /** Average session length: 30 minutes or more is high, 15 or more middle. */
  function SessionLengthTier(avg: Quotient): (t: Tier)
    ensures t == High <==> AtLeast(avg, 1800)
    ensures t == Low <==> !AtLeast(avg, 900)
  {
    if AtLeast(avg, 1800) then High else if AtLeast(avg, 900) then Middle else Low
  }

  /** Average focus score: 90 or more is high, 70 or more middle. */
  function FocusTier(score: nat): (t: Tier)
    ensures t == High <==> score >= 90
    ensures t == Low <==> score < 70
  {
    if score >= 90 then High else if score >= 70 then Middle else Low
  }

  /** Total focus time in hours: three or more is high, one or more middle. */
  function StudyTimeTier(hours: Quotient): (t: Tier)
    ensures t == High <==> AtLeast(hours, 3)
    ensures t == Low <==> !AtLeast(hours, 1)
  {
    if AtLeast(hours, 3) then High else if AtLeast(hours, 1) then Middle else Low
  }

  function Title(topic: Topic, tier: Tier): string
  {
    match (topic, tier)
    case (SessionCount, High) => "Consistent Study Pattern"
    case (SessionCount, Middle) => "Good Progress"
    case (SessionCount, Low) => "Room for Improvement"
    case (SessionLength, High) => "Optimal Session Length"
    case (SessionLength, Middle) => "Good Session Length"
    case (SessionLength, Low) => "Short Sessions"
    case (FocusLevel, High) => "Exceptional Focus"
    case (FocusLevel, Middle) => "Good Focus Level"
    case (FocusLevel, Low) => "Focus Needs Work"
    case (StudyTime, High) => "Excellent Study Day"
    case (StudyTime, Middle) => "Solid Study Session"
    case (StudyTime, Low) => "Minimal Study Time"
  }

  /** The top rung is a success and the bottom one a warning; the middle rung
      is informational except for the session count, where it warns. */
  function Kind(topic: Topic, tier: Tier): (k: InsightKind)
    ensures tier == High ==> k == Success
    ensures tier == Low ==> k == Warning
    ensures tier == Middle ==> (k == Warning <==> topic == SessionCount)
    ensures k == Info ==> tier == Middle
  {
    match tier
    case High => Success
    case Middle => if topic == SessionCount then Warning else Info
    case Low => Warning
  }

  function MakeInsight(topic: Topic, tier: Tier): Insight
  {
    Insight(Kind(topic, tier), Title(topic, tier))
  }

  /** No two rungs of any ladders share a title, so a shown title tells which
      question was answered and on which rung. */
  lemma TitlesDistinct(t1: Topic, r1: Tier, t2: Topic, r2: Tier)
    ensures Title(t1, r1) == Title(t2, r2) <==> t1 == t2 && r1 == r2
  {
  }

  /** The insights for a snapshot of today's statistics, in display order:
      session count, average session length, focus score, total time. */
  function AIInsights(stats: DailyStats): (r: seq<Insight>)
    ensures |r| == 4
  {
    [ MakeInsight(SessionCount, SessionCountTier(stats.sessionsCompleted)),
      MakeInsight(SessionLength, SessionLengthTier(Divide(stats.totalFocusTime, stats.sessionsCompleted))),
      MakeInsight(FocusLevel, FocusTier(stats.averageFocusScore)),
      MakeInsight(StudyTime, StudyTimeTier(Divide(stats.totalFocusTime, 3600))) ]
  }

  /** `generateAIInsights`: pushes one insight per ladder, comparing the
      statistics against each threshold in turn. */
  method GenerateAIInsights(stats: DailyStats) returns (insights: seq<Insight>)
    ensures insights == AIInsights(stats)
  {
    ghost var expected := AIInsights(stats);
    insights := [];
    var avgSessionLength := Divide(stats.totalFocusTime, stats.sessionsCompleted);
    var totalHours := Divide(stats.totalFocusTime, 3600);

    if stats.sessionsCompleted >= 5 {
      insights := insights + [Insight(Success, "Consistent Study Pattern")];
    } else if stats.sessionsCompleted >= 3 {
      insights := insights + [Insight(Warning, "Good Progress")];
    } else {
      insights := insights + [Insight(Warning, "Room for Improvement")];
    }

    assert insights == expected[..1];

    if AtLeast(avgSessionLength, 1800) {
      insights := insights + [Insight(Success, "Optimal Session Length")];
    } else if AtLeast(avgSessionLength, 900) {
      insights := insights + [Insight(Info, "Good Session Length")];
    } else {
      insights := insights + [Insight(Warning, "Short Sessions")];
    }

    assert insights == expected[..2];

    if stats.averageFocusScore >= 90 {
      insights := insights + [Insight(Success, "Exceptional Focus")];
    } else if stats.averageFocusScore >= 70 {
      insights := insights + [Insight(Info, "Good Focus Level")];
    } else {
      insights := insights + [Insight(Warning, "Focus Needs Work")];
    }

    assert insights == expected[..3];

    if AtLeast(totalHours, 3) {
      insights := insights + [Insight(Success, "Excellent Study Day")];
    } else if AtLeast(totalHours, 1) {
      insights := insights + [Insight(Info, "Solid Study Session")];
    } else {
      insights := insights + [Insight(Warning, "Minimal Study Time")];
    }
    assert insights == expected[..4];
  }

  /** The session-count and total-time insights succeed and warn at the
      thresholds the panel promises, in seconds for the total. */
  lemma CountAndTimeThresholds(stats: DailyStats)
    ensures AIInsights(stats)[0].kind == Success <==> stats.sessionsCompleted >= 5
    ensures AIInsights(stats)[0].title == "Good Progress" <==> 3 <= stats.sessionsCompleted < 5
    ensures AIInsights(stats)[3].kind == Success <==> stats.totalFocusTime >= 10800
    ensures AIInsights(stats)[3].kind == Warning <==> stats.totalFocusTime < 3600
  {
    TitlesDistinct(SessionCount, SessionCountTier(stats.sessionsCompleted), SessionCount, Middle);
  }

  /** The panel lists the first three insights, so the total-time insight is
      computed but never shown. */
  function DisplayedInsights(stats: DailyStats): (r: seq<Insight>)
    ensures |r| == 3 && r == AIInsights(stats)[..3]
    ensures forall i, tier :: 0 <= i < |r| ==> r[i].title != Title(StudyTime, tier)
  {
    var all := AIInsights(stats);
    forall i, tier | 0 <= i < 3 ensures all[i].title != Title(StudyTime, tier) {
      var topic := [SessionCount, SessionLength, FocusLevel][i];
      var rung := match i
        case 0 => SessionCountTier(stats.sessionsCompleted)
        case 1 => SessionLengthTier(Divide(stats.totalFocusTime, stats.sessionsCompleted))
        case _ => FocusTier(stats.averageFocusScore);
      assert all[i] == MakeInsight(topic, rung);
      TitlesDistinct(topic, rung, StudyTime, tier);
    }
    all[..3]
  }

  /** A longer day never earns a worse rung on any ladder: more sessions,
      more focus time and a higher average score each move up or stay. */
  lemma TiersMonotone(a: DailyStats, b: DailyStats)
    requires a.sessionsCompleted <= b.sessionsCompleted
    requires a.totalFocusTime <= b.totalFocusTime
    requires a.averageFocusScore <= b.averageFocusScore
    ensures Rank(SessionCountTier(a.sessionsCompleted)) <= Rank(SessionCountTier(b.sessionsCompleted))
    ensures Rank(FocusTier(a.averageFocusScore)) <= Rank(FocusTier(b.averageFocusScore))
    ensures Rank(StudyTimeTier(Divide(a.totalFocusTime, 3600))) <= Rank(StudyTimeTier(Divide(b.totalFocusTime, 3600)))
  {
  }

  /** Before the first session, `0 / 0` is NaN and fails both length tests,
      so every ladder lands on its bottom rung. */
  lemma EmptyDayInsights()
    ensures AIInsights(InitialStats) == [
      Insight(Warning, "Room for Improvement"), Insight(Warning, "Short Sessions"),
      Insight(Warning, "Focus Needs Work"), Insight(Warning, "Minimal Study Time")]
  {
  }

  /** A positive total over zero sessions would be positive infinity and
      read as optimal session length; statistics the page keeps never have
      that shape, so with zero sessions the length insight is always
      "Short Sessions". */
  lemma NoSessionsMeansShortSessions(stats: DailyStats)
    requires StatsValid(stats) && stats.sessionsCompleted == 0
    ensures AIInsights(stats)[1] == Insight(Warning, "Short Sessions")
  {
  }

  lemma InfiniteAverageReadsOptimal(total: nat)
    requires total > 0
    ensures AIInsights(DailyStats(0, total, 0, 0, 0))[1] == Insight(Success, "Optimal Session Length")
  {
  }

  /** With sessions recorded, the length insight compares the exact average
      session length against 30 and 15 minutes. */
  lemma SessionLengthThresholds(stats: DailyStats)
    requires stats.sessionsCompleted > 0
    ensures AIInsights(stats)[1].kind == Success <==> stats.totalFocusTime >= 1800 * stats.sessionsCompleted
    ensures AIInsights(stats)[1].kind == Warning <==> stats.totalFocusTime < 900 * stats.sessionsCompleted
  {
  }

  /** `getScoreColor`, on the focus ladder's cut-offs. */
  function ScoreColor(score: nat): (c: string)
    ensures c == "text-success" <==> FocusTier(score) == High
    ensures c == "text-accent" <==> FocusTier(score) == Middle
    ensures c == "text-warning" <==> FocusTier(score) == Low
  {
    if score >= 90 then "text-success" else if score >= 70 then "text-accent" else "text-warning"
  }

  /** `getScoreBadgeVariant`, on the focus ladder's cut-offs. */
  function ScoreBadgeVariant(score: nat): (v: string)
    ensures v == "default" <==> FocusTier(score) == High
    ensures v == "secondary" <==> FocusTier(score) == Middle
    ensures v == "outline" <==> FocusTier(score) == Low
  {
    if score >= 90 then "default" else if score >= 70 then "secondary" else "outline"
  }

  /** The colour, the badge and the focus insight always tell the same story. */
  lemma ColourBadgeInsightAgree(stats: DailyStats)
    ensures ScoreColor(stats.averageFocusScore) == "text-success" <==> AIInsights(stats)[2].kind == Success
    ensures ScoreBadgeVariant(stats.averageFocusScore) == "outline" <==> AIInsights(stats)[2].kind == Warning
    ensures ScoreColor(stats.averageFocusScore) == "text-accent" <==> ScoreBadgeVariant(stats.averageFocusScore) == "secondary"
  {
  }

  /** `formatTime`: whole hours and leftover whole minutes, as "Hh Mm" when
      there is at least an hour and as "Mm" otherwise. */
  function FormatTime(seconds: nat): (t: string)
    ensures |t| >= 2 && t[|t| - 1] == 'm'
    ensures 'h' in t <==> seconds >= 3600
  {
    var hours := seconds / 3600;
    var minutes := (seconds % 3600) / 60;
    if hours > 0 then
      var t := NatToString(hours) + "h " + NatToString(minutes) + "m";
      assert t[|NatToString(hours)|] == 'h';
      t
    else
      NoLetterInDigits(NatToString(minutes), 'h');
      NatToString(minutes) + "m"
  }

  lemma NoLetterInDigits(s: string, c: char)
    requires AllDigits(s) && !IsDigit(c)
    ensures c !in s
  {
  }

  /** The position of the first `c` in `s`, if any. */
  function IndexOf(s: string, c: char): (r: Option<nat>)
    ensures r.Some? ==> r.value < |s| && s[r.value] == c && c !in s[..r.value]
    ensures r.None? ==> c !in s
  {
    if s == [] then None
    else if s[0] == c then Some(0)
    else match IndexOf(s[1..], c)
      case None => None
      case Some(k) => assert s[1..][..k] == s[1..k + 1]; Some(k + 1)
  }

  /** Reads a rendered duration back as its hours and minutes parts; a text
      without an hours part has zero hours. Each part must be a canonical
      numeral, so "05m" or "h 5m" reads as nothing. */
  function ParseTime(t: string): Option<(nat, nat)>
  {
    if |t| == 0 || t[|t| - 1] != 'm' then None
    else
      var body := t[..|t| - 1];
      match IndexOf(body, 'h')
      case None =>
        if CanonicalDigits(body) then Some((0, ParseDigits(body))) else None
      case Some(k) =>
        if k + 2 <= |body| && body[k + 1] == ' ' && CanonicalDigits(body[..k]) && CanonicalDigits(body[k + 2..])
        then Some((ParseDigits(body[..k]), ParseDigits(body[k + 2..])))
        else None
  }

  /** A minutes-only text reads back as zero hours and its minutes. */
  lemma ParseMinutesText(minutes: nat)
    ensures ParseTime(NatToString(minutes) + "m") == Some((0, minutes))
  {
    var m := NatToString(minutes);
    ParseNatToString(minutes);
    NoLetterInDigits(m, 'h');
    assert (m + "m")[..|m + "m"| - 1] == m;
  }

  /** An hours-and-minutes text reads back as its two parts. */
  lemma ParseHoursText(hours: nat, minutes: nat)
    ensures ParseTime(NatToString(hours) + "h " + NatToString(minutes) + "m") == Some((hours, minutes))
  {
    var h, m := NatToString(hours), NatToString(minutes);
    ParseNatToString(hours);
    ParseNatToString(minutes);
    NoLetterInDigits(h, 'h');
    var t := h + "h " + m + "m";
    var body := h + "h " + m;
    assert t[..|t| - 1] == body;
    assert body[|h|] == 'h' && body[..|h|] == h;
    assert IndexOf(body, 'h') == Some(|h|);
    assert body[|h| + 2..] == m;
  }

  /** The text shows the whole hours and the whole minutes left over, fewer
      than sixty, so rendering loses only the seconds past the last whole minute. */
  lemma FormatTimeRoundTrip(seconds: nat)
    ensures ParseTime(FormatTime(seconds)) == Some((seconds / 3600, (seconds % 3600) / 60))
    ensures (seconds % 3600) / 60 < 60
    ensures 3600 * (seconds / 3600) + 60 * ((seconds % 3600) / 60) == seconds - seconds % 60
  {
    var hours, minutes := seconds / 3600, (seconds % 3600) / 60;
    assert seconds - seconds % 60 == 3600 * hours + 60 * minutes;
    if hours > 0 {
      ParseHoursText(hours, minutes);
    } else {
      ParseMinutesText(minutes);
    }
  }

  /** The daily-goal percentage shown: the focus time as a share of one hour,
      rounded to the nearest whole percent (halves up) and capped at 100. */
  function GoalPercent(totalFocusTime: nat): (p: nat)
    ensures p <= 100
    ensures p == 100 <==> totalFocusTime >= 3582
    ensures p < 100 ==> 36 * (2 * p) <= 2 * totalFocusTime + 36 < 36 * (2 * p + 2)
  {
    Min(100, RoundHalfUp(totalFocusTime, 36))
  }

  /** More focus time never shows a smaller goal percentage. */
  lemma GoalPercentMonotone(a: nat, b: nat)
    requires a <= b
    ensures GoalPercent(a) <= GoalPercent(b)
  {
  }
}
