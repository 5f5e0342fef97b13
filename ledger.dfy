/** The Dashboard page's bookkeeping, as the pure record updates its handlers
    pass to `setUser` and `setTodayStats`: rewards credit the user's XP, coins
    and level, a finished focus session is folded into today's statistics, a
    purchase debits coins, and equipping an item changes the avatar or the
    background theme. */
module Ledger {
  import opened Basics
  import opened Shop

  datatype User = User(name: string, level: nat, xp: nat, coins: nat, streak: nat, avatar: string, totalXP: nat)

  /** Today's rolling statistics; times are in seconds. */
  datatype DailyStats = DailyStats(
    sessionsCompleted: nat,
    totalFocusTime: nat,
    averageFocusScore: nat,
    bestStreak: nat,
    xpEarned: nat)

  /** What the study timer reports when a focus session ends. */
  datatype SessionData = SessionData(duration: nat, xpEarned: nat, coinsEarned: nat, distractions: nat)

  const InitialUser := User("Productivity Hero", 1, 0, 2000, 0, "robot", 0)
  const InitialStats := DailyStats(0, 0, 0, 0, 0)

  /** The background themes the page can show. */
  const ThemeNames: set<string> := {"cosmic", "forest", "ocean", "sunset"}

  /** Focus score of one session: 100, less 10 per distraction, never below 0. */
  function FocusScore(distractions: nat): (score: nat)
    ensures score <= 100 && score % 10 == 0
    ensures score == 0 <==> distractions >= 10
    ensures score > 0 ==> score + 10 * distractions == 100
  {
    var raw := 100 - 10 * distractions;
    if raw > 0 then raw else 0
  }

  /** Level reached with a given lifetime XP: one level per full 1000 XP, starting at 1. */
  function LevelFor(totalXP: nat): (level: nat)
    ensures level >= 1
    ensures 1000 * (level - 1) <= totalXP < 1000 * level
  {
    totalXP / 1000 + 1
  }

  /** The reward update shared by finished sessions and finished quizzes. */
  function Credit(u: User, xp: nat, coins: nat): (r: User)
    ensures r.xp == u.xp + xp && r.totalXP == u.totalXP + xp && r.coins == u.coins + coins
    ensures r.level == LevelFor(r.totalXP)
    ensures r.name == u.name && r.streak == u.streak && r.avatar == u.avatar
  {
    u.(xp := u.xp + xp, coins := u.coins + coins, totalXP := u.totalXP + xp,
       level := (u.totalXP + xp) / 1000 + 1)
  }

  /** A purchase: the price is deducted only when the balance covers it. */
  function Debit(u: User, price: nat): (r: User)
    ensures u.coins >= price ==> r.coins + price == u.coins
    ensures u.coins < price ==> r == u
    ensures r.(coins := u.coins) == u
  {
    if u.coins >= price then u.(coins := u.coins - price) else u
  }

  /** The ledger invariant: the session XP counter mirrors lifetime XP and the
      level is the one lifetime XP earns. */
  ghost predicate LedgerValid(u: User)
  {
    u.xp == u.totalXP && u.level == LevelFor(u.totalXP)
  }

  /** A reward keeps the ledger invariant and never lowers the level. */
  lemma CreditKeepsLedger(u: User, xp: nat, coins: nat)
    requires LedgerValid(u)
    ensures LedgerValid(Credit(u, xp, coins))
    ensures Credit(u, xp, coins).level >= u.level
  {
  }

  function Min(a: nat, b: nat): nat { if a <= b then a else b }
  function Max(a: nat, b: nat): nat { if a >= b then a else b }

  /** The new average focus score after one more session: the session's own
      score for the first session of the day, and otherwise the rounded mean
      of the old average, weighted by the sessions it covers, and the new score. */
  function RunningAverage(avg: nat, n: nat, score: nat): (r: nat)
    ensures n == 0 ==> r == score
    ensures Min(avg, score) <= r <= Max(avg, score)
    ensures n > 0 ==> (n + 1) * (2 * r) <= 2 * (avg * n + score) + (n + 1) < (n + 1) * (2 * r + 2)
  {
    if n + 1 == 1 then score
    else
      var lo, hi := Min(avg, score), Max(avg, score);
      MulMonotone(lo, avg, n);
      MulMonotone(avg, hi, n);
      assert lo * (n + 1) <= avg * n + score <= hi * (n + 1);
      RoundBetween(avg * n + score, n + 1, lo, hi);
      RoundHalfUp(avg * n + score, n + 1)
  }

  /** Folds one finished session into today's statistics. */
  function FoldSession(s: DailyStats, duration: nat, xpEarned: nat, focusScore: nat): (r: DailyStats)
    ensures r.sessionsCompleted == s.sessionsCompleted + 1
    ensures r.totalFocusTime == s.totalFocusTime + duration
    ensures r.xpEarned == s.xpEarned + xpEarned
    ensures r.bestStreak >= s.bestStreak && r.bestStreak >= duration
    ensures r.bestStreak == s.bestStreak || r.bestStreak == duration
    ensures r.averageFocusScore == RunningAverage(s.averageFocusScore, s.sessionsCompleted, focusScore)
  {
    DailyStats(
      s.sessionsCompleted + 1,
      s.totalFocusTime + duration,
      RunningAverage(s.averageFocusScore, s.sessionsCompleted, focusScore),
      Max(s.bestStreak, duration),
      s.xpEarned + xpEarned)
  }

  /** What today's statistics always satisfy: the average is a percentage, the
      longest session fits in the total, and before the first session all is zero. */
  ghost predicate StatsValid(s: DailyStats)
  {
    s.averageFocusScore <= 100 && s.bestStreak <= s.totalFocusTime &&
    (s.sessionsCompleted == 0 ==> s == InitialStats)
  }

  lemma FoldKeepsStats(s: DailyStats, duration: nat, xpEarned: nat, focusScore: nat)
    requires StatsValid(s) && focusScore <= 100
    ensures StatsValid(FoldSession(s, duration, xpEarned, focusScore))
  {
  }

  /** Today's statistics after a run of sessions given as (duration, xp, score). */
  function FoldAll(s: DailyStats, sessions: seq<(nat, nat, nat)>): DailyStats
    decreases |sessions|
  {
    if sessions == [] then s
    else FoldAll(FoldSession(s, sessions[0].0, sessions[0].1, sessions[0].2), sessions[1..])
  }

  /** The streamed average never leaves the range of the scores that fed it. */
  lemma {:induction false} FoldAllAverageInRange(s: DailyStats, sessions: seq<(nat, nat, nat)>, lo: nat, hi: nat)
    requires s.sessionsCompleted == 0 || lo <= s.averageFocusScore <= hi
    requires sessions != [] || s.sessionsCompleted > 0
    requires forall i :: 0 <= i < |sessions| ==> lo <= sessions[i].2 <= hi
    ensures lo <= FoldAll(s, sessions).averageFocusScore <= hi
    decreases |sessions|
  {
    if sessions != [] {
      FoldAllAverageInRange(FoldSession(s, sessions[0].0, sessions[0].1, sessions[0].2), sessions[1..], lo, hi);
    }
  }

  /** The background theme an equipped theme item selects: the name after the
      `theme-` prefix for the four known themes, and the cosmic theme for the
      avatar and music ids the shop may also send. */
  function ThemeName(id: string): (t: string)
    ensures t in ThemeNames
    ensures id in {"theme-cosmic", "theme-forest", "theme-ocean", "theme-sunset"} ==> |id| > 6 && t == id[6..]
    ensures id !in {"theme-forest", "theme-ocean", "theme-sunset"} ==> t == "cosmic"
  {
    var themeMap := map["theme-cosmic" := "cosmic", "theme-forest" := "forest",
                        "theme-ocean" := "ocean", "theme-sunset" := "sunset"];
    if id in themeMap then themeMap[id] else "cosmic"
  }

  /** The page background and the sidebar's colour scheme agree: dark exactly
      for the forest and ocean backgrounds. */
  lemma ThemeAndModeAgree(id: string)
    ensures ModeForTheme(id) == Dark <==> ThemeName(id) in {"forest", "ocean"}
  {
  }

  /** The state the Dashboard page keeps. */
  datatype Page = Page(user: User, stats: DailyStats, theme: string)

  const InitialPage := Page(InitialUser, InitialStats, "cosmic")

  /** What the page's handlers receive. */
  datatype Event =
    | SessionCompleted(data: SessionData)
    | QuizCompleted(score: nat, xp: nat, coins: nat)
    | Purchased(item: ShopItem)
    | Equipped(item: ShopItem)

  /** Equipping: an avatar replaces the user's avatar, a theme the page
      background, and a music track changes nothing on the page. */
  function EquipOnPage(p: Page, item: ShopItem): (r: Page)
    ensures r.user.(avatar := p.user.avatar) == p.user && r.stats == p.stats
    ensures item.category == Avatar ==> r.user.avatar == item.id && r.theme == p.theme
    ensures item.category == Theme ==> r.user == p.user && r.theme == ThemeName(item.id)
    ensures item.category == Music ==> r == p
  {
    match item.category
    case Avatar => p.(user := p.user.(avatar := item.id))
    case Theme => p.(theme := ThemeName(item.id))
    case Music => p
  }

  /** The effect of one handler on the page state. */
  function Step(p: Page, e: Event): Page
  {
    match e
    case SessionCompleted(d) =>
      p.(user := Credit(p.user, d.xpEarned, d.coinsEarned),
         stats := FoldSession(p.stats, d.duration, d.xpEarned, FocusScore(d.distractions)))
    case QuizCompleted(_, xp, coins) => p.(user := Credit(p.user, xp, coins))
    case Purchased(item) => p.(user := Debit(p.user, item.price))
    case Equipped(item) => EquipOnPage(p, item)
  }

  function Replay(p: Page, events: seq<Event>): Page
    decreases |events|
  {
    if events == [] then p else Replay(Step(p, events[0]), events[1..])
  }

  /** The page invariant: the ledger invariant, valid statistics, XP earned
      today within lifetime XP, and a known background theme. */
  ghost predicate PageValid(p: Page)
  {
    LedgerValid(p.user) && StatsValid(p.stats) && p.stats.xpEarned <= p.user.totalXP &&
    p.theme in ThemeNames
  }

  /** Every handler keeps the page invariant and never lowers lifetime XP or level. */
  lemma StepKeepsPage(p: Page, e: Event)
    requires PageValid(p)
    ensures PageValid(Step(p, e))
    ensures Step(p, e).user.totalXP >= p.user.totalXP
    ensures Step(p, e).user.level >= p.user.level
  {
    match e
    case SessionCompleted(d) =>
      CreditKeepsLedger(p.user, d.xpEarned, d.coinsEarned);
      FoldKeepsStats(p.stats, d.duration, d.xpEarned, FocusScore(d.distractions));
    case QuizCompleted(_, xp, coins) =>
      CreditKeepsLedger(p.user, xp, coins);
    case Purchased(item) =>
    case Equipped(item) =>
  }

  /** From any valid page, and so from the initial one, every run of handler calls leaves the ledger
      invariant (`xp == totalXP`, level from lifetime XP), a percentage average
      and a known theme, with level and lifetime XP never decreasing. */
  lemma {:induction false} ReplayKeepsPage(p: Page, events: seq<Event>)
    requires PageValid(p)
    ensures PageValid(Replay(p, events))
    ensures Replay(p, events).user.level >= p.user.level
    ensures Replay(p, events).user.totalXP >= p.user.totalXP
    decreases |events|
  {
    if events != [] {
      StepKeepsPage(p, events[0]);
      ReplayKeepsPage(Step(p, events[0]), events[1..]);
    }
  }

  lemma InitialPageValid()
    ensures PageValid(InitialPage)
  {
  }

  /** The worked examples: one 1800 s session scoring 80 on a fresh day; scores
      100 then 50 averaging 75; and a 3600 s session with two distractions. */
  lemma FoldExamples(xp: nat)
    ensures FoldSession(InitialStats, 1800, xp, 80) == DailyStats(1, 1800, 80, 1800, xp)
    ensures FoldSession(FoldSession(InitialStats, 60, 0, 100), 60, 0, 50).averageFocusScore == 75
    ensures FocusScore(2) == 80 && FoldSession(InitialStats, 3600, xp, FocusScore(2)).averageFocusScore == 80
  {
  }
}
