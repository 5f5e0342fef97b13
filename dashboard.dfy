/** The Dashboard page: it holds the user, today's statistics and the
    background theme, and its handlers are called back by the focus timer, the
    quiz and the shop sidebar. */
module DashboardPage {
  import opened Basics
  import opened Shop
  import opened Ledger
  import opened Quiz

  class Dashboard {
    var user: User
    var todayStats: DailyStats
    var currentTheme: string

    /** The page's state as a value. */
    function State(): Page
      reads this
    {
      Page(user, todayStats, currentTheme)
    }

    ghost predicate Valid()
      reads this
    {
      PageValid(State())
    }

    /** A page as first shown: the starting user with 2000 coins at level 1,
        empty statistics and the cosmic background. */
    constructor ()
      ensures State() == InitialPage && Valid()
    {
      user := InitialUser;
      todayStats := InitialStats;
      currentTheme := "cosmic";
      InitialPageValid();
    }

    /** `handleSessionComplete`: credits the session's XP and coins and folds
        the session, with its focus score, into today's statistics. */
    method HandleSessionComplete(data: SessionData)
      modifies this
      ensures State() == Step(old(State()), SessionCompleted(data))
      ensures user == Credit(old(user), data.xpEarned, data.coinsEarned)
      ensures todayStats == FoldSession(old(todayStats), data.duration, data.xpEarned, FocusScore(data.distractions))
      ensures currentTheme == old(currentTheme)
      ensures old(Valid()) ==> Valid()
    {
      var sessionFocusScore := FocusScore(data.distractions);
      user := Credit(user, data.xpEarned, data.coinsEarned);
      todayStats := FoldSession(todayStats, data.duration, data.xpEarned, sessionFocusScore);
      if old(Valid()) {
        StepKeepsPage(old(State()), SessionCompleted(data));
      }
    }

    /** `handleQuizComplete`: credits the quiz's XP and coins; the score only
        feeds the notification. */
    method HandleQuizComplete(score: nat, xp: nat, coins: nat)
      modifies this
      ensures State() == Step(old(State()), QuizCompleted(score, xp, coins))
      ensures user == Credit(old(user), xp, coins)
      ensures todayStats == old(todayStats) && currentTheme == old(currentTheme)
      ensures old(Valid()) ==> Valid()
    {
      user := Credit(user, xp, coins);
      if old(Valid()) {
        StepKeepsPage(old(State()), QuizCompleted(score, xp, coins));
      }
    }

    /** `handlePurchase`: deducts the price when the balance covers it. */
    method HandlePurchase(item: ShopItem)
      modifies this
      ensures State() == Step(old(State()), Purchased(item))
      ensures user.coins == if old(user.coins) >= item.price then old(user.coins) - item.price else old(user.coins)
      ensures user.(coins := old(user.coins)) == old(user)
      ensures todayStats == old(todayStats) && currentTheme == old(currentTheme)
      ensures old(Valid()) ==> Valid()
    {
      if user.coins >= item.price {
        user := user.(coins := user.coins - item.price);
      }
    }

    /** `handleEquip`: an avatar becomes the user's avatar and a theme the
        page background; music changes nothing here. */
    method HandleEquip(item: ShopItem)
      modifies this
      ensures State() == Step(old(State()), Equipped(item))
      ensures item.category == Avatar ==> user == old(user).(avatar := item.id) && currentTheme == old(currentTheme)
      ensures item.category == Theme ==> user == old(user) && currentTheme == ThemeName(item.id)
      ensures item.category == Music ==> user == old(user) && currentTheme == old(currentTheme)
      ensures todayStats == old(todayStats)
      ensures old(Valid()) ==> Valid()
    {
      if item.category == Avatar {
        user := user.(avatar := item.id);
      } else if item.category == Theme {
        currentTheme := ThemeName(item.id);
      }
    }
  }

  /** A purchase in the sidebar: the sidebar checks the balance it is shown
      and that the item is not owned, marks it owned and calls the page's
      purchase handler, which deducts the price. An owned item is never
      charged for again and the balance never goes below zero. */
  method BuyFromShop(page: Dashboard, shop: ShopSidebar, item: ShopItem) returns (purchased: bool)
    requires shop.Valid() && item in shop.items[..]
    modifies page, shop.items
    ensures shop.Valid()
    ensures purchased <==> old(page.user.coins) >= item.price && !item.owned
    ensures page.user.coins + (if purchased then item.price else 0) == old(page.user.coins)
    ensures page.State() == if purchased then Step(old(page.State()), Purchased(item)) else old(page.State())
    ensures shop.items[..] == if purchased then MarkOwned(old(shop.items[..]), item.id) else old(shop.items[..])
    ensures purchased || item.owned ==>
      forall i :: 0 <= i < shop.items.Length && shop.items[i].id == item.id ==> shop.items[i].owned
    ensures old(page.Valid()) ==> page.Valid()
  {
    purchased := shop.Purchase(item, page.user.coins);
    if purchased {
      page.HandlePurchase(item);
    }
  }

  /** Buying the same listed item twice: the second attempt finds it owned
      and charges nothing, whatever the balance. */
  method BuyTwice(page: Dashboard, shop: ShopSidebar, k: nat) returns (first: bool, second: bool)
    requires shop.Valid() && k < shop.items.Length
    modifies page, shop.items
    ensures !second
    ensures page.user.coins + (if first then old(shop.items[k]).price else 0) == old(page.user.coins)
  {
    first := BuyFromShop(page, shop, shop.items[k]);
    second := BuyFromShop(page, shop, shop.items[k]);
  }

  /** Equipping in the sidebar: an owned item becomes the only equipped item
      of its category and is passed to the page's equip handler; for a theme,
      the colour scheme chosen is dark exactly when the page background is
      forest or ocean. */
  method EquipFromShop(page: Dashboard, shop: ShopSidebar, item: ShopItem) returns (equipped: bool, mode: Option<ColorMode>)
    requires shop.Valid() && item in shop.items[..]
    modifies page, shop.items
    ensures shop.Valid()
    ensures equipped <==> item.owned
    ensures page.State() == if equipped then Step(old(page.State()), Equipped(item)) else old(page.State())
    ensures shop.items[..] == if equipped then EquipOnly(old(shop.items[..]), item) else old(shop.items[..])
    ensures mode.Some? <==> equipped && item.category == Theme
    ensures mode.Some? ==> (mode.value == Dark <==> page.currentTheme in {"forest", "ocean"})
    ensures old(page.Valid()) ==> page.Valid()
  {
    equipped, mode := shop.Equip(item);
    if equipped {
      page.HandleEquip(item);
      ThemeAndModeAgree(item.id);
    }
  }

  /** A settle timer firing in the quiz: when it completes the quiz, its
      reward goes to the page's quiz handler. */
  method SettleQuiz(page: Dashboard, quiz: QuizSession) returns (result: Option<QuizResult>)
    modifies page, quiz
    ensures result.Some? <==> old(quiz.timers) != [] && old(quiz.timers)[0].index >= QuizLength - 1
    ensures result.Some? ==>
      (var s := old(quiz.timers)[0].finalScore;
       result.value == QuizResult(s, 50 * s, 25 * s) &&
       quiz.showResult && quiz.currentQuestion == old(quiz.currentQuestion) &&
       quiz.selectedAnswer == old(quiz.selectedAnswer) && quiz.answered == old(quiz.answered))
    ensures old(quiz.timers) != [] && old(quiz.timers)[0].index < QuizLength - 1 ==>
      (quiz.currentQuestion == old(quiz.currentQuestion) + 1 && quiz.selectedAnswer == None &&
       !quiz.answered && quiz.showResult == old(quiz.showResult))
    ensures old(quiz.timers) == [] ==>
      (quiz.currentQuestion == old(quiz.currentQuestion) && quiz.selectedAnswer == old(quiz.selectedAnswer) &&
       quiz.answered == old(quiz.answered) && quiz.showResult == old(quiz.showResult))
    ensures quiz.timers == if old(quiz.timers) == [] then [] else old(quiz.timers)[1..]
    ensures quiz.questions == old(quiz.questions) && quiz.score == old(quiz.score) && quiz.answers == old(quiz.answers)
    ensures result.Some? ==> page.State() == Step(old(page.State()), QuizCompleted(result.value.score, result.value.xp, result.value.coins))
    ensures result.None? ==> page.State() == old(page.State())
    ensures old(quiz.Valid()) ==> quiz.Valid()
    ensures old(page.Valid()) ==> page.Valid()
  {
    result := quiz.Settle();
    if result.Some? {
      page.HandleQuizComplete(result.value.score, result.value.xp, result.value.coins);
    }
  }

  /** A fresh page and a perfect quiz: the ten correct answers earn 500 XP
      and 250 coins, and the level stays 1 because 500 XP is short of 1000. */
  method PerfectQuizOnFreshPage() returns (user: User)
    ensures user == InitialUser.(xp := 500, totalXP := 500, coins := 2250)
  {
    var page := new Dashboard();
    var result := PerfectQuiz();
    page.HandleQuizComplete(result.value.score, result.value.xp, result.value.coins);
    user := page.user;
  }
}
