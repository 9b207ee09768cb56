/** The fan insights page: the level and XP header, the prediction totals,
    the accuracy figure and the badge count. Everything here is derived from
    the signed-in user and from fixed tables. */
module FanInsights {
  import opened Common
  import opened AuthContext

  // ---------------------------------------------------------------------------
  // The level header
  // ---------------------------------------------------------------------------

  /** `user?.fan_level || 1`: the stored level, unless there is no user or the
      level is 0, which JavaScript treats as false. */
  function DisplayedLevel(user: Option<User>): (level: int)
    ensures user.None? ==> level == 1
    ensures user.Some? && user.value.fanLevel == 0 ==> level == 1
    ensures user.Some? && user.value.fanLevel != 0 ==> level == user.value.fanLevel
    ensures level != 0
  {
    if user.Some? && user.value.fanLevel != 0 then user.value.fanLevel else 1
  }

  /** `user?.xp || 0`: the stored XP, or 0 without a user (a stored 0 is 0
      either way). */
  function DisplayedXP(user: Option<User>): (xp: int)
    ensures user.None? ==> xp == 0
    ensures user.Some? ==> xp == user.value.xp
  {
    if user.Some? then user.value.xp else 0
  }

  /** `nextLevelXP = fanLevel * 500`: the XP at which the displayed level ends. */
  function NextLevelXP(level: int): (target: int)
    ensures level >= 1 ==> target >= XpPerLevel
    ensures target % XpPerLevel == 0
  {
    level * XpPerLevel
  }

  /** JavaScript's `a % 500`: the remainder of division truncated toward
      zero, so it takes the sign of `a`. */
  function JsRem500(a: int): (r: int)
    ensures a >= 0 ==> 0 <= r < XpPerLevel
    ensures a < 0 ==> -XpPerLevel < r <= 0
    ensures (a - r) % XpPerLevel == 0
  {
    if a >= 0 then a % XpPerLevel else -((-a) % XpPerLevel)
  }

  /** The "current/target XP" text beside the progress bar. */
  datatype ProgressLabel = ProgressLabel(current: int, target: int)

  /** The label as written: `{currentXP % 500}/{nextLevelXP % 500}`. The
      target is 0 for every user: the level's end is a multiple of 500, so
      its remainder is always zero. */
  function ShownProgress(user: Option<User>): (shown: ProgressLabel)
    ensures shown.target == 0
    ensures DisplayedXP(user) >= 0 ==> 0 <= shown.current < XpPerLevel
    ensures (DisplayedXP(user) - shown.current) % XpPerLevel == 0
  {
    ProgressLabel(JsRem500(DisplayedXP(user)), JsRem500(NextLevelXP(DisplayedLevel(user))))
  }

  /** The mock login profile, at level 5 with 2450 XP, reads "450/0 XP". */
  lemma ShownProgressExample()
    ensures ShownProgress(Some(MockUser("culer@example.com"))) == ProgressLabel(450, 0)
  {
  }

  /** The label as intended: the XP earned within the current level out of
      the 500 a level spans. */
  function Progress(user: Option<User>): (shown: ProgressLabel)
    ensures shown.target == XpPerLevel
    ensures shown.current == ShownProgress(user).current
  {
    ProgressLabel(JsRem500(DisplayedXP(user)), XpPerLevel)
  }

  /** For a fan whose level follows the level rule, the intended label counts
      exactly the XP earned since the current level began, and that is less
      than the label's target. */
  lemma ProgressMatchesLevelRule(u: User)
    requires LevelConsistent(u) && u.xp >= 0
    ensures 0 <= Progress(Some(u)).current < Progress(Some(u)).target
    ensures Progress(Some(u)).current == u.xp - (DisplayedLevel(Some(u)) - 1) * XpPerLevel
    ensures u.xp + (Progress(Some(u)).target - Progress(Some(u)).current) == NextLevelXP(DisplayedLevel(Some(u)))
  {
  }

  /** The header shown to a signed-in fan. */
  datatype Header = Header(level: int, totalXP: int, accuracy: int, badges: nat, progress: ProgressLabel)

  // ---------------------------------------------------------------------------
  // Predictions
  // ---------------------------------------------------------------------------

  datatype PredictionStat = PredictionStat(month: string, correct: nat, total: nat)

  function PredictionStats(): seq<PredictionStat> {
    [ PredictionStat("Jan", 8, 12),
      PredictionStat("Feb", 10, 14),
      PredictionStat("Mar", 12, 15),
      PredictionStat("Apr", 9, 13),
      PredictionStat("May", 11, 12),
      PredictionStat("Jun", 7, 8) ]
  }

  /** A month never has more correct predictions than predictions. */
  predicate MonthsConsistent(stats: seq<PredictionStat>) {
    forall i :: 0 <= i < |stats| ==> stats[i].correct <= stats[i].total
  }

  /** `reduce((sum, stat) => sum + stat.total, 0)`: the predictions made,
      which cover every month's own count and are 0 only when every month
      is empty. */
  function TotalPredictions(stats: seq<PredictionStat>): (t: nat)
    ensures forall i :: 0 <= i < |stats| ==> stats[i].total <= t
    ensures t == 0 <==> forall i :: 0 <= i < |stats| ==> stats[i].total == 0
  {
    if stats == [] then 0 else TotalPredictions(stats[..|stats| - 1]) + stats[|stats| - 1].total
  }

  /** `reduce((sum, stat) => sum + stat.correct, 0)`: the correct predictions,
      which cover every month's own count and, over a table of consistent
      months, never exceed the predictions made. */
  function CorrectPredictions(stats: seq<PredictionStat>): (c: nat)
    ensures forall i :: 0 <= i < |stats| ==> stats[i].correct <= c
    ensures MonthsConsistent(stats) ==> c <= TotalPredictions(stats)
  {
    if stats == [] then 0 else CorrectPredictions(stats[..|stats| - 1]) + stats[|stats| - 1].correct
  }

  /** The "Incorrect" figure: predictions made minus correct ones. */
  function IncorrectPredictions(stats: seq<PredictionStat>): (n: int)
    ensures MonthsConsistent(stats) ==> 0 <= n <= TotalPredictions(stats)
    ensures n + CorrectPredictions(stats) == TotalPredictions(stats)
  {
    TotalPredictions(stats) - CorrectPredictions(stats)
  }

  /** One more month adds its own counts to both sums. */
  lemma PredictionSumsStep(s: seq<PredictionStat>, k: nat)
    requires 0 < k <= |s|
    ensures TotalPredictions(s[..k]) == TotalPredictions(s[..k - 1]) + s[k - 1].total
    ensures CorrectPredictions(s[..k]) == CorrectPredictions(s[..k - 1]) + s[k - 1].correct
  {
    assert s[..k][..k - 1] == s[..k - 1];
    assert s[..k][k - 1] == s[k - 1];
  }

  /** The fixed table holds 74 predictions. */
  lemma TotalFigure()
    ensures TotalPredictions(PredictionStats()) == 74
  {
    var s := PredictionStats();
    assert s[..0] == [];
    PredictionSumsStep(s, 1);
    assert TotalPredictions(s[..1]) == 12;
    PredictionSumsStep(s, 2);
    assert TotalPredictions(s[..2]) == 26;
    PredictionSumsStep(s, 3);
    assert TotalPredictions(s[..3]) == 41;
    PredictionSumsStep(s, 4);
    assert TotalPredictions(s[..4]) == 54;
    PredictionSumsStep(s, 5);
    assert TotalPredictions(s[..5]) == 66;
    PredictionSumsStep(s, 6);
    assert s[..6] == s;
  }

  /** 57 of the fixed table's predictions are correct. */
  lemma CorrectFigure()
    ensures CorrectPredictions(PredictionStats()) == 57
  {
    var s := PredictionStats();
    assert s[..0] == [];
    PredictionSumsStep(s, 1);
    assert CorrectPredictions(s[..1]) == 8;
    PredictionSumsStep(s, 2);
    assert CorrectPredictions(s[..2]) == 18;
    PredictionSumsStep(s, 3);
    assert CorrectPredictions(s[..3]) == 30;
    PredictionSumsStep(s, 4);
    assert CorrectPredictions(s[..4]) == 39;
    PredictionSumsStep(s, 5);
    assert CorrectPredictions(s[..5]) == 50;
    PredictionSumsStep(s, 6);
    assert s[..6] == s;
  }

  /** The fixed table adds up to 57 correct out of 74, so 17 are shown as
      incorrect. */
  lemma PredictionFigures()
    ensures MonthsConsistent(PredictionStats())
    ensures TotalPredictions(PredictionStats()) == 74
    ensures CorrectPredictions(PredictionStats()) == 57
    ensures IncorrectPredictions(PredictionStats()) == 17
  {
    TotalFigure();
    CorrectFigure();
  }

  /** `Math.round(correct / total * 100)`, computed exactly: the nearest whole
      percentage, halves rounded up. */
  function Accuracy(correct: nat, total: nat): (percent: int)
    requires total > 0
    ensures (percent as real) - 0.5 <= (correct as real / total as real) * 100.0 < (percent as real) + 0.5
  {
    ((correct as real / total as real) * 100.0 + 0.5).Floor
  }

  /** 57 of 74 is shown as 77%. */
  lemma AccuracyFigure()
    ensures Accuracy(57, 74) == 77
  {
    assert 77.0 <= (57.0 / 74.0) * 100.0 + 0.5 < 78.0;
  }

  // ---------------------------------------------------------------------------
  // Achievements
  // ---------------------------------------------------------------------------

  datatype Achievement = Achievement(id: string, name: string, description: string, icon: string, earned: bool, rarity: string)

  function Achievements(): seq<Achievement> {
    [ Achievement("predictor", "Master Predictor", "Correctly predicted 10 matches in a row", "🔮", true, "legendary"),
      Achievement("loyal", "Loyal Culer", "Active for 100 consecutive days", "❤️", true, "epic"),
      Achievement("social", "Social Butterfly", "Made 50 forum posts", "🦋", false, "rare"),
      Achievement("clasico", "Clásico Expert", "Correctly predicted 5 El Clásico matches", "⚔️", true, "epic") ]
  }

  predicate IsEarned(a: Achievement) {
    a.earned
  }

  /** `achievements.filter(a => a.earned).length`. */
  function BadgeCount(achievements: seq<Achievement>): (n: nat)
    ensures n <= |achievements|
  {
    |Filter(achievements, IsEarned)|
  }

  /** Every achievement counts as a badge exactly when all are earned. */
  lemma AllEarnedIffFullCount(achievements: seq<Achievement>)
    ensures BadgeCount(achievements) == |achievements| <==>
              forall i :: 0 <= i < |achievements| ==> achievements[i].earned
  {
    if forall i :: 0 <= i < |achievements| ==> achievements[i].earned {
      FilterKeepsAll(achievements, IsEarned);
    } else {
      var i :| 0 <= i < |achievements| && !achievements[i].earned;
      FilterDropsRejected(achievements, IsEarned, i);
    }
  }

  /** Three of the four badges are earned: every one except the social one. */
  lemma BadgeFigure()
    ensures BadgeCount(Achievements()) == 3
    ensures forall i :: 0 <= i < 4 ==> (Achievements()[i].earned <==> Achievements()[i].id != "social")
  {
  }

  /** The header, only shown to a signed-in fan, with the intended progress
      label. */
  function HeaderFor(user: Option<User>): (h: Option<Header>)
    ensures user.None? <==> h.None?
    ensures h.Some? ==> h.value.level == DisplayedLevel(user) && h.value.totalXP == user.value.xp
    ensures h.Some? ==> h.value.progress == Progress(user) && h.value.progress.target == XpPerLevel
    ensures h.Some? ==> h.value.badges == 3 && h.value.accuracy == 77
  {
    if user.None? then None
    else
      BadgeFigure();
      AccuracyFigure();
      PredictionFigures();
      Some(Header(DisplayedLevel(user), DisplayedXP(user),
        Accuracy(CorrectPredictions(PredictionStats()), TotalPredictions(PredictionStats())),
        BadgeCount(Achievements()), Progress(user)))
  }
}
