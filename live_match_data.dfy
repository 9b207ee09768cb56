/** The live match center: a match clock that ticks while the match is live,
    an event feed that random shots are pushed onto, four fan reaction
    counters, and a score and statistics that nothing changes. */
module LiveMatchData {
  import opened Common
  import opened AuthContext

  /** `type` is one of the source's event-type strings. */
  datatype MatchEvent = MatchEvent(time: string, kind: string, player: string, description: string)

  datatype Score = Score(home: nat, away: nat)

  datatype Split = Split(home: nat, away: nat)

  datatype LiveStats = LiveStats(possession: Split, shots: Split, corners: Split, fouls: Split)

  datatype Reactions = Reactions(fire: nat, heart: nat, celebration: nat, shock: nat)

  datatype ReactionKind = Fire | Heart | Celebration | Shock

  function Count(r: Reactions, kind: ReactionKind): nat {
    match kind
    case Fire => r.fire
    case Heart => r.heart
    case Celebration => r.celebration
    case Shock => r.shock
  }

  /** `{ ...prev, [type]: prev[type] + 1 }`: one counter goes up by one and
      the other three keep their values. */
  function Bumped(r: Reactions, kind: ReactionKind): (s: Reactions)
    ensures Count(s, kind) == Count(r, kind) + 1
    ensures forall other: ReactionKind :: other != kind ==> Count(s, other) == Count(r, other)
  {
    match kind
    case Fire => r.(fire := r.fire + 1)
    case Heart => r.(heart := r.heart + 1)
    case Celebration => r.(celebration := r.celebration + 1)
    case Shock => r.(shock := r.shock + 1)
  }

  /** The minute label `${minute}'`. */
  function MinuteLabel(minute: nat): (text: string)
    ensures |text| >= 2 && text[|text| - 1] == '\''
    ensures text[..|text| - 1] == Decimal(minute)
  {
    Decimal(minute) + "'"
  }

  /** Different minutes get different labels. */
  lemma MinuteLabelInjective(m: nat, n: nat)
    requires MinuteLabel(m) == MinuteLabel(n)
    ensures m == n
  {
    assert Decimal(m) == MinuteLabel(m)[..|MinuteLabel(m)| - 1];
    DecimalInjective(m, n);
  }

  /** The event the interval pushes when its random draw fires. */
  function ShotEvent(minute: nat): (e: MatchEvent)
    ensures e.kind == "shot" && e.time == MinuteLabel(minute)
  {
    MatchEvent(MinuteLabel(minute), "shot", "Pedri", "Shot blocked by defender")
  }

  const DefaultIcon: string := "⚽"

  const EventIcons: map<string, string> :=
    map["goal" := "⚽", "yellow_card" := "🟨", "red_card" := "🟥", "substitution" := "🔄", "corner" := "🚩"]

  /** `getEventIcon(type)`: the five named types have their icon; `shot` and
      every other string fall to the default. */
  function EventIcon(kind: string): (icon: string)
    ensures kind in EventIcons ==> icon == EventIcons[kind]
    ensures kind !in EventIcons ==> icon == DefaultIcon
  {
    if kind in EventIcons then EventIcons[kind] else DefaultIcon
  }

  /** A shot shows the same icon as a goal, and only goals and unlisted
      types show the default. */
  lemma ShotShowsDefaultIcon(kind: string)
    ensures EventIcon("shot") == DefaultIcon
    ensures EventIcon(kind) == DefaultIcon <==> kind == "goal" || kind !in EventIcons
  {
  }

  /** The live match component's state. */
  class Match {
    const session: Session
    var isLive: bool
    var matchTime: nat
    var score: Score
    var events: seq<MatchEvent>
    var stats: LiveStats
    var reactions: Reactions

    constructor (session: Session)
      ensures this.session == session && isLive && matchTime == 67 && score == Score(2, 1)
      ensures |events| == 4 && reactions == Reactions(1247, 892, 2156, 445)
      ensures stats == LiveStats(Split(63, 37), Split(8, 4), Split(5, 2), Split(7, 11))
    {
      this.session := session;
      isLive := true;
      matchTime := 67;
      score := Score(2, 1);
      events := [
        MatchEvent("65'", "goal", "Lewandowski", "Goal! Beautiful header from a Pedri cross"),
        MatchEvent("52'", "yellow_card", "Gavi", "Yellow card for tactical foul"),
        MatchEvent("34'", "goal", "Yamal", "GOLAZO! Spectacular long-range strike!"),
        MatchEvent("12'", "goal", "Benzema", "Real Madrid equalizes from the penalty spot")];
      stats := LiveStats(Split(63, 37), Split(8, 4), Split(5, 2), Split(7, 11));
      reactions := Reactions(1247, 892, 2156, 445);
    }

    /** `addReaction(type)`: that counter goes up by one; a signed-in fan
        earns 2 XP. The score and statistics stay as they are. */
    method AddReaction(kind: ReactionKind)
      modifies this`reactions, session
      ensures reactions == Bumped(old(reactions), kind)
      ensures session.GainedXP(2)
      ensures score == old(score) && stats == old(stats)
    {
      reactions := Bumped(reactions, kind);
      session.AddXP(2);
    }

    /** One run of the 30-second interval, installed only while the match is
        live. The clock advances by one minute; when the random draw fires
        (`Math.random() > 0.95`), a shot labelled with the new minute goes
        to the front of the feed and a signed-in fan earns 5 XP. */
    method Tick(eventFires: bool)
      modifies this`matchTime, this`events, session
      ensures !old(isLive) ==> matchTime == old(matchTime) && events == old(events) && unchanged(session)
      ensures old(isLive) ==> matchTime == old(matchTime) + 1
      ensures old(isLive) && eventFires ==>
                events == [ShotEvent(old(matchTime) + 1)] + old(events)
                && events[0].time == MinuteLabel(matchTime)
                && session.GainedXP(5)
      ensures old(isLive) && !eventFires ==> events == old(events) && unchanged(session)
      ensures score == old(score) && stats == old(stats)
    {
      if !isLive {
        return;
      }
      var minute := matchTime;
      matchTime := matchTime + 1;
      if eventFires {
        events := [ShotEvent(minute + 1)] + events;
        session.AddXP(5);
      }
    }
  }
}
