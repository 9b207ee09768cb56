/** The social hub: a fixed feed of posts filtered by platform, the compact
    rendering of large counts, and interactions that earn XP. */
module SocialHub {
  import opened Common
  import opened AuthContext

  /** `platform` is one of "twitter", "instagram" and "threads"; the
      timestamp is in milliseconds since the epoch. */
  datatype SocialPost = SocialPost(
    id: string,
    platform: string,
    author: string,
    handle: string,
    content: string,
    image: Option<string>,
    likes: nat,
    comments: nat,
    shares: nat,
    timestamp: int,
    verified: bool)

  const Minute: int := 60 * 1000

  /** The feed as built on a render at time `now`: four posts, each stamped
      a fixed number of minutes before `now`. */
  function SocialPosts(now: int): seq<SocialPost> {
    [ SocialPost("1", "twitter", "FC Barcelona", "@FCBarcelona",
        "⚽ GOOOOOL! Lewandowski with a magnificent header! What a cross from Pedri! 🔥\n\n#ElClásico #ForçaBarça",
        None, 15247, 892, 4521, now - 5 * Minute, true),
      SocialPost("2", "instagram", "Lamine Yamal", "@lamineyamal",
        "Ready for El Clásico! 💪 Visca el Barça! 🔴🔵",
        Some("/placeholder.svg"), 234567, 12453, 8934, now - 2 * 60 * Minute, true),
      SocialPost("3", "threads", "Culer Mundial", "@culermundial",
        "The atmosphere at Camp Nou tonight is ELECTRIC! ⚡️ You can feel the energy through the screen. This is what football is about! 🏟️",
        None, 1547, 234, 89, now - 15 * Minute, false),
      SocialPost("4", "twitter", "Pedri González", "@Pedri",
        "What a night! The fans were incredible 🙌 Already thinking about the next match! 💙❤️",
        None, 89234, 5672, 12890, now - 30 * Minute, true) ]
  }

  function PlatformOf(p: SocialPost): string {
    p.platform
  }

  /** The twitter tab shows the club's post and Pedri's, in feed order. */
  lemma TwitterTab(now: int)
    ensures ByTab(SocialPosts(now), "twitter", PlatformOf) == [SocialPosts(now)[0], SocialPosts(now)[3]]
  {
    var p := SocialPosts(now);
    assert ByTab(p[4..], "twitter", PlatformOf) == [];
    ByTabCons(p[3], p[4..], "twitter", PlatformOf);
    assert p[3..] == [p[3]] + p[4..];
    ByTabCons(p[2], p[3..], "twitter", PlatformOf);
    assert p[2..] == [p[2]] + p[3..];
    ByTabCons(p[1], p[2..], "twitter", PlatformOf);
    assert p[1..] == [p[1]] + p[2..];
    ByTabCons(p[0], p[1..], "twitter", PlatformOf);
    assert p[0..] == [p[0]] + p[1..];
  }

  /** What `formatNumber` shows: the decimal digits below a thousand,
      otherwise the count in thousands or millions with one decimal and a
      `K` or `M` suffix. `value` is the exact quotient; its rounding to one
      decimal is not part of this model. */
  datatype NumberFormat = Plain(text: string) | Thousands(value: real) | Millions(value: real)

  function FormatNumber(n: nat): (f: NumberFormat)
    ensures f.Millions? <==> n >= 1000000
    ensures f.Thousands? <==> 1000 <= n < 1000000
    ensures f.Plain? <==> n < 1000
    ensures f.Plain? ==> AllDigits(f.text) && ParseDecimal(f.text) == n && 1 <= |f.text| <= 3
    ensures f.Thousands? ==> f.value * 1000.0 == n as real && 1.0 <= f.value < 1000.0
    ensures f.Millions? ==> f.value * 1000000.0 == n as real && 1.0 <= f.value
  {
    if n >= 1000000 then Millions(n as real / 1000000.0)
    else if n >= 1000 then Thousands(n as real / 1000.0)
    else
      DecimalRoundTrip(n);
      DecimalLength(n);
      Plain(Decimal(n))
  }

  /** A number below a thousand has at most three digits. */
  lemma DecimalLength(n: nat)
    requires n < 1000
    ensures |Decimal(n)| <= 3
  {
  }

  /** The social hub component's state. */
  class Hub {
    const session: Session
    var selectedPlatform: string

    constructor (session: Session)
      ensures this.session == session && selectedPlatform == "all"
    {
      this.session := session;
      selectedPlatform := "all";
    }

    /** The posts on display for the selected platform tab, out of `feed`,
        the posts a render builds (`SocialPosts(now)`): the whole feed under
        "all", otherwise exactly its posts from that platform. */
    function VisiblePosts(feed: seq<SocialPost>): (shown: seq<SocialPost>)
      reads this
      ensures selectedPlatform == "all" ==> shown == feed
      ensures selectedPlatform != "all" ==>
                forall i :: 0 <= i < |shown| ==> shown[i] in feed && shown[i].platform == selectedPlatform
      ensures selectedPlatform != "all" ==>
                forall i :: 0 <= i < |feed| && feed[i].platform == selectedPlatform ==> feed[i] in shown
    {
      ByTabExact(feed, selectedPlatform, PlatformOf);
      ByTab(feed, selectedPlatform, PlatformOf)
    }

    method SelectPlatform(platform: string)
      modifies this`selectedPlatform
      ensures selectedPlatform == platform
    {
      selectedPlatform := platform;
    }

    /** `interactWithPost(action)`: a like, comment or share earns a signed-in
        fan 3 XP whatever the action; the posts and the selected tab stay as
        they are. */
    method InteractWithPost(action: string)
      modifies session
      ensures session.GainedXP(3)
      ensures selectedPlatform == old(selectedPlatform)
      ensures forall feed :: VisiblePosts(feed) == old(VisiblePosts(feed))
    {
      session.AddXP(3);
    }
  }
}
