/** The factory that turns the onboarding answers into a first profile
    document: defaults for blank answers, a theme checked against the list of
    known theme names, and one welcome block. */
module InitialProfile {
  import opened Types
  import opened BlockOps
  import Friends

  /** The theme names the factory accepts, in the order it lists them. */
  const ValidThemes: seq<string> :=
    ["monochrome", "swiss", "brutalist", "glass", "cyberpunk", "vaporwave",
     "y2k", "terminal", "win95", "gameboy", "paper", "neumorphism",
     "sunset", "midnight", "nature", "bubblegum", "blueprint", "comic",
     "space", "luxury", "minecraft", "roblox", "fortnite", "mariokart"]

  /** The themes in the same order as their names above. */
  const Themes: seq<ProfileTheme> :=
    [Monochrome, Swiss, Brutalist, Glass, Cyberpunk, Vaporwave,
     Y2k, Terminal, Win95, Gameboy, Paper, Neumorphism,
     Sunset, Midnight, Nature, Bubblegum, Blueprint, Comic,
     Space, Luxury, Minecraft, Roblox, Fortnite, Mariokart]

  /** The two lists line up, the names are all different and every theme
      is listed. */
  lemma ThemeTable(t: ProfileTheme)
    ensures |Themes| == |ValidThemes| == 24
    ensures forall i :: 0 <= i < 24 ==> ThemeName(Themes[i]) == ValidThemes[i]
    ensures forall i, j :: 0 <= i < j < |ValidThemes| ==> ValidThemes[i] != ValidThemes[j]
    ensures t in Themes
  {
    LinedUp();
    NamesDistinct();
  }

  lemma LinedUp()
    ensures |Themes| == |ValidThemes| == 24
    ensures forall i :: 0 <= i < 24 ==> ThemeName(Themes[i]) == ValidThemes[i]
  {
  }

  lemma NamesDistinct()
    ensures forall i, j :: 0 <= i < j < |ValidThemes| ==> ValidThemes[i] != ValidThemes[j]
  {
  }

  /** The position of the first `x` in `xs`. */
  function IndexIn(x: string, xs: seq<string>): (r: Option<nat>)
    ensures r.None? <==> x !in xs
    ensures r.Some? ==> r.value < |xs| && xs[r.value] == x && forall j :: 0 <= j < r.value ==> xs[j] != x
    decreases |xs|
  {
    if xs == [] then None
    else if xs[0] == x then Some(0)
    else
      match IndexIn(x, xs[1..])
      case None => None
      case Some(i) => Some(i + 1)
  }

  /** The theme stored under a name, if the name is listed. */
  function ParseTheme(s: string): (r: Option<ProfileTheme>)
    ensures r.Some? <==> s in ValidThemes
    ensures r.Some? ==> ThemeName(r.value) == s
  {
    ThemeTable(Monochrome);
    match IndexIn(s, ValidThemes)
    case None => None
    case Some(i) => Some(Themes[i])
  }

  /** Every theme's name parses back to it, so the names are all different. */
  lemma ThemeNameRoundTrip(t: ProfileTheme)
    ensures ParseTheme(ThemeName(t)) == Some(t)
  {
    ThemeTable(t);
    var i :| 0 <= i < |Themes| && Themes[i] == t;
    var j := IndexIn(ThemeName(t), ValidThemes).value;
    assert ValidThemes[i] == ThemeName(t);
    assert j == i;
  }

  /** The accepted names are exactly the names of the 24 themes. */
  lemma ValidThemesAreThemeNames(s: string)
    ensures s in ValidThemes <==> exists t :: ThemeName(t) == s
  {
    if s in ValidThemes {
      assert ThemeName(ParseTheme(s).value) == s;
    } else {
      forall t ensures ThemeName(t) != s {
        ThemeTable(t);
        var i :| 0 <= i < |Themes| && Themes[i] == t;
        assert ValidThemes[i] == ThemeName(t);
      }
    }
  }

  /** `selectedTheme`: a listed name keeps its theme, anything else falls
      back to monochrome. */
  function SelectedTheme(theme: string): (r: ProfileTheme)
    ensures theme in ValidThemes ==> ThemeName(r) == theme
    ensures theme !in ValidThemes ==> r == Monochrome
  {
    match ParseTheme(theme)
    case Some(t) => t
    case None => Monochrome
  }

  /** Choosing a theme and writing its name gives that theme back. */
  lemma SelectedThemeOfName(t: ProfileTheme)
    ensures SelectedTheme(ThemeName(t)) == t
  {
    ThemeNameRoundTrip(t);
  }

  /** The one block a new profile starts with. */
  function WelcomeBlock(bio: string): (b: BlockItem)
    ensures b.id == "init-text-1" && b.kind == Text && b.title == Some("Hello World")
    ensures b.subtitle == Some(if bio == "" then "Welcome to my space" else bio)
    ensures b.active && b.colSpan == Some(2) && b.rowSpan == Some(1)
    ensures b.parentId.None? && b.archived.None? && WellFormedBlock(b)
  {
    BlockItem("init-text-1", Text, None, Some("Hello World"),
              Some(if bio == "" then "Welcome to my space" else bio),
              None, None, None, None, true, None, Some(2), Some(1),
              Some(Light), Some(NoFilter), Some(Public))
  }

  /** `generateInitialProfile` */
  function GenerateInitialProfile(name: string, role: string, location: string, bio: string, theme: string): (r: ProfileData)
    ensures r.name != "" && r.role != ""
    ensures name != "" ==> r.name == name
    ensures role != "" ==> r.role == role
    ensures r.location == location && r.avatarUrl == ""
    ensures r.privacy == PublicProfile && r.savedProfiles == [] && r.friendCode.None?
    ensures r.bannerUrl.None? && r.font.None?
    ensures r.theme == SelectedTheme(theme)
    ensures r.blocks == [WelcomeBlock(bio)]
  {
    ProfileData(if name == "" then "New User" else name,
                if role == "" then "Creator" else role,
                location, "", None, None, SelectedTheme(theme), PublicProfile,
                [WelcomeBlock(bio)], [], None)
  }

  /** A new profile's blocks are valid, and its one block is on the root grid. */
  lemma InitialBlocksValid(name: string, role: string, location: string, bio: string, theme: string)
    ensures var r := GenerateInitialProfile(name, role, location, bio, theme);
            UniqueIds(r.blocks) && WellFormedBlocks(r.blocks) && AtStack(r.blocks, None) == r.blocks
  {
    var b := WelcomeBlock(bio);
    assert GenerateInitialProfile(name, role, location, bio, theme).blocks == [b];
    AppendedBlockIsShown([], b, None);
    assert [] + [b] == [b];
  }

  /** A new profile has no friend code, so saving it runs the backfill,
      which gives it one and leaves every other answer as it was. */
  lemma FirstSaveAssignsCode(name: string, role: string, location: string, bio: string, theme: string, picks: seq<int>)
    requires Friends.ValidPicks(picks)
    ensures var r := GenerateInitialProfile(name, role, location, bio, theme);
            var saved := Friends.Fill(Friends.Stored(r), picks);
            Friends.Incomplete(Friends.Stored(r)) && saved == r.(friendCode := Some(Friends.CodeFor(picks)))
            && Friends.IsFriendCode(saved.friendCode.value)
  {
  }
}
