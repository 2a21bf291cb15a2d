/** The rules inside a block card: whether it renders, its grid classes, the
    weather pick, the contact kind, the video embed address, the link icon,
    and the tic-tac-toe game. */
module BlockCard {
  import opened Types
  import opened Text
  import BlockOps

  /** What a card draws: nothing for an inactive block, a placeholder for a
      locked one, else its content. */
  datatype Render = Hidden | LockedPlaceholder | Content

  function RenderOf(b: BlockItem, isLocked: bool): (r: Render)
    ensures r == Hidden <==> !b.active
    ensures r == LockedPlaceholder <==> b.active && isLocked
  {
    if !b.active then Hidden
    else if isLocked then LockedPlaceholder
    else Content
  }

  /** `span || 1`: a missing or zero span counts as one. */
  function SpanOrOne(s: Option<int>): int
  {
    if s.None? || s.value == 0 then 1 else s.value
  }

  function ColClass(n: int): string
  {
    if n == 4 then "col-span-2 md:col-span-4"
    else if n == 3 then "col-span-2 md:col-span-3"
    else if n == 2 then "col-span-2"
    else "col-span-1"
  }

  function RowClass(n: int): string
  {
    if n == 4 then "row-span-4"
    else if n == 3 then "row-span-3"
    else if n == 2 then "row-span-2"
    else "row-span-1"
  }

  /** `getSpanClasses` */
  function SpanClasses(colSpan: Option<int>, rowSpan: Option<int>): string
  {
    ColClass(SpanOrOne(colSpan)) + " " + RowClass(SpanOrOne(rowSpan))
  }

  /** A missing span reads as one; every span outside 2..4 gets the
      one-unit class; the four spans 1..4 get four different classes. */
  lemma SpanClassRules(colSpan: Option<int>, rowSpan: Option<int>, a: int, b: int)
    ensures SpanClasses(None, None) == "col-span-1 row-span-1"
    ensures colSpan.None? ==> SpanClasses(colSpan, rowSpan) == SpanClasses(Some(1), rowSpan)
    ensures rowSpan.None? ==> SpanClasses(colSpan, rowSpan) == SpanClasses(colSpan, Some(1))
    ensures !(2 <= a <= 4) ==> ColClass(a) == "col-span-1" && RowClass(a) == "row-span-1"
    ensures 1 <= a <= 4 && 1 <= b <= 4 && a != b ==> ColClass(a) != ColClass(b) && RowClass(a) != RowClass(b)
  {
  }

  /** The four forecasts of a weather block. */
  const WeatherVibes: seq<(string, string)> :=
    [("Sunny Vibes", "100\U{00B0}"), ("Brain Fog", "40\U{00B0}"),
     ("Pure Chaos", "99\U{00B0}"), ("Main Character", "72\U{00B0}")]

  /** The forecast picked by the length of the block id. */
  function WeatherFor(id: string): (w: (string, string))
    ensures w in WeatherVibes
    ensures |id| < 4 ==> w == WeatherVibes[|id|]
  {
    var seed := |id| % |WeatherVibes|;
    WeatherVibes[seed]
  }

  /** A contact block shows the mail icon when its title holds an '@' or
      its link is a `mailto:` link, else the phone icon. */
  predicate IsEmail(b: BlockItem)
  {
    (b.title.Some? && Contains(b.title.value, "@")) || (b.url.Some? && StartsWith(b.url.value, "mailto:"))
  }

  /** A contact is an e-mail contact exactly when some character of its
      title is '@' or its link begins with `mailto:`, so a `mailto:` link
      wins whatever the title; every contact block the editor adds is a
      phone contact, whatever its id and stack. */
  lemma ContactKinds(b: BlockItem, id: string, stack: Option<string>)
    ensures IsEmail(b) <==> (b.title.Some? && '@' in b.title.value) ||
                            (b.url.Some? && |b.url.value| >= 7 && b.url.value[..7] == "mailto:")
    ensures !IsEmail(BlockOps.NewEditorBlock(Contact, id, stack))
  {
    if b.title.Some? {
      ContainsChar(b.title.value, '@');
    }
    var c := BlockOps.NewEditorBlock(Contact, id, stack);
    var t := c.title.value;
    ContainsChar(t, '@');
    assert t == "+1 234 567 8900";
    assert '@' !in t by {
      forall i | 0 <= i < |t| ensures t[i] != '@' { }
    }
  }

  /** The video id of a YouTube address: the text after the first "v=" up
      to the next '&' or "v=", or else the last '/'-segment. */
  function YouTubeId(u: string): string
  {
    if Contains(u, "v=") then Before(Before(After(u, "v="), "v="), "&")
    else LastSegment(u, '/')
  }

  /** The address the video block embeds. */
  function EmbedUrl(url: Option<string>): (r: Option<string>)
    ensures url.None? ==> r.None?
    ensures (url.Some? && !Contains(url.value, "youtube.com") && !Contains(url.value, "youtu.be")
             && !Contains(url.value, "vimeo.com")) ==> r == url
  {
    if url.None? then None
    else
      var u := url.value;
      if Contains(u, "youtube.com") || Contains(u, "youtu.be") then
        Some("https://www.youtube.com/embed/" + YouTubeId(u) + "?controls=0&modestbranding=1")
      else if Contains(u, "vimeo.com") then
        Some("https://player.vimeo.com/video/" + LastSegment(u, '/'))
      else url
  }

  /** No "v=" starts before the end of a text without "v=", when "v=" follows it. */
  lemma NoEarlierMarker(pre: string, x: string)
    requires !Contains(pre, "v=") && x != [] && x[0] == 'v'
    ensures forall k: nat :: k < |pre| ==> !OccursAt(pre + x, "v=", k)
  {
    var s := pre + x;
    forall k: nat | k < |pre| ensures !OccursAt(s, "v=", k) {
      if k + 2 <= |pre| {
        assert !OccursAt(pre, "v=", k);
        assert s[k..k + 2] == pre[k..k + 2];
      } else {
        assert s[k + 1] == 'v';
      }
    }
  }

  /** The text after the first "v=" of `pre v=t`, when `pre` holds no "v=", is `t`. */
  lemma AfterFirstMarker(pre: string, t: string)
    requires !Contains(pre, "v=")
    ensures Contains(pre + "v=" + t, "v=") && After(pre + "v=" + t, "v=") == t
  {
    var s := pre + "v=" + t;
    assert s == pre + ("v=" + t);
    NoEarlierMarker(pre, "v=" + t);
    assert OccursAt(s, "v=", |pre|) by { assert s[|pre|..|pre| + 2] == "v="; }
    FirstOccurrence(s, "v=", |pre|);
    assert s == Before(s, "v=") + "v=" + After(s, "v=");
    assert s[..|pre|] == pre;
  }

  /** No "v=" starts inside an id without "v=" unless the text after the
      id begins with '='. */
  lemma NoMarkerInId(id: string, tail: string)
    requires !Contains(id, "v=") && (tail == [] || tail[0] != '=')
    ensures forall k: nat :: k < |id| ==> !OccursAt(id + tail, "v=", k)
  {
    var t := id + tail;
    forall k: nat | k < |id| ensures !OccursAt(t, "v=", k) {
      if k + 2 <= |id| {
        assert !OccursAt(id, "v=", k);
        assert t[k..k + 2] == id[k..k + 2];
      } else if k + 2 <= |t| {
        assert t[k + 1] == tail[0] && t[k..k + 2][1] == t[k + 1];
      }
    }
  }

  /** The text before the first "v=" of `id tail` still starts with the id. */
  lemma CutKeepsId(id: string, tail: string)
    requires !Contains(id, "v=") && (tail == [] || tail[0] != '=')
    ensures StartsWith(Before(id + tail, "v="), id)
  {
    var t := id + tail;
    var u := Before(t, "v=");
    NoMarkerInId(id, tail);
    assert |u| >= |id| by {
      if Contains(t, "v=") {
        assert OccursAt(t, "v=", |u|);
      }
    }
    assert u[..|id|] == t[..|id|] == id;
  }

  /** Cutting at the first '&' a text that is the id, or the id and then
      '&', yields the id. */
  lemma CutAtAmpersand(id: string, u: string)
    requires '&' !in id && StartsWith(u, id) && (|u| == |id| || u[|id|] == '&')
    ensures Before(u, "&") == id
  {
    if |u| == |id| {
      assert u == id;
      ContainsChar(u, '&');
    } else {
      assert OccursAt(u, "&", |id|) by { assert u[|id|..|id| + 1] == "&"; }
      forall k: nat | k < |id| ensures !OccursAt(u, "&", k) {
        assert u[k] == id[k] && u[k..k + 1][0] == u[k];
      }
      FirstOccurrence(u, "&", |id|);
    }
  }

  /** The id in `id tail` ends where the tail begins, when the tail is empty,
      begins with '&' or begins with another "v=". */
  lemma IdEnds(id: string, tail: string)
    requires !Contains(id, "v=") && '&' !in id
    requires tail == [] || tail[0] == '&' || StartsWith(tail, "v=")
    ensures Before(Before(id + tail, "v="), "&") == id
  {
    var t := id + tail;
    CutKeepsId(id, tail);
    var u := Before(t, "v=");
    if tail == [] {
      assert |u| == |id|;
    } else if tail[0] == '&' {
      if |u| > |id| {
        assert u[|id|] == t[..|u|][|id|] == t[|id|];
      }
    } else {
      NoMarkerInId(id, tail);
      assert OccursAt(t, "v=", |id|) by { assert t[|id|..|id| + 2] == tail[..2]; }
      FirstOccurrence(t, "v=", |id|);
    }
    CutAtAmpersand(id, u);
  }

  /** A watch address `pre v=ID tail` yields ID, when `pre` holds no "v=",
      ID holds neither "v=" nor '&', and the tail is empty (the address ends
      with the id), begins with '&' (more parameters follow) or begins with
      another "v=" (the second "v=" cuts the id). */
  lemma WatchUrlId(pre: string, id: string, tail: string)
    requires !Contains(pre, "v=") && !Contains(id, "v=") && '&' !in id
    requires tail == [] || tail[0] == '&' || StartsWith(tail, "v=")
    ensures YouTubeId(pre + "v=" + id + tail) == id
  {
    assert pre + "v=" + id + tail == pre + "v=" + (id + tail);
    AfterFirstMarker(pre, id + tail);
    IdEnds(id, tail);
  }

  /** A text that holds `pat` still holds it with more text after it. */
  lemma ContainsExtended(s: string, more: string, pat: string)
    requires Contains(s, pat)
    ensures Contains(s + more, pat)
  {
    var i: nat :| i <= |s| && OccursAt(s, pat, i);
    assert (s + more)[i..i + |pat|] == s[i..i + |pat|];
    assert OccursAt(s + more, pat, i);
  }

  /** A YouTube watch address embeds the YouTube player for the id that
      `WatchUrlId` finds, with controls hidden and modest branding. */
  lemma YouTubeWatchEmbed(pre: string, id: string, tail: string)
    requires Contains(pre, "youtube.com") || Contains(pre, "youtu.be")
    requires !Contains(pre, "v=") && !Contains(id, "v=") && '&' !in id
    requires tail == [] || tail[0] == '&' || StartsWith(tail, "v=")
    ensures EmbedUrl(Some(pre + "v=" + id + tail))
            == Some("https://www.youtube.com/embed/" + id + "?controls=0&modestbranding=1")
  {
    var u := pre + "v=" + id + tail;
    assert u == pre + ("v=" + id + tail);
    if Contains(pre, "youtube.com") {
      ContainsExtended(pre, "v=" + id + tail, "youtube.com");
    } else {
      ContainsExtended(pre, "v=" + id + tail, "youtu.be");
    }
    WatchUrlId(pre, id, tail);
  }

  /** A short YouTube address `pre/ID` without "v=" embeds the YouTube
      player for ID. */
  lemma YouTubeShortEmbed(pre: string, id: string)
    requires Contains(pre, "youtube.com") || Contains(pre, "youtu.be")
    requires !Contains(pre + "/" + id, "v=") && '/' !in id
    ensures EmbedUrl(Some(pre + "/" + id))
            == Some("https://www.youtube.com/embed/" + id + "?controls=0&modestbranding=1")
  {
    if Contains(pre, "youtube.com") {
      ContainsExtended(pre, "/" + id, "youtube.com");
    } else {
      ContainsExtended(pre, "/" + id, "youtu.be");
    }
    assert pre + "/" + id == pre + ("/" + id);
    ShortUrlId(pre, id);
  }

  /** A short address `pre/ID` without "v=" yields ID, when ID holds no '/'. */
  lemma ShortUrlId(pre: string, id: string)
    requires !Contains(pre + "/" + id, "v=") && '/' !in id
    ensures YouTubeId(pre + "/" + id) == id
  {
    LastSegmentAfter(pre, '/', id);
  }

  /** A Vimeo address `pre/ID` embeds the player for ID. */
  lemma VimeoEmbed(pre: string, id: string)
    requires var u := pre + "/" + id;
             Contains(u, "vimeo.com") && !Contains(u, "youtube.com") && !Contains(u, "youtu.be")
    requires '/' !in id
    ensures EmbedUrl(Some(pre + "/" + id)) == Some("https://player.vimeo.com/video/" + id)
  {
    LastSegmentAfter(pre, '/', id);
  }

  datatype Icon =
    | TwitterIcon | GithubIcon | InstagramIcon | LinkedinIcon | MailIcon
    | MusicIcon | VideoIcon | MessageIcon | ArrowUpRight

  /** `getIconForUrl`: the first test that matches decides. */
  function IconForUrl(url: string): Icon
  {
    if Contains(url, "twitter") || Contains(url, "x.com") then TwitterIcon
    else if Contains(url, "github") then GithubIcon
    else if Contains(url, "instagram") then InstagramIcon
    else if Contains(url, "linkedin") then LinkedinIcon
    else if Contains(url, "mailto") then MailIcon
    else if Contains(url, "spotify") || Contains(url, "music") then MusicIcon
    else if Contains(url, "youtube") || Contains(url, "vimeo") then VideoIcon
    else if Contains(url, "wa.me") || Contains(url, "whatsapp") then MessageIcon
    else ArrowUpRight
  }

  /** The same classification written as an ordered rule table. */
  const IconRules: seq<(seq<string>, Icon)> :=
    [(["twitter", "x.com"], TwitterIcon), (["github"], GithubIcon), (["instagram"], InstagramIcon),
     (["linkedin"], LinkedinIcon), (["mailto"], MailIcon), (["spotify", "music"], MusicIcon),
     (["youtube", "vimeo"], VideoIcon), (["wa.me", "whatsapp"], MessageIcon)]

  predicate MatchesAny(url: string, pats: seq<string>)
  {
    exists i :: 0 <= i < |pats| && Contains(url, pats[i])
  }

  /** No rule before rule `i` matches. */
  predicate FirstMatching(rules: seq<(seq<string>, Icon)>, url: string, i: int)
  {
    forall j :: 0 <= j < i && j < |rules| ==> !MatchesAny(url, rules[j].0)
  }

  /** The icon of the first rule with a matching pattern, else the arrow. */
  function FirstMatch(rules: seq<(seq<string>, Icon)>, url: string): (r: Icon)
    ensures (forall i :: 0 <= i < |rules| ==> !MatchesAny(url, rules[i].0)) ==> r == ArrowUpRight
    ensures forall i :: 0 <= i < |rules| && MatchesAny(url, rules[i].0) && FirstMatching(rules, url, i) ==> r == rules[i].1
    decreases |rules|
  {
    if rules == [] then ArrowUpRight
    else if MatchesAny(url, rules[0].0) then rules[0].1
    else
      var r := FirstMatch(rules[1..], url);
      assert forall i :: 1 <= i < |rules| ==> rules[i] == rules[1..][i - 1];
      r
  }

  /** `getIconForUrl` is the rule table applied in order. */
  lemma {:induction false} IconForUrlFollowsRules(url: string)
    ensures IconForUrl(url) == FirstMatch(IconRules, url)
  {
    var r := IconRules;
    assert MatchesAny(url, r[0].0) <==> Contains(url, "twitter") || Contains(url, "x.com") by {
      assert r[0].0[0] == "twitter" && r[0].0[1] == "x.com" && |r[0].0| == 2;
    }
    assert MatchesAny(url, r[1].0) <==> Contains(url, "github") by { assert r[1].0[0] == "github"; }
    assert MatchesAny(url, r[2].0) <==> Contains(url, "instagram") by { assert r[2].0[0] == "instagram"; }
    assert MatchesAny(url, r[3].0) <==> Contains(url, "linkedin") by { assert r[3].0[0] == "linkedin"; }
    assert MatchesAny(url, r[4].0) <==> Contains(url, "mailto") by { assert r[4].0[0] == "mailto"; }
    assert MatchesAny(url, r[5].0) <==> Contains(url, "spotify") || Contains(url, "music") by {
      assert r[5].0[0] == "spotify" && r[5].0[1] == "music" && |r[5].0| == 2;
    }
    assert MatchesAny(url, r[6].0) <==> Contains(url, "youtube") || Contains(url, "vimeo") by {
      assert r[6].0[0] == "youtube" && r[6].0[1] == "vimeo" && |r[6].0| == 2;
    }
    assert MatchesAny(url, r[7].0) <==> Contains(url, "wa.me") || Contains(url, "whatsapp") by {
      assert r[7].0[0] == "wa.me" && r[7].0[1] == "whatsapp" && |r[7].0| == 2;
    }
    assert r[1..][1..][1..][1..][1..][1..][1..][1..] == [];
  }

  /** Earlier tests win: an address naming Twitter gets the Twitter icon
      whatever else it names. */
  lemma TwitterWins(url: string)
    requires Contains(url, "twitter")
    ensures IconForUrl(url) == TwitterIcon
  {
  }

  /** The link card asks for the icon of its url, or of "" when it has none. */
  function LinkIcon(b: BlockItem): Icon
  {
    IconForUrl(if b.url.Some? then b.url.value else "")
  }

  /** An address-less link gets the default arrow. */
  lemma NoUrlArrow(b: BlockItem)
    requires b.url.None?
    ensures LinkIcon(b) == ArrowUpRight
  {
    forall pat: string | pat != [] ensures !Contains("", pat) {
      forall i: nat | i <= 0 ensures !OccursAt("", pat, i) { }
    }
    assert !Contains("", "twitter") && !Contains("", "x.com") && !Contains("", "github");
    assert !Contains("", "instagram") && !Contains("", "linkedin") && !Contains("", "mailto");
    assert !Contains("", "spotify") && !Contains("", "music") && !Contains("", "youtube");
    assert !Contains("", "vimeo") && !Contains("", "wa.me") && !Contains("", "whatsapp");
  }

  // ---- Tic-tac-toe ----

  datatype Mark = X | O

  /** Nine cells, row by row; `None` is an empty cell. */
  type Board = seq<Option<Mark>>

  const EmptyBoard: Board := seq(9, _ => None)

  /** The eight lines in the order they are checked. */
  const Lines: seq<(int, int, int)> :=
    [(0, 1, 2), (3, 4, 5), (6, 7, 8), (0, 3, 6), (1, 4, 7), (2, 5, 8), (0, 4, 8), (2, 4, 6)]

  /** Line `i` holds three equal marks. */
  predicate LineWins(squares: Board, i: int)
    requires |squares| == 9 && 0 <= i < 8
  {
    var l := Lines[i];
    squares[l.0].Some? && squares[l.0] == squares[l.1] && squares[l.0] == squares[l.2]
  }

  predicate HasWinner(squares: Board)
    requires |squares| == 9
  {
    exists i :: 0 <= i < 8 && LineWins(squares, i)
  }

  /** `calculateWinner`: the mark of the first winning line, or none. */
  method CalculateWinner(squares: Board) returns (w: Option<Mark>)
    requires |squares| == 9
    ensures w.Some? ==> exists i :: 0 <= i < 8 && LineWins(squares, i) && w == squares[Lines[i].0] &&
                                    forall j :: 0 <= j < i ==> !LineWins(squares, j)
    ensures w.None? <==> !HasWinner(squares)
  {
    for i := 0 to 8
      invariant forall j :: 0 <= j < i ==> !LineWins(squares, j)
    {
      var a, b, c := Lines[i].0, Lines[i].1, Lines[i].2;
      if squares[a].Some? && squares[a] == squares[b] && squares[a] == squares[c] {
        assert LineWins(squares, i);
        return squares[a];
      }
    }
    return None;
  }

  /** How many cells hold the mark. */
  function Count(b: Board, m: Mark): nat
    decreases |b|
  {
    if b == [] then 0 else (if b[0] == Some(m) then 1 else 0) + Count(b[1..], m)
  }

  /** Marking an empty cell adds one to that mark's count and nothing to the other's. */
  lemma {:induction false} CountPlace(b: Board, i: int, m: Mark, other: Mark)
    requires 0 <= i < |b| && b[i].None? && other != m
    ensures Count(b[i := Some(m)], m) == Count(b, m) + 1
    ensures Count(b[i := Some(m)], other) == Count(b, other)
    decreases |b|
  {
    var b' := b[i := Some(m)];
    if i == 0 {
      assert b'[1..] == b[1..];
    } else {
      assert b'[1..] == b[1..][i - 1 := Some(m)];
      CountPlace(b[1..], i - 1, m, other);
    }
  }

  lemma {:induction false} CountEmpty(b: Board, m: Mark)
    requires forall k :: 0 <= k < |b| ==> b[k].None?
    ensures Count(b, m) == 0
    decreases |b|
  {
    if b != [] {
      assert forall k :: 0 <= k < |b[1..]| ==> b[1..][k] == b[k + 1];
      CountEmpty(b[1..], m);
    }
  }

  lemma EmptyBoardCounts()
    ensures Count(EmptyBoard, X) == 0 && Count(EmptyBoard, O) == 0
  {
    CountEmpty(EmptyBoard, X);
    CountEmpty(EmptyBoard, O);
  }

  /** X moves first and the marks alternate: X is level with O when X is
      to move, one ahead otherwise. */
  predicate Balanced(b: Board, isXNext: bool)
  {
    |b| == 9 && Count(b, X) == Count(b, O) + (if isXNext then 0 else 1)
  }

  /** The game state of one tic-tac-toe block. */
  class TicTacToe {
    var board: Board
    var isXNext: bool

    predicate Valid()
      reads this
    {
      Balanced(board, isXNext)
    }

    constructor()
      ensures board == EmptyBoard && isXNext && Valid()
    {
      board := EmptyBoard;
      isXNext := true;
      EmptyBoardCounts();
    }

    /** A click on cell `i`: ignored once the game is won or on a taken
        cell; otherwise the mover's mark goes there and the turn passes. */
    method HandleClick(i: int)
      requires Valid() && 0 <= i < 9
      modifies this
      ensures Valid()
      ensures old(HasWinner(board)) || old(board[i]).Some? ==> board == old(board) && isXNext == old(isXNext)
      ensures !old(HasWinner(board)) && old(board[i]).None? ==>
                board == old(board)[i := Some(if old(isXNext) then X else O)] && isXNext == !old(isXNext)
    {
      var winner := CalculateWinner(board);
      if winner.Some? || board[i].Some? {
        return;
      }
      var m := if isXNext then X else O;
      CountPlace(board, i, m, if isXNext then O else X);
      board := board[i := Some(m)];
      isXNext := !isXNext;
    }

    /** The reset button: an empty board with X to move. */
    method Reset()
      modifies this
      ensures board == EmptyBoard && isXNext && Valid()
    {
      board := EmptyBoard;
      isXNext := true;
      EmptyBoardCounts();
    }
  }
}
