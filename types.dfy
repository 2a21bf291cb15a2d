/** Records of the profile document: blocks, saved friends, the profile itself. */
module Types {

  datatype Option<+T> = None | Some(value: T)

  /** The closed set of block tags. */
  datatype BlockType =
    | Link | Image | Text | Social | Contact | Status
    | Video | Map | Music | Stack | TicTacToe | Weather

  /** The closed set of 24 visual themes. */
  datatype ProfileTheme =
    | Monochrome | Swiss | Brutalist | Glass
    | Cyberpunk | Vaporwave | Y2k | Terminal
    | Win95 | Gameboy | Paper | Neumorphism
    | Sunset | Midnight | Nature | Bubblegum
    | Blueprint | Comic | Space | Luxury
    | Minecraft | Roblox | Fortnite | Mariokart

  /** The string tag a theme is stored under. */
  function ThemeName(t: ProfileTheme): string
  {
    match t
    case Monochrome => "monochrome" case Swiss => "swiss"
    case Brutalist => "brutalist" case Glass => "glass"
    case Cyberpunk => "cyberpunk" case Vaporwave => "vaporwave"
    case Y2k => "y2k" case Terminal => "terminal"
    case Win95 => "win95" case Gameboy => "gameboy"
    case Paper => "paper" case Neumorphism => "neumorphism"
    case Sunset => "sunset" case Midnight => "midnight"
    case Nature => "nature" case Bubblegum => "bubblegum"
    case Blueprint => "blueprint" case Comic => "comic"
    case Space => "space" case Luxury => "luxury"
    case Minecraft => "minecraft" case Roblox => "roblox"
    case Fortnite => "fortnite" case Mariokart => "mariokart"
  }

  datatype BlockStyle = Light | Dark | Accent
  datatype ImageFilter = NoFilter | Grayscale | Contrast | Sepia | Blur | Vignette
  datatype Visibility = Public | Member
  datatype Font = Sans | Serif | Mono
  datatype Privacy = PublicProfile | PrivateProfile
  datatype ViewMode = Preview | Edit

  /** One content block. Optional fields of the record are `Option`s; a
      `parentId` of `None` stands for both `null` and a missing field. */
  datatype BlockItem = BlockItem(
    id: string,
    kind: BlockType,
    parentId: Option<string>,
    title: Option<string>,
    subtitle: Option<string>,
    content: Option<string>,
    timestamp: Option<string>,
    url: Option<string>,
    imageUrl: Option<string>,
    active: bool,
    archived: Option<bool>,
    colSpan: Option<int>,
    rowSpan: Option<int>,
    style: Option<BlockStyle>,
    filter: Option<ImageFilter>,
    visibility: Option<Visibility>)

  /** A denormalised snapshot of a friend's profile. */
  datatype SavedProfile = SavedProfile(id: string, name: string, avatarUrl: string, role: string)

  /** The profile document once its defaults are filled in. */
  datatype ProfileData = ProfileData(
    name: string,
    role: string,
    location: string,
    avatarUrl: string,
    bannerUrl: Option<string>,
    font: Option<Font>,
    theme: ProfileTheme,
    privacy: Privacy,
    blocks: seq<BlockItem>,
    savedProfiles: seq<SavedProfile>,
    friendCode: Option<string>)

  /** The profile document as read back from the store or the local cache:
      documents written by older versions lack the friend list, the friend
      code or the privacy flag. */
  datatype StoredProfile = StoredProfile(
    name: string,
    role: string,
    location: string,
    avatarUrl: string,
    bannerUrl: Option<string>,
    font: Option<Font>,
    theme: ProfileTheme,
    privacy: Option<Privacy>,
    blocks: seq<BlockItem>,
    savedProfiles: Option<seq<SavedProfile>>,
    friendCode: Option<string>)

  /** A JavaScript string is truthy iff it is present and non-empty. */
  predicate Truthy(s: Option<string>)
  {
    s.Some? && s.value != ""
  }

  /** A block is at the root when its `parentId` is null, missing or "". */
  predicate AtRoot(b: BlockItem)
  {
    !Truthy(b.parentId)
  }

  /** `archived` is truthy only when it is present and true. */
  predicate IsArchived(b: BlockItem)
  {
    b.archived == Some(true)
  }

  /** Grid spans, when present, lie in 1..4. */
  predicate ValidSpan(s: Option<int>)
  {
    s.Some? ==> 1 <= s.value <= 4
  }

  predicate WellFormedBlock(b: BlockItem)
  {
    ValidSpan(b.colSpan) && ValidSpan(b.rowSpan)
  }

  predicate WellFormedBlocks(blocks: seq<BlockItem>)
  {
    forall i :: 0 <= i < |blocks| ==> WellFormedBlock(blocks[i])
  }

  /** The ids used in a block list. */
  function Ids(blocks: seq<BlockItem>): set<string>
  {
    set i | 0 <= i < |blocks| :: blocks[i].id
  }

  /** Every id occurs once in the list. */
  predicate UniqueIds(blocks: seq<BlockItem>)
  {
    forall i, j :: 0 <= i < |blocks| && 0 <= j < |blocks| && blocks[i].id == blocks[j].id ==> i == j
  }

  /** The ids in a friend list. */
  function FriendIds(friends: seq<SavedProfile>): set<string>
  {
    set i | 0 <= i < |friends| :: friends[i].id
  }
}
