/** The editor's pure transforms of the block list: the live list of the
    current stack, the archive bin, one-field edits, archive/restore, hard
    delete, and the block a new "add block" produces. */
module BlockOps {
  import opened Types
  import opened Seqs
  import BlockTree

  /** The predicate of `currentEditorBlocks` (and of the viewer's `currentBlocks`):
      not archived, and at the root when no stack is open, else directly in
      the open stack. */
  predicate ShownAt(b: BlockItem, stack: Option<string>)
  {
    !IsArchived(b) && (if stack.None? then AtRoot(b) else b.parentId == stack)
  }

  /** The live list of the open stack, in document order. */
  function AtStack(blocks: seq<BlockItem>, stack: Option<string>): (r: seq<BlockItem>)
    ensures IsSubseq(r, blocks)
    ensures forall x :: x in r <==> x in blocks && !IsArchived(x) &&
                                    (stack.None? ==> AtRoot(x)) && (stack.Some? ==> x.parentId == stack)
  {
    Filter(blocks, (b: BlockItem) => ShownAt(b, stack))
  }

  /** The archive bin. */
  function Archived(blocks: seq<BlockItem>): (r: seq<BlockItem>)
    ensures IsSubseq(r, blocks)
    ensures forall x :: x in r <==> x in blocks && x.archived == Some(true)
  {
    Filter(blocks, IsArchived)
  }

  /** Both lists keep every copy of a block they show: a block listed twice
      in the document is listed twice in the open stack's list or the bin. */
  lemma ListsKeepEveryCopy(blocks: seq<BlockItem>, stack: Option<string>, x: BlockItem)
    ensures multiset(AtStack(blocks, stack))[x] == if ShownAt(x, stack) then multiset(blocks)[x] else 0
    ensures multiset(Archived(blocks))[x] == if x.archived == Some(true) then multiset(blocks)[x] else 0
  {
    FilterCount(blocks, (b: BlockItem) => ShownAt(b, stack), x);
    FilterCount(blocks, IsArchived, x);
  }

  /** No block is both in a live list and in the bin. */
  lemma LiveAndBinDisjoint(blocks: seq<BlockItem>, stack: Option<string>, x: BlockItem)
    ensures !(x in AtStack(blocks, stack) && x in Archived(blocks))
  {
  }

  /** Every block of the document is either in the bin or in the live list
      of exactly the stack it names (the root for a falsy `parentId`). */
  lemma {:induction false} EveryBlockListedOnce(blocks: seq<BlockItem>, x: BlockItem)
    requires x in blocks
    ensures x in Archived(blocks) || x in AtStack(blocks, if AtRoot(x) then None else x.parentId)
    ensures forall s: Option<string> :: x in AtStack(blocks, s) ==>
              s == (if AtRoot(x) then None else x.parentId) || (s == Some("") && x.parentId == Some(""))
  {
  }

  /** The block fields `handleBlockChange` can be asked to set. */
  datatype Field =
    | IdField | KindField | ParentField | TitleField | SubtitleField | ContentField
    | TimestampField | UrlField | ImageUrlField | ActiveField | ArchivedField
    | ColSpanField | RowSpanField | StyleField | FilterField | VisibilityField

  /** A field together with the value to store in it. */
  datatype FieldValue =
    | SetId(id: string)
    | SetKind(kind: BlockType)
    | SetParent(parentId: Option<string>)
    | SetTitle(title: Option<string>)
    | SetSubtitle(subtitle: Option<string>)
    | SetContent(content: Option<string>)
    | SetTimestamp(timestamp: Option<string>)
    | SetUrl(url: Option<string>)
    | SetImageUrl(imageUrl: Option<string>)
    | SetActive(active: bool)
    | SetArchived(archived: Option<bool>)
    | SetColSpan(colSpan: Option<int>)
    | SetRowSpan(rowSpan: Option<int>)
    | SetStyle(style: Option<BlockStyle>)
    | SetFilter(filter: Option<ImageFilter>)
    | SetVisibility(visibility: Option<Visibility>)

  function FieldOf(v: FieldValue): Field
  {
    match v
    case SetId(_) => IdField case SetKind(_) => KindField case SetParent(_) => ParentField
    case SetTitle(_) => TitleField case SetSubtitle(_) => SubtitleField
    case SetContent(_) => ContentField case SetTimestamp(_) => TimestampField
    case SetUrl(_) => UrlField case SetImageUrl(_) => ImageUrlField
    case SetActive(_) => ActiveField case SetArchived(_) => ArchivedField
    case SetColSpan(_) => ColSpanField case SetRowSpan(_) => RowSpanField
    case SetStyle(_) => StyleField case SetFilter(_) => FilterField
    case SetVisibility(_) => VisibilityField
  }

  /** Reads one field of a block. */
  function Get(b: BlockItem, f: Field): (v: FieldValue)
    ensures FieldOf(v) == f
  {
    match f
    case IdField => SetId(b.id) case KindField => SetKind(b.kind)
    case ParentField => SetParent(b.parentId) case TitleField => SetTitle(b.title)
    case SubtitleField => SetSubtitle(b.subtitle) case ContentField => SetContent(b.content)
    case TimestampField => SetTimestamp(b.timestamp) case UrlField => SetUrl(b.url)
    case ImageUrlField => SetImageUrl(b.imageUrl) case ActiveField => SetActive(b.active)
    case ArchivedField => SetArchived(b.archived) case ColSpanField => SetColSpan(b.colSpan)
    case RowSpanField => SetRowSpan(b.rowSpan) case StyleField => SetStyle(b.style)
    case FilterField => SetFilter(b.filter) case VisibilityField => SetVisibility(b.visibility)
  }

  /** `{ ...block, [field]: value }` */
  function With(b: BlockItem, v: FieldValue): BlockItem
  {
    match v
    case SetId(x) => b.(id := x) case SetKind(x) => b.(kind := x)
    case SetParent(x) => b.(parentId := x) case SetTitle(x) => b.(title := x)
    case SetSubtitle(x) => b.(subtitle := x) case SetContent(x) => b.(content := x)
    case SetTimestamp(x) => b.(timestamp := x) case SetUrl(x) => b.(url := x)
    case SetImageUrl(x) => b.(imageUrl := x) case SetActive(x) => b.(active := x)
    case SetArchived(x) => b.(archived := x) case SetColSpan(x) => b.(colSpan := x)
    case SetRowSpan(x) => b.(rowSpan := x) case SetStyle(x) => b.(style := x)
    case SetFilter(x) => b.(filter := x) case SetVisibility(x) => b.(visibility := x)
  }

  /** Setting a field changes that field to the value and no other field. */
  lemma WithSetsOnlyThatField(b: BlockItem, v: FieldValue, f: Field)
    ensures Get(With(b, v), f) == if f == FieldOf(v) then v else Get(b, f)
  {
    match v
    case SetId(_) =>
    case SetKind(_) =>
    case SetParent(_) =>
    case SetTitle(_) =>
    case SetSubtitle(_) =>
    case SetContent(_) =>
    case SetTimestamp(_) =>
    case SetUrl(_) =>
    case SetImageUrl(_) =>
    case SetActive(_) =>
    case SetArchived(_) =>
    case SetColSpan(_) =>
    case SetRowSpan(_) =>
    case SetStyle(_) =>
    case SetFilter(_) =>
    case SetVisibility(_) =>
  }

  /** Writing back the value a field already holds changes nothing. */
  lemma WithOwnValue(b: BlockItem, f: Field)
    ensures With(b, Get(b, f)) == b
  {
  }

  /** `handleBlockChange(id, field, value)`: set the field on every block
      with that id, leave the others as they are, keep length and order. */
  function UpdateField(blocks: seq<BlockItem>, id: string, v: FieldValue): (r: seq<BlockItem>)
    ensures |r| == |blocks|
    ensures forall i :: 0 <= i < |blocks| ==>
              r[i] == (if blocks[i].id == id then With(blocks[i], v) else blocks[i])
  {
    seq(|blocks|, i requires 0 <= i < |blocks| =>
      if blocks[i].id == id then With(blocks[i], v) else blocks[i])
  }

  /** An edit that does not touch the id keeps ids unique. */
  lemma {:induction false} UpdateKeepsIds(blocks: seq<BlockItem>, id: string, v: FieldValue)
    requires FieldOf(v) != IdField
    ensures Ids(UpdateField(blocks, id, v)) == Ids(blocks)
    ensures UniqueIds(blocks) ==> UniqueIds(UpdateField(blocks, id, v))
  {
    var r := UpdateField(blocks, id, v);
    assert forall i :: 0 <= i < |blocks| ==> r[i].id == blocks[i].id by {
      forall i | 0 <= i < |blocks| ensures r[i].id == blocks[i].id {
        WithSetsOnlyThatField(blocks[i], v, IdField);
      }
    }
    assert Ids(r) == Ids(blocks) by {
      forall k ensures k in Ids(r) <==> k in Ids(blocks) {
        if k in Ids(r) { var i :| 0 <= i < |r| && r[i].id == k; }
        if k in Ids(blocks) { var i :| 0 <= i < |blocks| && blocks[i].id == k; }
      }
    }
  }

  /** An edit with an in-range span keeps every span in range. */
  lemma UpdateKeepsWellFormed(blocks: seq<BlockItem>, id: string, v: FieldValue)
    requires WellFormedBlocks(blocks)
    requires v.SetColSpan? ==> ValidSpan(v.colSpan)
    requires v.SetRowSpan? ==> ValidSpan(v.rowSpan)
    ensures WellFormedBlocks(UpdateField(blocks, id, v))
  {
  }

  /** `archiveBlock(id)` */
  function Archive(blocks: seq<BlockItem>, id: string): seq<BlockItem>
  {
    UpdateField(blocks, id, SetArchived(Some(true)))
  }

  /** `restoreBlock(id)` */
  function Restore(blocks: seq<BlockItem>, id: string): seq<BlockItem>
  {
    UpdateField(blocks, id, SetArchived(Some(false)))
  }

  /** Archiving twice is archiving once; archiving moves exactly the blocks
      with that id into the bin and touches neither `parentId` nor `active`. */
  lemma ArchiveProperties(blocks: seq<BlockItem>, id: string)
    ensures Archive(Archive(blocks, id), id) == Archive(blocks, id)
    ensures var r := Archive(blocks, id);
            |r| == |blocks| &&
            forall i :: 0 <= i < |blocks| ==>
              r[i].parentId == blocks[i].parentId && r[i].active == blocks[i].active &&
              (IsArchived(r[i]) <==> blocks[i].id == id || IsArchived(blocks[i]))
  {
  }

  /** Restoring after archiving clears the flag and keeps everything else;
      the round trip gives back the original list exactly when every block
      with that id had `archived` set to false (and not missing or true). */
  lemma {:induction false} ArchiveRestoreRoundTrip(blocks: seq<BlockItem>, id: string)
    ensures var r := Restore(Archive(blocks, id), id);
            |r| == |blocks| &&
            forall i :: 0 <= i < |blocks| ==>
              r[i] == (if blocks[i].id == id then blocks[i].(archived := Some(false)) else blocks[i])
    ensures Restore(Archive(blocks, id), id) == blocks <==>
            forall i :: 0 <= i < |blocks| && blocks[i].id == id ==> blocks[i].archived == Some(false)
  {
    var r := Restore(Archive(blocks, id), id);
    if r == blocks {
      forall i | 0 <= i < |blocks| && blocks[i].id == id ensures blocks[i].archived == Some(false) {
        assert r[i].archived == Some(false);
      }
    }
  }

  /** An archived block leaves every live list; a restored one leaves the bin. */
  lemma ArchiveHides(blocks: seq<BlockItem>, id: string, stack: Option<string>)
    ensures forall x :: x in AtStack(Archive(blocks, id), stack) ==> x.id != id
    ensures forall x :: x in Archived(Restore(blocks, id)) ==> x.id != id
  {
    var a := Archive(blocks, id);
    assert forall i :: 0 <= i < |a| && a[i].id == id ==> IsArchived(a[i]);
    var r := Restore(blocks, id);
    assert forall i :: 0 <= i < |r| && r[i].id == id ==> !IsArchived(r[i]);
  }

  /** `permanentDeleteBlock(id)`: drops every block with that id and keeps
      the rest in order. */
  function PermanentDelete(blocks: seq<BlockItem>, id: string): (r: seq<BlockItem>)
    ensures IsSubseq(r, blocks)
    ensures forall x :: x in r <==> x in blocks && x.id != id
    ensures forall x :: multiset(r)[x] == if x.id != id then multiset(blocks)[x] else 0
  {
    var r := BlockTree.WithoutId(blocks, id);
    assert forall x :: multiset(r)[x] == if x.id != id then multiset(blocks)[x] else 0 by {
      forall x ensures multiset(r)[x] == if x.id != id then multiset(blocks)[x] else 0 {
        FilterCount(blocks, (b: BlockItem) => b.id != id, x);
      }
    }
    r
  }

  /** The texts `addBlock` fills in, by block type. */
  datatype Defaults = Defaults(title: string, subtitle: string, url: Option<string>, content: Option<string>)

  function EditorDefaults(kind: BlockType): Defaults
  {
    match kind
    case Text => Defaults("New Interest", "Subtitle", None, None)
    case Contact => Defaults("+1 234 567 8900", "Call Me", Some("tel:"), None)
    case Link => Defaults("New Link", "", Some("https://"), None)
    case Status => Defaults("Status Update", "", None, Some("What's on your mind?"))
    case Social => Defaults("Social", "", Some("https://"), None)
    case Video => Defaults("My Video", "", Some("https://youtube.com/..."), None)
    case Map => Defaults("My Spot", "", None, Some("New York, NY"))
    case Music => Defaults("Song Title", "Artist", None, None)
    case Stack => Defaults("New Collection", "Tap to open", None, None)
    case TicTacToe => Defaults("Play Me", "", None, None)
    case Weather => Defaults("Vibe Forecast", "", None, None)
    case Image => Defaults("", "", None, None)
  }

  /** The block `addBlock(kind)` appends to the open stack. */
  function NewEditorBlock(kind: BlockType, id: string, stack: Option<string>): (b: BlockItem)
    ensures b.id == id && b.kind == kind && b.parentId == stack
    ensures b.active && b.archived == Some(false) && !IsArchived(b)
    ensures b.colSpan == Some(2) <==> kind == Video || kind == Map
    ensures b.rowSpan == Some(2) <==> kind == Map
    ensures WellFormedBlock(b)
    ensures b.style == Some(Light) && b.filter == Some(NoFilter) && b.visibility == Some(Public)
    ensures b.url.Some? <==> kind in {Contact, Link, Social, Video}
  {
    var d := EditorDefaults(kind);
    BlockItem(id, kind, stack, Some(d.title), Some(d.subtitle), d.content, None, d.url, None,
              true, Some(false),
              Some(if kind == Video || kind == Map then 2 else 1),
              Some(if kind == Map then 2 else 1),
              Some(Light), Some(NoFilter), Some(Public))
  }

  /** Appending a new editor block under a fresh id: it joins the end of its
      stack's list, the bin is unchanged, and ids stay unique and spans valid. */
  lemma AppendNewEditorBlock(blocks: seq<BlockItem>, kind: BlockType, id: string, stack: Option<string>)
    requires id !in Ids(blocks)
    ensures var b := NewEditorBlock(kind, id, stack);
            AtStack(blocks + [b], stack) == AtStack(blocks, stack) + [b] && Archived(blocks + [b]) == Archived(blocks)
    ensures var b := NewEditorBlock(kind, id, stack);
            UniqueIds(blocks) && WellFormedBlocks(blocks) ==> UniqueIds(blocks + [b]) && WellFormedBlocks(blocks + [b])
  {
    var b := NewEditorBlock(kind, id, stack);
    AppendedBlockIsShown(blocks, b, stack);
    FilterAppend(blocks, b, IsArchived);
    if UniqueIds(blocks) && WellFormedBlocks(blocks) {
      AppendFresh(blocks, b);
    }
  }

  /** A block appended to the document that belongs to the open stack shows
      up at the end of that stack's live list, which is otherwise unchanged. */
  lemma AppendedBlockIsShown(blocks: seq<BlockItem>, b: BlockItem, stack: Option<string>)
    requires ShownAt(b, stack)
    ensures AtStack(blocks + [b], stack) == AtStack(blocks, stack) + [b]
  {
    FilterAppend(blocks, b, (x: BlockItem) => ShownAt(x, stack));
  }

  /** Appending a block under a fresh id keeps ids unique and spans in range. */
  lemma AppendFresh(blocks: seq<BlockItem>, b: BlockItem)
    requires UniqueIds(blocks) && WellFormedBlocks(blocks)
    requires b.id !in Ids(blocks) && WellFormedBlock(b)
    ensures UniqueIds(blocks + [b]) && WellFormedBlocks(blocks + [b])
    ensures Ids(blocks + [b]) == Ids(blocks) + {b.id}
  {
    var r := blocks + [b];
    assert Ids(r) == Ids(blocks) + {b.id} by {
      forall k ensures k in Ids(r) <==> k in Ids(blocks) + {b.id} {
        if k in Ids(r) { var i :| 0 <= i < |r| && r[i].id == k; }
        if k in Ids(blocks) { var i :| 0 <= i < |blocks| && blocks[i].id == k; assert r[i] == blocks[i]; }
        if k == b.id { assert r[|blocks|] == b; }
      }
    }
  }

  /** `togglePrivacy` */
  function TogglePrivacy(p: Privacy): (r: Privacy)
    ensures r != p
  {
    if p == PrivateProfile then PublicProfile else PrivateProfile
  }

  lemma TogglePrivacyTwice(p: Privacy)
    ensures TogglePrivacy(TogglePrivacy(p)) == p
  {
  }
}
