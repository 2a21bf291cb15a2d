/** The editor component: a working copy of the document that the block
    handlers change, the save-status indicator, and the debounced autosave. */
module EditorState {
  import opened Types
  import opened Seqs
  import opened BlockOps
  import BlockTree

  datatype SyncStatus = Saved | Saving | SaveError

  class Editor {
    /** The document last handed in by the parent. */
    var data: ProfileData
    /** The working copy every handler edits. */
    var formData: ProfileData
    /** The stack whose blocks the list shows; `None` is the root. */
    var activeStackId: Option<string>
    var syncStatus: SyncStatus
    /** The copy a pending autosave timer will hand to `onUpdate`. */
    var scheduled: Option<ProfileData>

    /** The working copy keeps block ids unique and spans in range. */
    predicate Valid()
      reads this
    {
      UniqueIds(formData.blocks) && WellFormedBlocks(formData.blocks)
    }

    constructor(data: ProfileData, activeStackId: Option<string>)
      ensures this.data == data && formData == data && this.activeStackId == activeStackId
      ensures syncStatus == Saved && scheduled.None?
    {
      this.data := data;
      formData := data;
      this.activeStackId := activeStackId;
      syncStatus := Saved;
      scheduled := None;
    }

    /** `currentEditorBlocks` */
    function CurrentEditorBlocks(): (r: seq<BlockItem>)
      reads this
      ensures IsSubseq(r, formData.blocks)
      ensures forall x :: x in r <==> x in formData.blocks && ShownAt(x, activeStackId)
    {
      AtStack(formData.blocks, activeStackId)
    }

    /** `archivedBlocks` */
    function ArchivedBlocks(): (r: seq<BlockItem>)
      reads this
      ensures IsSubseq(r, formData.blocks)
      ensures forall x :: x in r <==> x in formData.blocks && IsArchived(x)
    {
      Archived(formData.blocks)
    }

    /** `handleBlockChange(id, field, value)` */
    method BlockChange(id: string, v: FieldValue)
      modifies this
      ensures formData == old(formData).(blocks := UpdateField(old(formData.blocks), id, v))
      ensures (old(Valid()) && FieldOf(v) != IdField && (v.SetColSpan? ==> ValidSpan(v.colSpan))
               && (v.SetRowSpan? ==> ValidSpan(v.rowSpan))) ==> Valid()
      ensures data == old(data) && activeStackId == old(activeStackId)
      ensures syncStatus == old(syncStatus) && scheduled == old(scheduled)
    {
      var blocks := formData.blocks;
      if FieldOf(v) != IdField {
        UpdateKeepsIds(blocks, id, v);
      }
      if WellFormedBlocks(blocks) && (v.SetColSpan? ==> ValidSpan(v.colSpan)) && (v.SetRowSpan? ==> ValidSpan(v.rowSpan)) {
        UpdateKeepsWellFormed(blocks, id, v);
      }
      formData := formData.(blocks := UpdateField(blocks, id, v));
    }

    /** `togglePrivacy` */
    method TogglePrivacy()
      modifies this
      ensures formData == old(formData).(privacy := BlockOps.TogglePrivacy(old(formData.privacy)))
      ensures formData.privacy != old(formData.privacy)
      ensures data == old(data) && activeStackId == old(activeStackId)
      ensures syncStatus == old(syncStatus) && scheduled == old(scheduled)
    {
      formData := formData.(privacy := if formData.privacy == PrivateProfile then PublicProfile else PrivateProfile);
    }

    /** `addBlock(kind)`: the texts are chosen by a chain of tests on the
        kind, then one block is appended to the open stack under a fresh id. */
    method AddBlock(kind: BlockType, freshId: string)
      requires freshId !in Ids(formData.blocks)
      modifies this
      ensures formData == old(formData).(blocks := old(formData.blocks) + [NewEditorBlock(kind, freshId, activeStackId)])
      ensures CurrentEditorBlocks() == old(CurrentEditorBlocks()) + [NewEditorBlock(kind, freshId, activeStackId)]
      ensures ArchivedBlocks() == old(ArchivedBlocks())
      ensures old(Valid()) ==> Valid()
      ensures data == old(data) && activeStackId == old(activeStackId)
      ensures syncStatus == old(syncStatus) && scheduled == old(scheduled)
    {
      var block := MakeBlock(kind, freshId, activeStackId);
      AppendNewEditorBlock(formData.blocks, kind, freshId, activeStackId);
      formData := formData.(blocks := formData.blocks + [block]);
    }

    /** The object literal `addBlock` builds from the chosen texts. */
    static method MakeBlock(kind: BlockType, id: string, stack: Option<string>) returns (block: BlockItem)
      ensures block == NewEditorBlock(kind, id, stack)
    {
      var title, subtitle, url, content := BlockTexts(kind);
      var d := Defaults(title, subtitle, url, content);
      block := BlockItem(id, kind, stack, Some(d.title), Some(d.subtitle), d.content, None, d.url, None,
                         true, Some(false),
                         Some(if kind == Video || kind == Map then 2 else 1),
                         Some(if kind == Map then 2 else 1),
                         Some(Light), Some(NoFilter), Some(Public));
    }

    /** The chain of tests `addBlock` uses to pick a new block's texts. */
    static method BlockTexts(kind: BlockType) returns (title: string, subtitle: string, url: Option<string>, content: Option<string>)
      ensures Defaults(title, subtitle, url, content) == EditorDefaults(kind)
    {
      title := "";
      subtitle := "";
      url := None;
      content := None;
      if kind == Text { title := "New Interest"; subtitle := "Subtitle"; }
      if kind == Contact { title := "+1 234 567 8900"; subtitle := "Call Me"; url := Some("tel:"); }
      if kind == Link { title := "New Link"; url := Some("https://"); }
      if kind == Status { title := "Status Update"; content := Some("What's on your mind?"); }
      if kind == Social { title := "Social"; url := Some("https://"); }
      if kind == Video { title := "My Video"; url := Some("https://youtube.com/..."); }
      if kind == Map { title := "My Spot"; content := Some("New York, NY"); }
      if kind == Music { title := "Song Title"; subtitle := "Artist"; }
      if kind == Stack { title := "New Collection"; subtitle := "Tap to open"; }
      if kind == TicTacToe { title := "Play Me"; }
      if kind == Weather { title := "Vibe Forecast"; }
    }

    /** `archiveBlock(id)` */
    method ArchiveBlock(id: string)
      modifies this
      ensures formData == old(formData).(blocks := Archive(old(formData.blocks), id))
      ensures forall x :: x in CurrentEditorBlocks() ==> x.id != id
      ensures old(Valid()) ==> Valid()
      ensures data == old(data) && activeStackId == old(activeStackId)
      ensures syncStatus == old(syncStatus) && scheduled == old(scheduled)
    {
      var blocks := formData.blocks;
      UpdateKeepsIds(blocks, id, SetArchived(Some(true)));
      if WellFormedBlocks(blocks) {
        UpdateKeepsWellFormed(blocks, id, SetArchived(Some(true)));
      }
      ArchiveHides(blocks, id, activeStackId);
      formData := formData.(blocks := Archive(blocks, id));
    }

    /** `restoreBlock(id)` */
    method RestoreBlock(id: string)
      modifies this
      ensures formData == old(formData).(blocks := Restore(old(formData.blocks), id))
      ensures forall x :: x in ArchivedBlocks() ==> x.id != id
      ensures old(Valid()) ==> Valid()
      ensures data == old(data) && activeStackId == old(activeStackId)
      ensures syncStatus == old(syncStatus) && scheduled == old(scheduled)
    {
      var blocks := formData.blocks;
      UpdateKeepsIds(blocks, id, SetArchived(Some(false)));
      if WellFormedBlocks(blocks) {
        UpdateKeepsWellFormed(blocks, id, SetArchived(Some(false)));
      }
      ArchiveHides(blocks, id, activeStackId);
      formData := formData.(blocks := Restore(blocks, id));
    }

    /** `permanentDeleteBlock(id)` */
    method PermanentDeleteBlock(id: string)
      modifies this
      ensures formData == old(formData).(blocks := PermanentDelete(old(formData.blocks), id))
      ensures id !in Ids(formData.blocks)
      ensures old(Valid()) ==> Valid()
      ensures data == old(data) && activeStackId == old(activeStackId)
      ensures syncStatus == old(syncStatus) && scheduled == old(scheduled)
    {
      var blocks := formData.blocks;
      var rest := PermanentDelete(blocks, id);
      BlockTree.SubseqKeepsWellFormed(rest, blocks);
      assert forall i :: 0 <= i < |rest| ==> rest[i].id != id;
      formData := formData.(blocks := rest);
    }

    /** The autosave effect, run after each change of the working copy: the
        previous timer is cleared, and a new one is started only when the
        copy differs from the last document handed in. */
    method AutosaveEffect()
      modifies this
      ensures scheduled == (if formData == data then None else Some(formData))
      ensures formData != data ==> syncStatus == Saving
      ensures formData == data ==> syncStatus == old(syncStatus)
      ensures data == old(data) && formData == old(formData) && activeStackId == old(activeStackId)
    {
      scheduled := None;
      if formData == data {
        return;
      }
      syncStatus := Saving;
      scheduled := Some(formData);
    }

    /** The autosave timer fires and `onUpdate` answers `ok`; `sent` is the
        copy that was handed to it. */
    method TimerFires(ok: bool) returns (sent: Option<ProfileData>)
      modifies this
      ensures sent == old(scheduled) && scheduled.None?
      ensures old(scheduled).Some? ==> syncStatus == (if ok then Saved else SaveError)
      ensures old(scheduled).None? ==> syncStatus == old(syncStatus)
      ensures data == old(data) && formData == old(formData) && activeStackId == old(activeStackId)
    {
      sent := scheduled;
      if scheduled.Some? {
        scheduled := None;
        syncStatus := if ok then Saved else SaveError;
      }
    }

    /** `handleManualSave` with `onUpdate` answering `ok`. */
    method ManualSave(ok: bool) returns (sent: ProfileData)
      modifies this
      ensures sent == formData
      ensures syncStatus == (if ok then Saved else SaveError)
      ensures data == old(data) && formData == old(formData) && activeStackId == old(activeStackId)
      ensures scheduled == old(scheduled)
    {
      syncStatus := Saving;
      sent := formData;
      syncStatus := if ok then Saved else SaveError;
    }

    /** The parent hands in a new document (after a save, or a navigation). */
    method Receive(newData: ProfileData, stack: Option<string>)
      modifies this
      ensures data == newData && activeStackId == stack
      ensures formData == old(formData) && syncStatus == old(syncStatus) && scheduled == old(scheduled)
    {
      data := newData;
      activeStackId := stack;
    }
  }
}
