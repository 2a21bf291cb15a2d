/** The top-level component: the shown document, the signed-in user's own
    document, the view mode, and the handlers that load, save and edit them.
    Every answer from the hosted store comes in as a parameter. */
module AppShell {
  import opened Types
  import opened Seqs
  import opened Text
  import opened Friends
  import BlockTree
  import BlockOps

  /** A toast. */
  datatype Notice = Notice(message: string, isError: bool)

  /** The store's answer to a one-row profile read. */
  datatype Fetch = Row(doc: StoredProfile) | NoRow | Threw

  /** The store's answer to the friend-code lookup of a search. */
  datatype CodeLookup = CodeHit(id: string, doc: StoredProfile) | CodeMiss | CodeThrew

  /** The store's answer to the name lookup of a search (at most five rows). */
  datatype NameLookup = NameRows(rows: seq<(string, StoredProfile)>) | NameThrew

  /** `{ success, message }` of the search handlers. */
  datatype SearchResult = SearchResult(success: bool, message: string)

  /** The user `handleSearchUsers` goes on to add: the friend-code match when
      there is one, else the first name match; none after a thrown lookup or
      when nothing matched. */
  function SearchHit(code: CodeLookup, names: NameLookup): Option<(string, StoredProfile)>
  {
    match code
    case CodeHit(id, doc) => Some((id, doc))
    case CodeThrew => None
    case CodeMiss =>
      if names.NameRows? && |names.rows| > 0 then Some(names.rows[0]) else None
  }

  /** The block shown before any document is loaded. */
  const DefaultBlock: BlockItem :=
    BlockItem("default-text", Text, None, Some("Start Here"), Some("Edit this text block"), None, None,
              None, None, true, None, Some(2), Some(1), Some(Light), None, None)

  const DefaultData: ProfileData :=
    ProfileData("New User", "Setup your profile", "", "", None, Some(Sans), Monochrome, PublicProfile,
                [DefaultBlock], [], None)

  /** The block `handleQuickAdd(kind)` appends. */
  function QuickAddBlock(kind: BlockType, id: string, stack: Option<string>): (b: BlockItem)
    ensures b.id == id && b.kind == kind && b.parentId == stack && b.active
    ensures b.colSpan == Some(1) && b.rowSpan == Some(1) && b.style == Some(Light)
    ensures b.title == Some(if kind == Link then "New Link" else if kind == Image then "New Image" else "New Block")
    ensures b.url.Some? <==> kind == Link
    ensures b.url.Some? ==> b.url.value == "https://"
    ensures BlockOps.ShownAt(b, stack) && WellFormedBlock(b)
  {
    BlockItem(id, kind, stack,
              Some(if kind == Link then "New Link" else if kind == Image then "New Image" else "New Block"),
              None, None, None, if kind == Link then Some("https://") else None, None,
              true, None, Some(1), Some(1), Some(Light), None, None)
  }

  class App {
    var session: Option<string>
    var data: ProfileData
    var currentUserData: Option<ProfileData>
    var mode: ViewMode
    var editingBlockId: Option<string>
    var viewOnly: bool
    var activeStackId: Option<string>
    var isOnboarding: bool
    var profileNotFound: bool
    var accessDenied: bool
    var targetFriendCode: Option<string>
    var notice: Option<Notice>

    /** The first render, for the given session (or none). */
    constructor(session: Option<string>)
      ensures this.session == session && data == DefaultData && currentUserData.None?
      ensures mode == Preview && editingBlockId.None? && !viewOnly && activeStackId.None?
      ensures !isOnboarding && !profileNotFound && !accessDenied && targetFriendCode.None? && notice.None?
    {
      this.session := session;
      data := DefaultData;
      currentUserData := None;
      mode := Preview;
      editingBlockId := None;
      viewOnly := false;
      activeStackId := None;
      isOnboarding := false;
      profileNotFound := false;
      accessDenied := false;
      targetFriendCode := None;
      notice := None;
    }

    /** `fetchCurrentUser`: the signed-in user's own document, with its
        missing fields filled; `writeBack` is the `needsUpdate` flag that
        triggers the background update. */
    method FetchCurrentUser(answer: Fetch, picks: seq<int>) returns (writeBack: bool)
      requires ValidPicks(picks)
      modifies this
      ensures answer.Row? ==> currentUserData == Some(Fill(answer.doc, picks))
      ensures answer.Row? ==> (writeBack <==> Incomplete(answer.doc))
      ensures !answer.Row? ==> currentUserData == old(currentUserData) && !writeBack
      ensures session == old(session) && data == old(data) && mode == old(mode)
      ensures editingBlockId == old(editingBlockId) && viewOnly == old(viewOnly)
      ensures activeStackId == old(activeStackId) && isOnboarding == old(isOnboarding)
      ensures profileNotFound == old(profileNotFound) && accessDenied == old(accessDenied)
      ensures targetFriendCode == old(targetFriendCode) && notice == old(notice)
    {
      writeBack := false;
      if answer.Row? {
        var userData, needsUpdate := Backfill(answer.doc, picks);
        currentUserData := Some(userData);
        writeBack := needsUpdate;
      }
    }

    /** `fetchProfile(target, isPublic, viewer)`: for the owner the cached
        copy is shown first; the stored row then replaces it unless the
        private-profile gate refuses the viewer. */
    method FetchProfile(target: string, isPublic: bool, viewer: Option<string>, cached: Option<StoredProfile>,
                        answer: Fetch, picksLocal: seq<int>, picksRemote: seq<int>)
      requires ValidPicks(picksLocal) && ValidPicks(picksRemote)
      modifies this
      ensures accessDenied <==> answer.Row? && AccessDenied(Fill(answer.doc, picksRemote), viewer, target)
      ensures accessDenied ==> targetFriendCode == Fill(answer.doc, picksRemote).friendCode
      ensures !accessDenied ==> targetFriendCode == old(targetFriendCode)
      ensures profileNotFound <==> isPublic && !answer.Row?
      ensures answer.Row? && !accessDenied ==> data == Fill(answer.doc, picksRemote)
      ensures !isPublic && answer.Row? && !accessDenied ==> currentUserData == Some(data) && !isOnboarding
      ensures !isPublic && cached.Some? && !(answer.Row? && !accessDenied) ==>
                data == Fill(cached.value, picksLocal) && currentUserData == Some(data) && !isOnboarding
      ensures !isPublic && cached.None? && !answer.Row? ==>
                isOnboarding && data == old(data) && currentUserData == old(currentUserData)
      ensures !isPublic && cached.None? && accessDenied ==>
                isOnboarding == old(isOnboarding) && currentUserData == old(currentUserData)
      ensures (isPublic || cached.None?) && !(answer.Row? && !accessDenied) ==> data == old(data)
      ensures isPublic ==> currentUserData == old(currentUserData) && isOnboarding == old(isOnboarding)
      ensures session == old(session) && mode == old(mode) && editingBlockId == old(editingBlockId)
      ensures viewOnly == old(viewOnly) && activeStackId == old(activeStackId) && notice == old(notice)
    {
      profileNotFound := false;
      accessDenied := false;
      var hasLocalData := false;
      if !isPublic && cached.Some? {
        ShowOwn(Fill(cached.value, picksLocal));
        hasLocalData := true;
      }
      if answer.Row? {
        var fetched := Fill(answer.doc, picksRemote);
        if AccessDenied(fetched, viewer, target) {
          accessDenied := true;
          targetFriendCode := if Truthy(fetched.friendCode) then fetched.friendCode else None;
          return;
        }
        if isPublic {
          data := fetched;
        } else {
          ShowOwn(fetched);
        }
      } else if isPublic {
        profileNotFound := true;
      } else if !hasLocalData {
        isOnboarding := true;
      }
    }

    /** Shows a document as the signed-in user's own and leaves onboarding. */
    method ShowOwn(doc: ProfileData)
      modifies this
      ensures data == doc && currentUserData == Some(doc) && !isOnboarding
      ensures session == old(session) && mode == old(mode) && editingBlockId == old(editingBlockId)
      ensures viewOnly == old(viewOnly) && activeStackId == old(activeStackId) && notice == old(notice)
      ensures profileNotFound == old(profileNotFound) && accessDenied == old(accessDenied)
      ensures targetFriendCode == old(targetFriendCode)
    {
      data := doc;
      currentUserData := Some(doc);
      isOnboarding := false;
    }

    /** The owner's own load as the session handlers issue it: no viewer is
        passed, so the gate does not see the owner. */
    method OpenOwnProfileAsWritten(cached: Option<StoredProfile>, answer: Fetch,
                                   picksLocal: seq<int>, picksRemote: seq<int>)
      requires session.Some? && ValidPicks(picksLocal) && ValidPicks(picksRemote)
      modifies this
      ensures answer.Row? && Fill(answer.doc, picksRemote).privacy == PrivateProfile ==> accessDenied
    {
      FetchProfile(session.value, false, None, cached, answer, picksLocal, picksRemote);
    }

    /** The owner's own load with the owner passed as the viewer: the owner
        is never refused, and a stored row always becomes the shown and the
        own document. */
    method OpenOwnProfile(cached: Option<StoredProfile>, answer: Fetch,
                          picksLocal: seq<int>, picksRemote: seq<int>)
      requires session.Some? && ValidPicks(picksLocal) && ValidPicks(picksRemote)
      modifies this
      ensures !accessDenied && !profileNotFound
      ensures answer.Row? ==> data == Fill(answer.doc, picksRemote) && currentUserData == Some(data) && !isOnboarding
      ensures !answer.Row? ==> (isOnboarding <==> cached.None?)
    {
      if answer.Row? {
        AccessRule(Fill(answer.doc, picksRemote), session, session.value);
      }
      FetchProfile(session.value, false, session, cached, answer, picksLocal, picksRemote);
    }

    /** Opening a shared `?uid=` link: read-only, with the signed-in user (if
        any) as the viewer. */
    method OpenSharedProfile(publicUid: string, answer: Fetch, picks: seq<int>)
      requires ValidPicks(picks)
      modifies this
      ensures viewOnly
      ensures accessDenied <==> answer.Row? && AccessDenied(Fill(answer.doc, picks), old(session), publicUid)
      ensures profileNotFound <==> !answer.Row?
      ensures answer.Row? && !accessDenied ==> data == Fill(answer.doc, picks)
      ensures currentUserData == old(currentUserData) && session == old(session)
    {
      viewOnly := true;
      FetchProfile(publicUid, true, session, None, answer, picks, picks);
    }

    /** `saveProfile`: refused without a session; otherwise the document,
        with a friend code filled in when it has none, becomes both the
        shown and the own document. The store's answer does not matter. */
    method SaveProfile(newData: ProfileData, picks: seq<int>) returns (ok: bool)
      requires ValidPicks(picks)
      modifies this
      ensures ok <==> old(session).Some?
      ensures ok ==> data == Fill(Stored(newData), picks) && currentUserData == Some(data)
      ensures ok ==> Truthy(data.friendCode) && data.blocks == newData.blocks
      ensures ok && Truthy(newData.friendCode) ==> data == newData
      ensures !ok ==> data == old(data) && currentUserData == old(currentUserData)
      ensures session == old(session) && mode == old(mode) && editingBlockId == old(editingBlockId)
      ensures viewOnly == old(viewOnly) && activeStackId == old(activeStackId)
      ensures isOnboarding == old(isOnboarding) && notice == old(notice)
    {
      if session.None? {
        return false;
      }
      var d := newData;
      if !Truthy(d.friendCode) {
        var code := GenerateFriendCode(picks);
        d := d.(friendCode := Some(code));
      }
      if Truthy(newData.friendCode) {
        FillStoredRoundTrip(newData, picks);
      }
      data := d;
      currentUserData := Some(d);
      ok := true;
    }

    /** `handleOnboardingComplete`: save the generated profile and open the editor. */
    method OnboardingComplete(newData: ProfileData, picks: seq<int>)
      requires ValidPicks(picks)
      modifies this
      ensures old(session).Some? ==> !isOnboarding && mode == Edit && data == Fill(Stored(newData), picks)
      ensures old(session).None? ==> data == old(data) && isOnboarding == old(isOnboarding) && mode == old(mode)
      ensures old(session).None? ==> notice == Some(Notice("Setup failed. Please try again.", true))
    {
      var ok := SaveProfile(newData, picks);
      if ok {
        isOnboarding := false;
        mode := Edit;
      } else {
        notice := Some(Notice("Setup failed. Please try again.", true));
      }
    }

    /** `handleBlockRemove`: the block and everything nested under it go,
        then the document is saved. */
    method BlockRemove(blockId: string, picks: seq<int>)
      requires ValidPicks(picks)
      modifies this
      ensures old(session).Some? ==> BlockTree.RemovalSpec(old(data.blocks), data.blocks, blockId)
      ensures old(session).Some? ==> forall j :: 0 <= j < |old(data.blocks)| ==>
                (old(data.blocks)[j] in data.blocks <==> !BlockTree.Doomed(old(data.blocks), old(data.blocks)[j].id, blockId))
      ensures old(session).Some? ==>
                forall x :: multiset(data.blocks)[x] ==
                  if BlockTree.Doomed(old(data.blocks), x.id, blockId) then 0 else multiset(old(data.blocks))[x]
      ensures old(session).Some? ==> data == Fill(Stored(old(data).(blocks := data.blocks)), picks)
      ensures old(session).None? ==> data == old(data)
      ensures mode == old(mode) && editingBlockId == old(editingBlockId) && activeStackId == old(activeStackId)
    {
      var remaining := BlockTree.RemoveRecursive(blockId, data.blocks);
      var ok := SaveProfile(data.(blocks := remaining), picks);
    }

    /** `handleQuickAdd`: in the owner's view, append a starter block to the
        open stack under a fresh id, save, and open it in the editor. */
    method QuickAdd(kind: BlockType, freshId: string, picks: seq<int>)
      requires ValidPicks(picks) && freshId !in Ids(data.blocks)
      modifies this
      ensures old(viewOnly) ==> data == old(data) && mode == old(mode) && editingBlockId == old(editingBlockId)
      ensures !old(viewOnly) ==> mode == Edit && editingBlockId == Some(freshId)
      ensures !old(viewOnly) && old(session).Some? ==>
                data.blocks == old(data.blocks) + [QuickAddBlock(kind, freshId, old(activeStackId))]
      ensures !old(viewOnly) && old(session).Some? ==>
                BlockOps.AtStack(data.blocks, activeStackId)
                == BlockOps.AtStack(old(data.blocks), activeStackId) + [QuickAddBlock(kind, freshId, activeStackId)]
      ensures UniqueIds(old(data.blocks)) && WellFormedBlocks(old(data.blocks)) ==>
                UniqueIds(data.blocks) && WellFormedBlocks(data.blocks)
      ensures !old(viewOnly) && old(session).None? ==> data == old(data)
      ensures activeStackId == old(activeStackId) && viewOnly == old(viewOnly)
    {
      if viewOnly {
        return;
      }
      var block := QuickAddBlock(kind, freshId, activeStackId);
      var before := data.blocks;
      BlockOps.AppendedBlockIsShown(before, block, activeStackId);
      if UniqueIds(before) && WellFormedBlocks(before) {
        BlockOps.AppendFresh(before, block);
      }
      var ok := SaveProfile(data.(blocks := before + [block]), picks);
      editingBlockId := Some(freshId);
      mode := Edit;
    }

    /** `toggleMode`: switch between preview and edit; leaving the editor
        closes the open block. */
    method ToggleMode()
      modifies this
      ensures mode == (if old(mode) == Preview then Edit else Preview)
      ensures mode == Preview ==> editingBlockId.None?
      ensures mode == Edit ==> editingBlockId == old(editingBlockId)
      ensures data == old(data) && currentUserData == old(currentUserData) && session == old(session)
    {
      if mode == Preview {
        mode := Edit;
      } else {
        mode := Preview;
        editingBlockId := None;
      }
    }

    /** `handleRemoveFriend`: drop the friend from the own list. */
    method RemoveFriend(friendId: string, commitOk: bool)
      modifies this
      ensures old(session).None? || old(currentUserData).None? ==>
                currentUserData == old(currentUserData) && notice == old(notice)
      ensures old(session).Some? && old(currentUserData).Some? ==>
                currentUserData == Some(old(currentUserData).value.(savedProfiles :=
                  Friends.RemoveFriend(old(currentUserData).value.savedProfiles, friendId)))
      ensures old(session).Some? && old(currentUserData).Some? ==>
                notice == Some(if commitOk then Notice("Friend removed.", false)
                               else Notice("Failed to remove friend.", true))
      ensures currentUserData.Some? ==> friendId !in FriendIds(currentUserData.value.savedProfiles)
                                        || currentUserData == old(currentUserData)
      ensures data == old(data) && session == old(session)
    {
      if session.None? || currentUserData.None? {
        return;
      }
      var me := currentUserData.value;
      currentUserData := Some(me.(savedProfiles := Friends.RemoveFriend(me.savedProfiles, friendId)));
      notice := Some(if commitOk then Notice("Friend removed.", false) else Notice("Failed to remove friend.", true));
    }

    /** `handleAddViewedProfile`: follow the profile being viewed, snapshotting
        its name, avatar and role. */
    method AddViewedProfile(targetUid: Option<string>, commitOk: bool)
      modifies this
      ensures old(session).None? || old(currentUserData).None? ==>
                notice == Some(Notice("Please create a profile first!", true)) && currentUserData == old(currentUserData)
      ensures old(session).Some? && old(currentUserData).Some? ==>
                var entry := Snapshot(if targetUid.Some? then targetUid.value else "", data.name, data.avatarUrl, data.role);
                var before := old(currentUserData).value.savedProfiles;
                if !Truthy(targetUid) || targetUid == old(session) then
                  currentUserData == old(currentUserData) && notice == old(notice)
                else if targetUid.value in FriendIds(before) then
                  currentUserData == old(currentUserData) && notice == Some(Notice("Already in your friends list!", true))
                else
                  currentUserData == Some(old(currentUserData).value.(savedProfiles := before + [entry])) &&
                  notice == Some(if commitOk then Notice("Friend added successfully!", false)
                                 else Notice("Failed to save friend.", true))
      ensures data == old(data) && session == old(session)
    {
      if session.None? || currentUserData.None? {
        notice := Some(Notice("Please create a profile first!", true));
        return;
      }
      if !Truthy(targetUid) {
        return;
      }
      var me := currentUserData.value;
      match AddFriend(session, me.savedProfiles, Snapshot(targetUid.value, data.name, data.avatarUrl, data.role))
      case IsSelf =>
      case AlreadyFriend =>
        notice := Some(Notice("Already in your friends list!", true));
      case Added(friends) =>
        currentUserData := Some(me.(savedProfiles := friends));
        notice := Some(if commitOk then Notice("Friend added successfully!", false)
                       else Notice("Failed to save friend.", true));
    }

    /** `addFoundUser`: add a search hit to the own friend list. */
    method AddFoundUser(friendId: string, friend: StoredProfile, commitOk: bool) returns (res: SearchResult)
      requires session.Some? && currentUserData.Some?
      modifies this
      ensures var before := old(currentUserData).value.savedProfiles;
              if old(session) == Some(friendId) then
                res == SearchResult(false, "You cannot add yourself.") && currentUserData == old(currentUserData)
              else if friendId in FriendIds(before) then
                res == SearchResult(false, "Already in friends list.") && currentUserData == old(currentUserData)
              else
                currentUserData == Some(old(currentUserData).value.(savedProfiles :=
                  before + [Snapshot(friendId, friend.name, friend.avatarUrl, friend.role)])) &&
                res == (if commitOk then SearchResult(true, "Added " + friend.name + "!")
                        else SearchResult(false, "Failed to save."))
      ensures currentUserData.Some? && data == old(data) && session == old(session) && notice == old(notice)
    {
      var me := currentUserData.value;
      match AddFriend(session, me.savedProfiles, Snapshot(friendId, friend.name, friend.avatarUrl, friend.role))
      case IsSelf =>
        res := SearchResult(false, "You cannot add yourself.");
      case AlreadyFriend =>
        res := SearchResult(false, "Already in friends list.");
      case Added(friends) =>
        currentUserData := Some(me.(savedProfiles := friends));
        res := if commitOk then SearchResult(true, "Added " + friend.name + "!")
               else SearchResult(false, "Failed to save.");
    }

    /** `handleSearchUsers`: after the sign-in and length gate, a friend-code
        match wins over a name match; `codeKey` is the key sent to the code
        lookup, `None` when no lookup is made. */
    method SearchUsers(query: string, code: CodeLookup, names: NameLookup, commitOk: bool)
      returns (res: SearchResult, codeKey: Option<string>)
      modifies this
      ensures old(session).None? || old(currentUserData).None? ==>
                res == SearchResult(false, "Please sign in.") && codeKey.None?
      ensures old(session).Some? && old(currentUserData).Some? && |Trim(query)| < 3 ==>
                res == SearchResult(false, "Search too short.") && codeKey.None?
      ensures codeKey.Some? <==> old(session).Some? && old(currentUserData).Some? && |Trim(query)| >= 3
      ensures codeKey.Some? ==> codeKey.value == ToUpper(Trim(query))
      ensures codeKey.None? ==> currentUserData == old(currentUserData)
      ensures codeKey.Some? && (code.CodeThrew? || (code.CodeMiss? && names.NameThrew?)) ==>
                res == SearchResult(false, "Connection error.") && currentUserData == old(currentUserData)
      ensures codeKey.Some? && code.CodeMiss? && names == NameRows([]) ==>
                res == SearchResult(false, "User not found.") && currentUserData == old(currentUserData)
      ensures codeKey.Some? && SearchHit(code, names).Some? ==>
                var (id, doc) := SearchHit(code, names).value;
                var before := old(currentUserData).value.savedProfiles;
                if old(session) == Some(id) then
                  res == SearchResult(false, "You cannot add yourself.") && currentUserData == old(currentUserData)
                else if id in FriendIds(before) then
                  res == SearchResult(false, "Already in friends list.") && currentUserData == old(currentUserData)
                else
                  currentUserData == Some(old(currentUserData).value.(savedProfiles :=
                    before + [Snapshot(id, doc.name, doc.avatarUrl, doc.role)])) &&
                  res == (if commitOk then SearchResult(true, "Added " + doc.name + "!")
                          else SearchResult(false, "Failed to save."))
      ensures res.success ==>
                codeKey.Some? && old(currentUserData).Some? && currentUserData.Some? &&
                |currentUserData.value.savedProfiles| == |old(currentUserData).value.savedProfiles| + 1
      ensures data == old(data) && session == old(session)
    {
      match GateQuery(session.Some? && currentUserData.Some?, query)
      case Refused(message) =>
        res := SearchResult(false, message);
        codeKey := None;
      case Lookup(clean, key) =>
        codeKey := Some(key);
        match code
        case CodeThrew =>
          res := SearchResult(false, "Connection error.");
        case CodeHit(id, doc) =>
          res := AddFoundUser(id, doc, commitOk);
        case CodeMiss =>
          match names
          case NameThrew =>
            res := SearchResult(false, "Connection error.");
          case NameRows(rows) =>
            if |rows| > 0 {
              res := AddFoundUser(rows[0].0, rows[0].1, commitOk);
            } else {
              res := SearchResult(false, "User not found.");
            }
    }
  }
}
