# Biography link-in-bio builder — a Dafny model of its rules

Biography is a single-page React application. A signed-in user lays out a
grid of content blocks (links, images, text, videos, maps, nested "stacks"
of blocks, small games), picks one of 24 visual themes and shares the page.
Private pages open only to the owner and to people on the owner's friend
list. Friends are found by an `ML-XXXXXX` friend code or by name.

This project models the data rules under that interface, in Dafny:

- **Types** (`types.dfy`): the profile document, its blocks and saved
  friends as datatypes. Optional fields are `Option`s, and JavaScript
  truthiness is spelled out: a `parentId` of `""` also means "at the root",
  and a friend code of `""` counts as missing.
- **Friends** (`friends.dfy`): friend-code generation, the backfill of
  missing fields in stored documents, the private-profile gate, adding and
  removing friends, and the search-query gate.
- **AppShell** (`app.dfy`): the top-level component as a class. Its fields
  are the component's state. Its methods are the load, save, add, remove
  and search handlers.
- **BlockTree** (`block_tree.dfy`): the recursive stack deletion, with
  termination even on cyclic parent links.
- **BlockOps** and **EditorState** (`block_ops.dfy`, `editor.dfy`): the
  editor's list transforms, and the editor as a class. It holds a working
  copy, a save status and a pending autosave.
- **BlockCard** (`block_card.dfy`): render gating, grid spans, the weather
  pick, contact kind, video embed address, link icon, and tic-tac-toe.
- **ProfileView** (`profile_view.dfy`): the viewer's grid, Back navigation,
  member-only locks, font class, code copying, the add-friend guard and the
  Konami easter egg.
- **InitialProfile** and **Onboarding** (`initial_profile.dfy`,
  `onboarding.dfy`): the first-profile factory and the three-step form that
  calls it.

Everything the app gets from its hosted store comes in as a parameter:

- a row, no row or a thrown error (`Fetch`, `CodeLookup`, `NameLookup`);
- whether a write succeeded (`commitOk`);
- the cached local copy (`cached`).

The random draws behind a friend code are a sequence of six indices into
the 32-letter alphabet (`picks`). The `Date.now()` block ids are a `freshId`
argument that is not yet in use.

Behaviours worth knowing that the model makes explicit:

- `saveProfile` answers `true` whenever there is a session, whatever the
  store says. So the editor's error status can appear only without a session.
- If the working copy returns to equal the last saved document, the
  autosave effect cancels the timer and leaves the status as it was, so a
  "saving" status stays.
- The Konami matcher does not re-test a mismatching key as a first key.
  So an extra `ArrowUp` before the code is never recognised, even though
  the last ten keys are the code (`ProfileView.ExtraUpMissesCode`).
- The viewer's grid and the editor's list use the same filter
  (`BlockOps.AtStack`). The back target tests `activeStackId` for
  truthiness. The grid filter tests it against `null`.

## Model

| member | source | states |
|---|---|---|
| Friends.CodeFor | biography/App.tsx:103-110 | the code is `ML-` followed by six symbols of the 32-letter alphabet, the k-th being the k-th draw's letter |
| Friends.GenerateFriendCode | biography/App.tsx:103-110 | the character-appending loop yields exactly `CodeFor` of the draws |
| Friends.FriendCodeAvoidsLookalikes | biography/App.tsx:104 | no symbol of a friend code is 0, O, 1 or I |
| Friends.CodeForInjective | biography/App.tsx:103-110 | different draws give different codes |
| Friends.Fill | biography/App.tsx:121-136 | after the backfill the friend list, a truthy friend code and the privacy flag are present; values already present are kept; every other field is unchanged |
| Friends.FillChangesOnlyIncomplete | biography/App.tsx:121-136 | the backfill leaves a document as it was if and only if none of the three fields was missing |
| Friends.FillStoredRoundTrip | biography/App.tsx:128-131 | a document that already has a friend code comes back from the backfill unchanged |
| Friends.Backfill | biography/App.tsx:119-136 | the field-by-field in-place fill equals `Fill`, and `needsUpdate` is true exactly when a field was missing |
| Friends.HasFriend | biography/App.tsx:199 | the `.some` scan finds the id exactly when it is among the friend ids |
| Friends.AccessRule | biography/App.tsx:198-206 | access is refused if and only if the profile is private and the viewer is neither the target nor a friend; a public profile and the owner are never refused |
| Friends.NoViewerIsNoFriend | biography/App.tsx:199 | a missing viewer is never a friend, so without a viewer every private profile is refused |
| Friends.AddFriend | biography/App.tsx:368-385 | self-adds and duplicates are refused with their own outcomes; otherwise exactly one entry is appended and earlier entries are unchanged |
| Friends.AddKeepsFriendsUnique | biography/App.tsx:371-382 | an accepted add keeps friend ids unique and adds exactly the new id |
| Friends.RemoveFriend | biography/App.tsx:308-312 | the result is an order-preserving subsequence holding exactly the entries with another id, every copy of each; an absent id leaves the list unchanged |
| Friends.RemoveUndoesAdd | biography/App.tsx:308-312 | removing a just-added friend restores the previous list |
| Friends.GateQuery | biography/App.tsx:331-341 | "Please sign in." without a session or profile, "Search too short." under three trimmed characters; a signed-in query of three or more trimmed characters is always looked up, as the trimmed query with each character upper-cased as the code key |
| Friends.BlankQueryRefused | biography/App.tsx:333-334 | an all-blank query never reaches a lookup |
| Friends.FriendCodeIsUpper | biography/App.tsx:341 | upper-casing leaves a friend code unchanged |
| Friends.CodeQueryFindsCode | biography/App.tsx:333-341 | a friend code typed with surrounding blanks is looked up under exactly that code |
| BlockTree.RemoveRecursive | biography/App.tsx:399-406 | the result is an order-preserving subsequence; a block survives if and only if its parent chain does not reach the removed id, and then with every copy it had; no survivor's parent was removed; with no children the result is the plain id filter; it terminates on cyclic parent links |
| BlockTree.RemovalIsExact | biography/App.tsx:399-406 | any result meeting the removal rules keeps exactly the blocks whose chain does not reach the removed id |
| BlockTree.HardDeleteOrphansChildren | biography/components/EditorView.tsx:199-205 | the editor's hard delete keeps a child of the deleted block, which the recursive removal would drop |
| BlockOps.AtStack | biography/components/EditorView.tsx:31-35 | the open stack's list is an order-preserving subsequence of exactly the unarchived blocks whose parent is the stack, or falsy at the root |
| BlockOps.Archived | biography/components/EditorView.tsx:37 | the bin is an order-preserving subsequence of exactly the archived blocks |
| BlockOps.ListsKeepEveryCopy | biography/components/EditorView.tsx:31-37 | the open stack's list and the bin hold as many copies of a block as the document does when they show it, and none otherwise |
| BlockOps.LiveAndBinDisjoint | biography/components/EditorView.tsx:31-37 | no block is both in a stack's list and in the bin |
| BlockOps.EveryBlockListedOnce | biography/components/EditorView.tsx:31-37 | every block is in the bin or in its own stack's list, and in no other stack's list except the `""` stack |
| BlockOps.WithSetsOnlyThatField | biography/components/EditorView.tsx:88 | setting one field changes that field and no other |
| BlockOps.WithOwnValue | biography/components/EditorView.tsx:88 | setting a field to its own value changes nothing |
| BlockOps.UpdateField | biography/components/EditorView.tsx:84-91 | same length and order; blocks with the id get the field set, all other blocks are unchanged |
| BlockOps.UpdateKeepsIds | biography/components/EditorView.tsx:84-91 | a field change other than the id keeps the id set and id uniqueness |
| BlockOps.UpdateKeepsWellFormed | biography/components/EditorView.tsx:84-91 | a field change with an in-range span keeps every span in 1..4 |
| BlockOps.ArchiveProperties | biography/components/EditorView.tsx:183-188 | archiving is idempotent and changes only the `archived` flag of the blocks with that id |
| BlockOps.ArchiveRestoreRoundTrip | biography/components/EditorView.tsx:183-196 | restore after archive sets `archived` to false and keeps all else; it is the identity exactly when no block with the id had `archived` missing or true |
| BlockOps.ArchiveHides | biography/components/EditorView.tsx:183-196 | after archiving, no list shows the id; after restoring, the bin does not hold it |
| BlockOps.PermanentDelete | biography/components/EditorView.tsx:199-205 | an order-preserving subsequence of exactly the blocks with another id, every copy of each |
| BlockOps.NewEditorBlock | biography/components/EditorView.tsx:138-171 | the new block sits in the open stack, is active and unarchived, is two columns wide exactly for video and map, two rows high exactly for map, and has a url exactly for contact, link, social and video |
| BlockOps.AppendedBlockIsShown | biography/components/EditorView.tsx:173 | appending a block that belongs to the open stack appends it to that stack's list |
| BlockOps.AppendFresh | biography/components/EditorView.tsx:156-173 | appending a well-formed block under a fresh id keeps ids unique and spans in range |
| BlockOps.TogglePrivacy | biography/components/EditorView.tsx:120-122 | the flag always changes |
| BlockOps.TogglePrivacyTwice | biography/components/EditorView.tsx:120-122 | toggling twice restores the flag |
| AppShell.QuickAddBlock | biography/App.tsx:443-453 | the quick-add block belongs to the open stack, is active, 1 by 1 and light, has its title by kind, and has the `https://` url exactly for links |
| AppShell.App.constructor | biography/App.tsx:37-56 | the initial state: default document, preview mode, nothing open, no flags |
| AppShell.App.FetchCurrentUser | biography/App.tsx:112-146 | a stored row becomes the own document after the backfill, and the write-back happens exactly when a field was missing; otherwise nothing changes |
| AppShell.App.FetchProfile | biography/App.tsx:148-232 | the cached copy is shown first for the owner; a refused row sets the denial and records its code; an accepted row becomes the shown document; no row means "not found" for a public load and onboarding for an owner without a cache; a refused owner load without a cache leaves onboarding and the own document as they were |
| AppShell.App.OpenOwnProfileAsWritten | biography/App.tsx:65-70 | loading one's own profile as the session handlers do refuses the owner whenever the stored profile is private |
| AppShell.App.OpenOwnProfile | biography/App.tsx:65-70 | with the owner passed as viewer, the owner is never refused and a stored row becomes the shown and own document |
| AppShell.App.OpenSharedProfile | biography/App.tsx:71-74 | a shared link opens read-only, refuses exactly as the gate says for the signed-in viewer, and never touches the own document |
| AppShell.App.SaveProfile | biography/App.tsx:234-266 | succeeds exactly with a session; the saved document is the input with a code filled in when missing, and becomes both the shown and the own document |
| AppShell.App.OnboardingComplete | biography/App.tsx:411-424 | with a session the generated profile is saved and the editor opens; without one the error toast is shown |
| AppShell.App.BlockRemove | biography/App.tsx:398-409 | the saved document drops exactly the block and everything whose parent chain reaches it, and keeps every copy of every other block |
| AppShell.App.QuickAdd | biography/App.tsx:440-461 | nothing in a read-only view; otherwise one block is appended to the end and to the open stack's list, it is opened in the editor, and valid ids and spans stay valid |
| AppShell.App.ToggleMode | biography/App.tsx:426-432 | preview and edit swap, and returning to preview closes the open block |
| AppShell.App.RemoveFriend | biography/App.tsx:308-328 | with a session and a profile, the own list loses the id and the toast reports the write's outcome; otherwise nothing changes |
| AppShell.App.AddViewedProfile | biography/App.tsx:268-306 | without a profile it reports an error; it ignores a missing uid and oneself; it reports a duplicate; otherwise it appends a snapshot of the viewed profile |
| AppShell.App.AddFoundUser | biography/App.tsx:368-396 | self and duplicates are refused with their messages; otherwise the snapshot is appended and the result reports the write's outcome |
| AppShell.App.SearchUsers | biography/App.tsx:330-366 | the gate answers before any lookup, and a passing query is always looked up under the upper-cased trimmed query; a code match is added before any name match is tried, else the first name row is added, each with `addFoundUser`'s refusals, snapshot and messages; no row gives "User not found."; a thrown code or name lookup gives "Connection error." and changes nothing; success always adds exactly one friend |
| EditorState.Editor.constructor | biography/components/EditorView.tsx:18-20 | the working copy starts as the document handed in, with status saved |
| EditorState.Editor.CurrentEditorBlocks | biography/components/EditorView.tsx:31-35 | the list holds exactly the working copy's blocks shown in the open stack, in order (it is `AtStack` of the working copy, so `ListsKeepEveryCopy` counts its copies) |
| EditorState.Editor.ArchivedBlocks | biography/components/EditorView.tsx:37 | the bin holds exactly the working copy's archived blocks, in order (it is `Archived` of the working copy, so `ListsKeepEveryCopy` counts its copies) |
| EditorState.Editor.BlockChange | biography/components/EditorView.tsx:84-91 | the working copy's blocks become `UpdateField` of the old ones, and validity is kept for non-id fields and in-range spans |
| EditorState.Editor.TogglePrivacy | biography/components/EditorView.tsx:120-122 | only the privacy flag changes, and it always changes |
| EditorState.Editor.AddBlock | biography/components/EditorView.tsx:138-173 | one new block is appended to the working copy and to the open stack's list; the bin is unchanged and validity is kept |
| EditorState.Editor.MakeBlock | biography/components/EditorView.tsx:156-171 | the literal built from the chosen texts is exactly the new editor block `NewEditorBlock` describes |
| EditorState.Editor.BlockTexts | biography/components/EditorView.tsx:139-154 | the if-chain yields the per-kind texts of the defaults table |
| EditorState.Editor.ArchiveBlock | biography/components/EditorView.tsx:183-188 | the working copy becomes `Archive` of the old, the open list no longer shows the id, and validity is kept |
| EditorState.Editor.RestoreBlock | biography/components/EditorView.tsx:191-196 | the working copy becomes `Restore` of the old, the bin no longer holds the id, and validity is kept |
| EditorState.Editor.PermanentDeleteBlock | biography/components/EditorView.tsx:199-206 | no block with the id remains, and validity is kept |
| EditorState.Editor.AutosaveEffect | biography/components/EditorView.tsx:42-63 | the previous timer is cancelled; a save of the working copy is scheduled, with status saving, exactly when it differs from the document; otherwise the status is left as it was |
| EditorState.Editor.TimerFires | biography/components/EditorView.tsx:50-57 | a pending save is sent and the status becomes saved or error by the answer |
| EditorState.Editor.ManualSave | biography/components/EditorView.tsx:208-217 | the working copy is sent and the status becomes saved or error by the answer |
| EditorState.Editor.Receive | biography/components/EditorView.tsx:17-18 | a new document from the parent does not reset the working copy |
| BlockCard.RenderOf | biography/components/BlockCard.tsx:31 | an inactive block renders nothing; an active locked block (line 112) renders only the placeholder |
| BlockCard.SpanClassRules | biography/components/BlockCard.tsx:34-51 | a missing span reads as 1; spans outside 2..4 get the one-unit class; spans 1..4 get four distinct classes |
| BlockCard.WeatherFor | biography/components/BlockCard.tsx:242-250 | the pick is always one of the four forecasts, the one at the id's length for ids shorter than four |
| BlockCard.ContactKinds | biography/components/BlockCard.tsx:475 | a contact is e-mail exactly when some character of its title is `@` or its link begins with `mailto:`; every contact the editor adds (biography/components/EditorView.tsx:145) is a phone contact |
| BlockCard.EmbedUrl | biography/components/BlockCard.tsx:300-309 | no url gives no embed; an address that is neither YouTube nor Vimeo is used unchanged |
| BlockCard.WatchUrlId | biography/components/BlockCard.tsx:304 | a watch address yields the text after the first `v=`, ending at the end of the address, at the next `&` or at a second `v=` |
| BlockCard.YouTubeWatchEmbed | biography/components/BlockCard.tsx:303-305 | a YouTube watch address embeds `https://www.youtube.com/embed/` + the id + `?controls=0&modestbranding=1`, for each of the three endings of the id |
| BlockCard.YouTubeShortEmbed | biography/components/BlockCard.tsx:303-305 | a YouTube address without `v=` embeds the same player address for its last `/`-segment |
| BlockCard.ShortUrlId | biography/components/BlockCard.tsx:304 | an address without `v=` yields its last `/`-segment |
| BlockCard.VimeoEmbed | biography/components/BlockCard.tsx:306-308 | a Vimeo address embeds the player for its last `/`-segment |
| BlockCard.IconForUrlFollowsRules | biography/components/BlockCard.tsx:621-631 | the icon is the first matching rule of the ordered substring table, else the arrow |
| BlockCard.TwitterWins | biography/components/BlockCard.tsx:622 | an address naming Twitter gets the Twitter icon whatever else it names |
| BlockCard.NoUrlArrow | biography/components/BlockCard.tsx:500 | a link without an address gets the default arrow |
| BlockCard.CalculateWinner | biography/components/BlockCard.tsx:606-619 | the mark of the first winning line in check order, and none exactly when no line wins |
| BlockCard.CountPlace | biography/components/BlockCard.tsx:556-557 | marking an empty cell adds one to that mark's count and none to the other's |
| BlockCard.EmptyBoardCounts | biography/components/BlockCard.tsx:565 | the empty board has no marks |
| BlockCard.TicTacToe.constructor | biography/components/BlockCard.tsx:546-547 | an empty board with X to move |
| BlockCard.TicTacToe.HandleClick | biography/components/BlockCard.tsx:550-560 | a won game or a taken cell ignores the click; otherwise only that cell gets the mover's mark and the turn passes; X always has as many marks as O or one more |
| BlockCard.TicTacToe.Reset | biography/components/BlockCard.tsx:562-567 | an empty board with X to move, and balanced |
| ProfileView.EachLiveBlockHasOneGrid | biography/components/ProfileView.tsx:98-102 | a live block appears on the grid of its parent (or the root), and on no other grid except the `""` one |
| ProfileView.Find | biography/components/ProfileView.tsx:104 | the first block with the id, or none exactly when the id is absent |
| ProfileView.ParentStackId | biography/components/ProfileView.tsx:104-105 | no stack open or the stack block not found leads to the root; the target is never `""` |
| ProfileView.BackShowsStackCard | biography/components/ProfileView.tsx:185 | Back leads to the grid that shows the open stack's card |
| ProfileView.LockRule | biography/components/ProfileView.tsx:286 | signed-in viewers and the owner see every active card; a card shows the placeholder exactly when it is member-only and the viewer is anonymous and not the owner |
| ProfileView.FontClass | biography/components/ProfileView.tsx:137-143 | serif and mono get their classes; sans and a missing font get the sans class |
| ProfileView.CodeToCopy | biography/components/ProfileView.tsx:155-163 | the friend code, else the user id, and nothing is copied exactly when both are falsy |
| ProfileView.SubmitQuery | biography/components/ProfileView.tsx:165-170 | a query is sent exactly when a handler is attached and the input has a non-blank character, and it is the trimmed input |
| ProfileView.SubmitKeepsSearch | biography/components/ProfileView.tsx:170 | the search sees the sent query exactly as it would the raw input |
| ProfileView.Step | biography/components/ProfileView.tsx:81-93 | the index stays below ten; the egg fires exactly on the tenth expected key; any other key resets to 0 |
| ProfileView.Run | biography/components/ProfileView.tsx:79-93 | the index after any key sequence stays below ten |
| ProfileView.RunMatchesSuffix | biography/components/ProfileView.tsx:81-93 | the keys typed so far end with the first `index` keys of the code |
| ProfileView.FiresOnCode | biography/components/ProfileView.tsx:82-88 | when the egg fires, the last ten keys were the code |
| ProfileView.CodeFires | biography/components/ProfileView.tsx:79-88 | typing the code from the start fires on its last key |
| ProfileView.ExtraUpMissesCode | biography/components/ProfileView.tsx:90-92 | one extra `ArrowUp` before the code never fires, although the last ten keys are the code |
| ProfileView.KonamiListener.constructor | biography/components/ProfileView.tsx:80 | the index starts at 0 |
| ProfileView.KonamiListener.Handle | biography/components/ProfileView.tsx:81-93 | one key moves the index as `Step` says, and a firing key completes the code |
| InitialProfile.ThemeTable | biography/services/geminiService.ts:10-15 | the 24 accepted names are distinct, line up with the theme list, and cover every theme |
| InitialProfile.ParseTheme | biography/services/geminiService.ts:17 | a name parses exactly when it is accepted, to the theme of that name |
| InitialProfile.ThemeNameRoundTrip | types.ts:2-8 | every theme's name parses back to it |
| InitialProfile.ValidThemesAreThemeNames | biography/services/geminiService.ts:10-15 | the accepted names are exactly the theme names |
| InitialProfile.SelectedTheme | biography/services/geminiService.ts:17 | an accepted name keeps its theme; anything else gives monochrome |
| InitialProfile.SelectedThemeOfName | biography/services/geminiService.ts:17 | a theme's own name selects that theme |
| InitialProfile.WelcomeBlock | biography/services/geminiService.ts:28-39 | the welcome block: id, text kind, title, active, 2 by 1, and the bio or the welcome line as subtitle |
| InitialProfile.GenerateInitialProfile | biography/services/geminiService.ts:3-41 | blank name and role get defaults, given ones are kept; public, no friends, no code, no avatar; the selected theme; exactly the welcome block |
| InitialProfile.InitialBlocksValid | biography/services/geminiService.ts:27-40 | a new profile's blocks have unique ids and valid spans, and all show on the root grid |
| InitialProfile.FirstSaveAssignsCode | biography/services/geminiService.ts:19-26 | a new profile lacks a friend code, so its first save fills in a valid one and changes nothing else |
| Onboarding.Flow.constructor | biography/components/OnboardingFlow.tsx:24-32 | step 1, blank answers, monochrome |
| Onboarding.Flow.Next | biography/components/OnboardingFlow.tsx:36-50 | a disabled Next does nothing; before step 3 it advances; on step 3 it hands over the generated profile of the answers; the step stays in 1..3 |
| Onboarding.Flow.Back | biography/components/OnboardingFlow.tsx:189-190 | the step goes down by one after the first, and the answers are kept |
| Onboarding.Flow.ThemeSelect | biography/components/OnboardingFlow.tsx:52-54 | only the theme changes |
| Onboarding.Flow.SetName | biography/components/OnboardingFlow.tsx:106-107 | only the name changes |
| Onboarding.Flow.SetRole | biography/components/OnboardingFlow.tsx:114-115 | only the role changes |
| Onboarding.Flow.SetLocation | biography/components/OnboardingFlow.tsx:128-129 | only the location changes |
| Onboarding.Flow.SetBio | biography/components/OnboardingFlow.tsx:138-139 | only the bio changes |
| Onboarding.LastStepEnabled | biography/components/OnboardingFlow.tsx:197 | Next is never disabled on the last step |
| Onboarding.CompletedProfileKeepsAnswers | biography/components/OnboardingFlow.tsx:41-48 | with the answers the form insists on, the generated profile keeps the typed name, role, location and chosen theme |

## Left out

- The hosted store: reads, upserts, updates, `contains` and `ilike` are inputs of the handlers (`Fetch`, `CodeLookup`, `NameLookup`, `commitOk`). The text matching the store does for a name search is not modelled.
- Authentication and the session handlers' subscription: the session is a field set by the constructor. `handleLogout` (biography/App.tsx:463-474) is not modelled.
- Local storage: the cached copy is the `cached` input. A copy that fails to parse behaves like no copy, so it is covered by `cached == None`. Writes to local storage are not modelled.
- `Math.random` draws and `Date.now()` ids: these are the `picks` and `freshId` inputs. A fresh id is required not to be in use already.
- Timers: the two-second autosave delay is the explicit `TimerFires` step. The toast, "copied", crafting and barrel-roll timers are not modelled.
- The `loading`, `isSavingOnboarding`, `codeCopied` and `lastSavedTime` flags, toasts' closing, sounds (`playSfx`), animations, party mode and the share and friends modals are not modelled. They decide nothing about the data.
- Class-string tables for themes and cards, and the QR and share URLs, are left out as presentation only. `getFontClass` is the exception and is modelled.
- `handleBlockEdit`, the app's own `handleCopyCode`, `getShareUrl`, the editor's `handleChange`, `setTheme`, `setFont`, `handleRandomTheme`, file uploads and `downloadData` are not modelled. They are simple field setters or browser APIs.
- `JSON.stringify` equality in the autosave test is modelled as structural equality, so key order is ignored.
- JavaScript string lengths count UTF-16 units; the model counts characters. `trim` is modelled on ASCII white space plus the no-break space and the byte-order mark. `toUpperCase` is modelled on ASCII letters.
- AppShell.App.SaveProfile: the source writes the new friend code into the caller's object (biography/App.tsx:237, and 412 for onboarding). The editor's working copy is that object, so it gains the code too. The model returns a new value and leaves the working copy without the code. For a signed-in document with no truthy code, `Receive` then `AutosaveEffect` therefore schedule another save, with a new code each time, where the source stops after one.
- EditorState.Editor.BlockChange: keeps validity only for changes that are not to the id and whose spans are in range. The editor can write any value.
- ProfileView.EachLiveBlockHasOneGrid: excludes the `""` stack, because a stack id of `""` also shows root blocks whose `parentId` is `""`.
- AppShell.App.AddFoundUser: requires a session and a profile, because its only caller checks both first.
- BlockCard.TicTacToe.HandleClick: requires a cell index 0..8, the only cells rendered.
- Onboarding.Flow.SetName: requires step 1, because the name input is rendered only on the first step. The same holds for SetRole on step 1 and for SetLocation and SetBio on step 2.
- ProfileView.KonamiListener: removing and re-adding the listener when the sound setting changes starts a new listener at index 0. This is the constructor.

## Findings

| source | as written | input that shows it | evidently intended | confidence | as-written member | corrected member |
|---|---|---|---|---|---|---|
| biography/App.tsx:70 | the owner's own load calls `fetchProfile(session.user.id)` with no viewer, so `isOwner` at line 198 is false, and a private profile is refused at lines 201-206 (the same call is at line 90) | a signed-in owner whose stored profile has privacy `private` opens the app without a `uid` parameter | the owner always sees their own profile (the comment at line 196 lists "I am the owner") | high; not executed | AppShell.App.OpenOwnProfileAsWritten | AppShell.App.OpenOwnProfile |
