/** The public profile page: which blocks the grid shows, where Back leads,
    which cards are locked, the font class, the code the copy button copies,
    the add-friend form's guard and the Konami easter egg. */
module ProfileView {
  import opened Types
  import opened Text
  import opened BlockOps
  import Friends
  import BlockCard

  /** The stack whose grid shows block `b`: the root for a block with a
      falsy parent, else its parent. */
  function HomeStack(b: BlockItem): Option<string>
  {
    if Truthy(b.parentId) then b.parentId else None
  }

  /** The grid (`currentBlocks`, the same test as the editor's list) shows a
      live block in its home stack, and a named stack other than "" shows
      only blocks whose home it is: every live block has exactly one grid. */
  lemma {:induction false} EachLiveBlockHasOneGrid(blocks: seq<BlockItem>, x: BlockItem, stack: Option<string>)
    requires x in blocks && !IsArchived(x)
    ensures x in AtStack(blocks, HomeStack(x))
    ensures x in AtStack(blocks, stack) && stack != Some("") ==> stack == HomeStack(x)
  {
  }

  /** `data.blocks.find(b => b.id === id)`: the first block with that id. */
  function Find(blocks: seq<BlockItem>, id: string): (r: Option<BlockItem>)
    ensures r.None? <==> id !in Ids(blocks)
    ensures r.Some? ==> r.value in blocks && r.value.id == id
    ensures r.Some? ==> exists k :: 0 <= k < |blocks| && blocks[k] == r.value &&
                                    forall j :: 0 <= j < k ==> blocks[j].id != id
  {
    match FirstWithId(blocks, id, 0)
    case None => None
    case Some(k) => Some(blocks[k])
  }

  /** The position of the first block with the id at or after `i`. */
  function FirstWithId(blocks: seq<BlockItem>, id: string, i: nat): (r: Option<nat>)
    requires i <= |blocks|
    ensures r.None? <==> forall j :: i <= j < |blocks| ==> blocks[j].id != id
    ensures r.Some? ==> i <= r.value < |blocks| && blocks[r.value].id == id &&
                        forall j :: i <= j < r.value ==> blocks[j].id != id
    decreases |blocks| - i
  {
    if i == |blocks| then None
    else if blocks[i].id == id then Some(i)
    else FirstWithId(blocks, id, i + 1)
  }

  /** `parentStackId`, the stack Back leads to: the open stack block's
      parent, or the root when no stack is open, the block is not found or
      it has no parent. */
  function ParentStackId(blocks: seq<BlockItem>, activeStackId: Option<string>): (r: Option<string>)
    ensures !Truthy(activeStackId) ==> r.None?
    ensures Truthy(activeStackId) && activeStackId.value !in Ids(blocks) ==> r.None?
    ensures r.Some? ==> r.value != ""
  {
    if !Truthy(activeStackId) then None
    else
      match Find(blocks, activeStackId.value)
      case None => None
      case Some(b) => HomeStack(b)
  }

  /** Back from a stack leads to the grid that shows that stack's card,
      when ids are unique and the card is live. */
  lemma BackShowsStackCard(blocks: seq<BlockItem>, s: BlockItem)
    requires UniqueIds(blocks) && s in blocks && !IsArchived(s) && s.id != ""
    ensures s in AtStack(blocks, ParentStackId(blocks, Some(s.id)))
  {
    var f := Find(blocks, s.id);
    assert s.id in Ids(blocks);
    var k :| 0 <= k < |blocks| && blocks[k] == f.value && forall j :: 0 <= j < k ==> blocks[j].id != s.id;
    var m :| 0 <= m < |blocks| && blocks[m] == s;
    assert k == m;
    EachLiveBlockHasOneGrid(blocks, s, None);
  }

  /** `isLocked`: a member-only card for a viewer who is neither signed in
      nor the owner. */
  predicate IsLocked(b: BlockItem, isLoggedIn: bool, isOwner: bool)
  {
    b.visibility == Some(Member) && !isLoggedIn && !isOwner
  }

  /** Signed-in viewers and the owner see the content of every active card;
      an anonymous viewer sees a member-only card as a placeholder and a
      public card as content. */
  lemma LockRule(b: BlockItem, isLoggedIn: bool, isOwner: bool)
    requires b.active
    ensures isLoggedIn || isOwner ==> BlockCard.RenderOf(b, IsLocked(b, isLoggedIn, isOwner)) == BlockCard.Content
    ensures BlockCard.RenderOf(b, IsLocked(b, isLoggedIn, isOwner)) == BlockCard.LockedPlaceholder
            <==> b.visibility == Some(Member) && !isLoggedIn && !isOwner
  {
  }

  /** `getFontClass` */
  function FontClass(f: Option<Font>): (r: string)
    ensures r == "font-serif" <==> f == Some(Serif)
    ensures r == "font-mono" <==> f == Some(Mono)
    ensures r == "font-sans" <==> f == None || f == Some(Sans)
  {
    match f
    case Some(Serif) => "font-serif"
    case Some(Mono) => "font-mono"
    case _ => "font-sans"
  }

  /** `handleCopyCode`: the friend code, else the user id, else nothing to copy. */
  function CodeToCopy(friendCode: Option<string>, userId: Option<string>): (r: Option<string>)
    ensures r.Some? ==> r.value != []
    ensures Truthy(friendCode) ==> r == friendCode
    ensures !Truthy(friendCode) && Truthy(userId) ==> r == userId
    ensures r.None? <==> !Truthy(friendCode) && !Truthy(userId)
  {
    if Truthy(friendCode) then friendCode
    else if Truthy(userId) then userId
    else None
  }

  /** `handleAddFriendSubmit`'s guard: the trimmed input is sent only when
      it is non-blank and a handler is attached. */
  function SubmitQuery(input: string, hasHandler: bool): (r: Option<string>)
    ensures r.Some? <==> hasHandler && exists k :: 0 <= k < |input| && !IsSpace(input[k])
    ensures r.Some? ==> r.value == Trim(input) && r.value != []
  {
    if Trim(input) == [] || !hasHandler then None else Some(Trim(input))
  }

  /** Trimming twice is trimming once. */
  lemma TrimTwice(s: string)
    ensures Trim(Trim(s)) == Trim(s)
  {
    var r := Trim(s);
    assert TrimStart(r) == r;
    assert TrimEnd(r) == r;
  }

  /** The search behind the form sees the same query as the raw input: the
      view's own trim changes nothing the search's trim would not. */
  lemma SubmitKeepsSearch(input: string, signedIn: bool)
    requires SubmitQuery(input, true).Some?
    ensures Friends.GateQuery(signedIn, SubmitQuery(input, true).value) == Friends.GateQuery(signedIn, input)
  {
    TrimTwice(input);
  }

  // ---- Konami easter egg ----

  const KonamiCode: seq<string> :=
    ["ArrowUp", "ArrowUp", "ArrowDown", "ArrowDown", "ArrowLeft", "ArrowRight", "ArrowLeft", "ArrowRight", "b", "a"]

  /** One key press at position `i`: the expected key advances (and the
      tenth fires and resets), any other key resets without being
      re-tested as a first key. */
  function Step(i: nat, key: string): (r: (nat, bool))
    requires i < |KonamiCode|
    ensures r.0 < |KonamiCode|
    ensures r.1 <==> i == |KonamiCode| - 1 && key == KonamiCode[i]
    ensures key != KonamiCode[i] ==> r == (0, false)
  {
    if key == KonamiCode[i] then
      if i + 1 == |KonamiCode| then (0, true) else (i + 1, false)
    else (0, false)
  }

  /** The position after a run of keys from the start. */
  function Run(keys: seq<string>): (i: nat)
    ensures i < |KonamiCode|
    decreases |keys|
  {
    if keys == [] then 0 else Step(Run(keys[..|keys| - 1]), keys[|keys| - 1]).0
  }

  /** The keys typed so far end with the first `Run(keys)` keys of the code. */
  lemma {:induction false} RunMatchesSuffix(keys: seq<string>)
    ensures |keys| >= Run(keys) && keys[|keys| - Run(keys)..] == KonamiCode[..Run(keys)]
    decreases |keys|
  {
    if keys != [] {
      var init := keys[..|keys| - 1];
      var key := keys[|keys| - 1];
      RunMatchesSuffix(init);
      var i := Run(init);
      if key == KonamiCode[i] && i + 1 < |KonamiCode| {
        assert keys == init + [key];
        assert keys[|keys| - (i + 1)..] == init[|init| - i..] + [key];
        assert KonamiCode[..i + 1] == KonamiCode[..i] + [KonamiCode[i]];
      }
    }
  }

  /** When the egg fires, the last ten keys were the code. */
  lemma FiresOnCode(keys: seq<string>, key: string)
    requires Step(Run(keys), key).1
    ensures |keys + [key]| >= |KonamiCode| && (keys + [key])[|keys| + 1 - |KonamiCode|..] == KonamiCode
  {
    RunMatchesSuffix(keys);
    var s := keys + [key];
    assert s[|s| - |KonamiCode|..] == keys[|keys| - 9..] + [key];
  }

  /** Typing the code from the start fires on its last key. */
  lemma CodeFires()
    ensures Run(KonamiCode[..9]) == 9 && Step(9, "a") == (0, true)
  {
    var c := KonamiCode;
    assert Run(c[..0]) == 0;
    assert c[..1][..0] == c[..0];
    assert Run(c[..1]) == 1;
    assert c[..2][..1] == c[..1];
    assert Run(c[..2]) == 2;
    assert c[..3][..2] == c[..2];
    assert Run(c[..3]) == 3;
    assert c[..4][..3] == c[..3];
    assert Run(c[..4]) == 4;
    assert c[..5][..4] == c[..4];
    assert Run(c[..5]) == 5;
    assert c[..6][..5] == c[..5];
    assert Run(c[..6]) == 6;
    assert c[..7][..6] == c[..6];
    assert Run(c[..7]) == 7;
    assert c[..8][..7] == c[..7];
    assert Run(c[..8]) == 8;
    assert c[..9][..8] == c[..8];
  }

  /** A mismatching key is not re-tested as a first key, so typing one extra
      "ArrowUp" before the code never fires, although the last ten keys are
      the code. */
  lemma ExtraUpMissesCode()
    ensures var k := ["ArrowUp"] + KonamiCode;
            k[1..] == KonamiCode && Run(k[..10]) == 0 && !Step(Run(k[..10]), k[10]).1
  {
    var k := ["ArrowUp"] + KonamiCode;
    assert Run(k[..0]) == 0;
    assert k[..1][..0] == k[..0];
    assert Run(k[..1]) == 1;
    assert k[..2][..1] == k[..1];
    assert Run(k[..2]) == 2;
    assert k[..3][..2] == k[..2];
    assert Run(k[..3]) == 0;
    assert k[..4][..3] == k[..3];
    assert Run(k[..4]) == 0;
    assert k[..5][..4] == k[..4];
    assert Run(k[..5]) == 0;
    assert k[..6][..5] == k[..5];
    assert Run(k[..6]) == 0;
    assert k[..7][..6] == k[..6];
    assert Run(k[..7]) == 0;
    assert k[..8][..7] == k[..7];
    assert Run(k[..8]) == 0;
    assert k[..9][..8] == k[..8];
    assert Run(k[..9]) == 0;
    assert k[..10][..9] == k[..9];
    assert Run(k[..10]) == 0;
  }

  /** The listener keeps the position in a variable its handler updates. */
  class KonamiListener {
    var index: nat
    /** The keys seen since the listener was attached. */
    ghost var typed: seq<string>

    ghost predicate Valid()
      reads this
    {
      index == Run(typed)
    }

    constructor()
      ensures index == 0 && typed == [] && Valid()
    {
      index := 0;
      typed := [];
    }

    /** The key handler; `fired` is the barrel roll starting. */
    method Handle(key: string) returns (fired: bool)
      requires Valid()
      modifies this
      ensures Valid() && typed == old(typed) + [key] && index < |KonamiCode|
      ensures (index, fired) == Step(old(index), key)
      ensures fired ==> |typed| >= |KonamiCode| && typed[|typed| - |KonamiCode|..] == KonamiCode
    {
      fired := false;
      if key == KonamiCode[index] {
        index := index + 1;
        if index == |KonamiCode| {
          fired := true;
          index := 0;
        }
      } else {
        index := 0;
      }
      ghost var before := typed;
      typed := typed + [key];
      assert typed[..|typed| - 1] == before;
      if fired {
        FiresOnCode(before, key);
      }
    }
  }
}
