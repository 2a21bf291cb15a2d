/** The friend side of the profile document: friend codes, filling in the
    fields older documents lack, the private-profile gate, the friend list
    and the search-query gate. */
module Friends {
  import opened Types
  import opened Seqs
  import opened Text

  /** The 32 symbols of a friend code: digits 2-9 and the capitals without
      the look-alikes O and I. */
  const Alphabet: string := "23456789ABCDEFGHJKLMNPQRSTUVWXYZ"

  /** A friend code: "ML-" and six symbols of the alphabet. */
  predicate IsFriendCode(s: string)
  {
    |s| == 9 && s[..3] == "ML-" && forall k :: 3 <= k < 9 ==> s[k] in Alphabet
  }

  /** Six draws of `Math.floor(Math.random() * 32)`. */
  predicate ValidPicks(picks: seq<int>)
  {
    |picks| == 6 && forall k :: 0 <= k < 6 ==> 0 <= picks[k] < |Alphabet|
  }

  /** The code a given sequence of draws produces. */
  function CodeFor(picks: seq<int>): (code: string)
    requires ValidPicks(picks)
    ensures IsFriendCode(code)
    ensures forall k :: 0 <= k < 6 ==> code[3 + k] == Alphabet[picks[k]]
  {
    "ML-" + seq(6, k requires 0 <= k < 6 => Alphabet[picks[k]])
  }

  /** `generateFriendCode`: six symbols appended one at a time, then the prefix. */
  method GenerateFriendCode(picks: seq<int>) returns (code: string)
    requires ValidPicks(picks)
    ensures code == CodeFor(picks)
  {
    var result := "";
    for i := 0 to 6
      invariant |result| == i
      invariant forall k :: 0 <= k < i ==> result[k] == Alphabet[picks[k]]
    {
      result := result + [Alphabet[picks[i]]];
    }
    code := "ML-" + result;
  }

  /** No friend code holds a 0, O, 1 or I after its prefix. */
  lemma FriendCodeAvoidsLookalikes(s: string)
    requires IsFriendCode(s)
    ensures forall k :: 3 <= k < 9 ==> s[k] != '0' && s[k] != 'O' && s[k] != '1' && s[k] != 'I'
  {
    forall k | 3 <= k < 9 ensures s[k] != '0' && s[k] != 'O' && s[k] != '1' && s[k] != 'I' {
      assert s[k] in Alphabet;
    }
  }

  /** The alphabet is listed in ascending order, from '2' to 'Z'. */
  lemma AlphabetAdjacent()
    ensures |Alphabet| == 32 && Alphabet[0] == '2' && Alphabet[31] == 'Z'
    ensures forall i :: 0 <= i < 31 ==> Alphabet[i] < Alphabet[i + 1]
  {
  }

  lemma {:induction false} AlphabetAscending(i: int, j: int)
    requires 0 <= i < j < |Alphabet|
    ensures Alphabet[i] < Alphabet[j]
    decreases j - i
  {
    AlphabetAdjacent();
    if j > i + 1 {
      AlphabetAscending(i + 1, j);
    }
  }

  /** Every symbol of the alphabet lies between '2' and 'Z'. */
  lemma AlphabetRange(c: char)
    requires c in Alphabet
    ensures '2' <= c <= 'Z'
  {
    AlphabetAdjacent();
    var k :| 0 <= k < |Alphabet| && Alphabet[k] == c;
    if 0 < k { AlphabetAscending(0, k); }
    if k < 31 { AlphabetAscending(k, 31); }
  }

  /** A symbol sits at one position of the alphabet only. */
  lemma AlphabetInjective(i: int, j: int)
    requires 0 <= i < |Alphabet| && 0 <= j < |Alphabet|
    ensures Alphabet[i] == Alphabet[j] ==> i == j
  {
    if i < j { AlphabetAscending(i, j); }
    if j < i { AlphabetAscending(j, i); }
  }

  /** Distinct draws give distinct codes: the alphabet has no repeated symbol. */
  lemma CodeForInjective(p: seq<int>, q: seq<int>)
    requires ValidPicks(p) && ValidPicks(q) && CodeFor(p) == CodeFor(q)
    ensures p == q
  {
    forall k | 0 <= k < 6 ensures p[k] == q[k] {
      assert CodeFor(p)[3 + k] == CodeFor(q)[3 + k];
      AlphabetInjective(p[k], q[k]);
    }
  }

  /** The document fields an older version may have left out. */
  predicate Incomplete(doc: StoredProfile)
  {
    doc.savedProfiles.None? || !Truthy(doc.friendCode) || doc.privacy.None?
  }

  /** A complete document, written back to the store. */
  function Stored(p: ProfileData): StoredProfile
  {
    StoredProfile(p.name, p.role, p.location, p.avatarUrl, p.bannerUrl, p.font, p.theme,
                  Some(p.privacy), p.blocks, Some(p.savedProfiles), p.friendCode)
  }

  /** The document once its missing fields are filled in with the given draws. */
  function Fill(doc: StoredProfile, picks: seq<int>): (r: ProfileData)
    requires ValidPicks(picks)
    ensures Truthy(r.friendCode) && (r.friendCode == doc.friendCode || IsFriendCode(r.friendCode.value))
    ensures doc.savedProfiles.Some? ==> r.savedProfiles == doc.savedProfiles.value
    ensures doc.savedProfiles.None? ==> r.savedProfiles == []
    ensures Truthy(doc.friendCode) ==> r.friendCode == doc.friendCode
    ensures doc.privacy.Some? ==> r.privacy == doc.privacy.value
    ensures doc.privacy.None? ==> r.privacy == PublicProfile
    ensures r.name == doc.name && r.role == doc.role && r.location == doc.location
    ensures r.avatarUrl == doc.avatarUrl && r.bannerUrl == doc.bannerUrl && r.font == doc.font
    ensures r.theme == doc.theme && r.blocks == doc.blocks
  {
    ProfileData(doc.name, doc.role, doc.location, doc.avatarUrl, doc.bannerUrl, doc.font, doc.theme,
                if doc.privacy.Some? then doc.privacy.value else PublicProfile,
                doc.blocks,
                if doc.savedProfiles.Some? then doc.savedProfiles.value else [],
                if Truthy(doc.friendCode) then doc.friendCode else Some(CodeFor(picks)))
  }

  /** Filling in changes the document exactly when a field was missing, and
      a complete document read back is the one that was written. */
  lemma FillChangesOnlyIncomplete(doc: StoredProfile, picks: seq<int>)
    requires ValidPicks(picks)
    ensures Stored(Fill(doc, picks)) == doc <==> !Incomplete(doc)
  {
  }

  lemma FillStoredRoundTrip(p: ProfileData, picks: seq<int>)
    requires ValidPicks(picks) && Truthy(p.friendCode)
    ensures Fill(Stored(p), picks) == p
  {
  }

  /** The defaults in `fetchCurrentUser` and `fetchProfile`: each missing field
      is filled in place, and `needsUpdate` records that one was. */
  method Backfill(doc: StoredProfile, picks: seq<int>) returns (r: ProfileData, needsUpdate: bool)
    requires ValidPicks(picks)
    ensures r == Fill(doc, picks)
    ensures needsUpdate <==> Incomplete(doc)
  {
    needsUpdate := false;
    var saved := doc.savedProfiles;
    if saved.None? {
      saved := Some([]);
      needsUpdate := true;
    }
    var code := doc.friendCode;
    if !Truthy(code) {
      var generated := GenerateFriendCode(picks);
      code := Some(generated);
      needsUpdate := true;
    }
    var privacy := doc.privacy;
    if privacy.None? {
      privacy := Some(PublicProfile);
      needsUpdate := true;
    }
    r := ProfileData(doc.name, doc.role, doc.location, doc.avatarUrl, doc.bannerUrl, doc.font,
                     doc.theme, privacy.value, doc.blocks, saved.value, code);
  }

  /** `savedProfiles.some(p => p.id === id)` */
  function HasFriend(friends: seq<SavedProfile>, id: string): (b: bool)
    ensures b <==> id in FriendIds(friends)
    decreases |friends|
  {
    if friends == [] then false
    else if friends[0].id == id then true
    else
      assert FriendIds(friends) == {friends[0].id} + FriendIds(friends[1..]) by {
        forall k ensures k in FriendIds(friends) <==> k in {friends[0].id} + FriendIds(friends[1..]) {
          if k in FriendIds(friends) {
            var i :| 0 <= i < |friends| && friends[i].id == k;
            if i > 0 { assert friends[1..][i - 1].id == k; }
          }
          if k in FriendIds(friends[1..]) {
            var i :| 0 <= i < |friends[1..]| && friends[1..][i].id == k;
            assert friends[i + 1].id == k;
          }
        }
      }
      HasFriend(friends[1..], id)
  }

  /** The viewer is a friend: a truthy viewer id found in the friend list. */
  predicate IsFriend(doc: ProfileData, viewer: Option<string>)
  {
    Truthy(viewer) && HasFriend(doc.savedProfiles, viewer.value)
  }

  /** The private-profile gate of `fetchProfile`. */
  predicate AccessDenied(doc: ProfileData, viewer: Option<string>, target: string)
  {
    doc.privacy == PrivateProfile && viewer != Some(target) && !IsFriend(doc, viewer)
  }

  /** The gate refuses a viewer exactly when the profile is private and the
      viewer is neither its owner nor in its friend list. */
  lemma AccessRule(doc: ProfileData, viewer: Option<string>, target: string)
    ensures AccessDenied(doc, viewer, target) <==>
            doc.privacy == PrivateProfile && viewer != Some(target) &&
            !(viewer.Some? && viewer.value != "" && viewer.value in FriendIds(doc.savedProfiles))
    ensures doc.privacy == PublicProfile ==> !AccessDenied(doc, viewer, target)
    ensures !AccessDenied(doc, Some(target), target)
  {
  }

  /** Without a viewer nobody is a friend: a private profile is refused to
      every anonymous load, whatever its friend list holds. */
  lemma NoViewerIsNoFriend(doc: ProfileData, target: string)
    ensures !IsFriend(doc, None)
    ensures AccessDenied(doc, None, target) <==> doc.privacy == PrivateProfile
  {
  }

  /** A friend list with every id once. */
  predicate UniqueFriends(friends: seq<SavedProfile>)
  {
    forall i, j :: 0 <= i < |friends| && 0 <= j < |friends| && friends[i].id == friends[j].id ==> i == j
  }

  /** `{ id, name, avatarUrl, role }` taken from a profile document. */
  function Snapshot(id: string, name: string, avatarUrl: string, role: string): SavedProfile
  {
    SavedProfile(id, name, avatarUrl, role)
  }

  datatype AddOutcome = IsSelf | AlreadyFriend | Added(friends: seq<SavedProfile>)

  /** The checks of `addFoundUser` and `handleAddViewedProfile` before the
      snapshot is appended. */
  function AddFriend(self: Option<string>, friends: seq<SavedProfile>, entry: SavedProfile): (r: AddOutcome)
    ensures r == IsSelf <==> self == Some(entry.id)
    ensures r == AlreadyFriend <==> self != Some(entry.id) && entry.id in FriendIds(friends)
    ensures r.Added? ==> |r.friends| == |friends| + 1 && r.friends[..|friends|] == friends
                         && r.friends[|friends|] == entry
  {
    if self == Some(entry.id) then IsSelf
    else if HasFriend(friends, entry.id) then AlreadyFriend
    else Added(friends + [entry])
  }

  /** An accepted add keeps the list free of duplicates and grows its ids by one. */
  lemma AddKeepsFriendsUnique(self: Option<string>, friends: seq<SavedProfile>, entry: SavedProfile)
    requires UniqueFriends(friends) && AddFriend(self, friends, entry).Added?
    ensures UniqueFriends(AddFriend(self, friends, entry).friends)
    ensures FriendIds(AddFriend(self, friends, entry).friends) == FriendIds(friends) + {entry.id}
  {
    var r := friends + [entry];
    assert entry.id !in FriendIds(friends);
    assert forall i :: 0 <= i < |friends| ==> friends[i].id != entry.id by {
      forall i | 0 <= i < |friends| ensures friends[i].id != entry.id {
        assert friends[i].id in FriendIds(friends);
      }
    }
    forall k ensures k in FriendIds(r) <==> k in FriendIds(friends) + {entry.id} {
      if k in FriendIds(r) { var i :| 0 <= i < |r| && r[i].id == k; }
      if k in FriendIds(friends) { var i :| 0 <= i < |friends| && friends[i].id == k; assert r[i].id == k; }
      if k == entry.id { assert r[|friends|].id == k; }
    }
  }

  /** `savedProfiles.filter(p => p.id !== friendId)` */
  function RemoveFriend(friends: seq<SavedProfile>, friendId: string): (r: seq<SavedProfile>)
    ensures IsSubseq(r, friends)
    ensures friendId !in FriendIds(r)
    ensures forall p :: p in r <==> p in friends && p.id != friendId
    ensures forall p :: multiset(r)[p] == if p.id != friendId then multiset(friends)[p] else 0
    ensures friendId !in FriendIds(friends) ==> r == friends
  {
    var keep := (p: SavedProfile) => p.id != friendId;
    var r := Filter(friends, keep);
    assert forall i :: 0 <= i < |r| ==> r[i].id != friendId;
    assert forall p :: multiset(r)[p] == if p.id != friendId then multiset(friends)[p] else 0 by {
      forall p ensures multiset(r)[p] == if p.id != friendId then multiset(friends)[p] else 0 {
        FilterCount(friends, keep, p);
      }
    }
    assert friendId !in FriendIds(friends) ==> r == friends by {
      if friendId !in FriendIds(friends) {
        forall i | 0 <= i < |friends| ensures friends[i].id != friendId {
          assert friends[i].id in FriendIds(friends);
        }
      }
    }
    r
  }

  /** Removing the friend just added gives back the list from before. */
  lemma RemoveUndoesAdd(self: Option<string>, friends: seq<SavedProfile>, entry: SavedProfile)
    requires AddFriend(self, friends, entry).Added?
    ensures RemoveFriend(AddFriend(self, friends, entry).friends, entry.id) == friends
  {
    var p := (x: SavedProfile) => x.id != entry.id;
    FilterAppend(friends, entry, p);
    assert Filter(friends, p) == friends by {
      forall i | 0 <= i < |friends| ensures p(friends[i]) {
        assert friends[i].id in FriendIds(friends);
      }
    }
  }

  /** What `handleSearchUsers` does before any lookup. */
  datatype SearchGate = Refused(message: string) | Lookup(cleanQuery: string, codeKey: string)

  /** Sign-in and length checks on the query; the code lookup key is the
      trimmed query upper-cased. */
  function GateQuery(signedIn: bool, query: string): (g: SearchGate)
    ensures !signedIn ==> g == Refused("Please sign in.")
    ensures signedIn && |Trim(query)| < 3 ==> g == Refused("Search too short.")
    ensures signedIn && |Trim(query)| >= 3 ==> g.Lookup? && g.cleanQuery == Trim(query)
    ensures g.Lookup? ==> signedIn && |g.cleanQuery| >= 3 && g.cleanQuery == Trim(query)
    ensures g.Lookup? ==> |g.codeKey| == |g.cleanQuery| &&
                          forall k :: 0 <= k < |g.codeKey| ==> g.codeKey[k] == UpperChar(g.cleanQuery[k])
  {
    if !signedIn then Refused("Please sign in.")
    else
      var clean := Trim(query);
      if |clean| < 3 then Refused("Search too short.")
      else Lookup(clean, ToUpper(clean))
  }

  /** A query of only white space never reaches a lookup, and neither does
      padding around a short query. */
  lemma BlankQueryRefused(signedIn: bool, query: string)
    requires forall k :: 0 <= k < |query| ==> IsSpace(query[k])
    ensures GateQuery(signedIn, query).Refused?
  {
  }

  /** Blanks before text that starts with a non-blank are all trimmed away. */
  lemma {:induction false} TrimStartPadded(pad: string, x: string)
    requires forall k :: 0 <= k < |pad| ==> IsSpace(pad[k])
    requires x != [] && !IsSpace(x[0])
    ensures TrimStart(pad + x) == x
    decreases |pad|
  {
    if pad == [] {
      assert pad + x == x;
    } else {
      var s := pad + x;
      assert s[0] == pad[0] && IsSpace(s[0]);
      assert s[1..] == pad[1..] + x;
      var tail := pad[1..];
      assert forall k :: 0 <= k < |tail| ==> IsSpace(tail[k]) by {
        forall k | 0 <= k < |tail| ensures IsSpace(tail[k]) { assert tail[k] == pad[k + 1]; }
      }
      TrimStartPadded(tail, x);
    }
  }

  /** Blanks after text that ends with a non-blank are all trimmed away. */
  lemma {:induction false} TrimEndPadded(x: string, pad: string)
    requires forall k :: 0 <= k < |pad| ==> IsSpace(pad[k])
    requires x != [] && !IsSpace(x[|x| - 1])
    ensures TrimEnd(x + pad) == x
    decreases |pad|
  {
    if pad == [] {
      assert x + pad == x;
    } else {
      var s := x + pad;
      assert s[|s| - 1] == pad[|pad| - 1] && IsSpace(s[|s| - 1]);
      var init := pad[..|pad| - 1];
      assert s[..|s| - 1] == x + init;
      assert forall k :: 0 <= k < |init| ==> IsSpace(init[k]) by {
        forall k | 0 <= k < |init| ensures IsSpace(init[k]) { assert init[k] == pad[k]; }
      }
      TrimEndPadded(x, init);
    }
  }

  /** Trimming blanks around text with non-blank ends gives the text back. */
  lemma TrimPadded(pad: string, x: string)
    requires forall k :: 0 <= k < |pad| ==> IsSpace(pad[k])
    requires x != [] && !IsSpace(x[0]) && !IsSpace(x[|x| - 1])
    ensures Trim(pad + x + pad) == x
  {
    assert pad + x + pad == pad + (x + pad);
    assert (x + pad)[0] == x[0];
    TrimStartPadded(pad, x + pad);
    TrimEndPadded(x, pad);
  }

  /** Friend codes are already upper case. */
  lemma FriendCodeIsUpper(code: string)
    requires IsFriendCode(code)
    ensures ToUpper(code) == code
  {
    FriendCodePrefix(code);
    forall k | 3 <= k < 9 ensures UpperChar(code[k]) == code[k] {
      AlphabetRange(code[k]);
    }
    assert forall k :: 0 <= k < |code| ==> ToUpper(code)[k] == code[k];
  }

  /** The first three symbols of a friend code are `M`, `L` and `-`. */
  lemma FriendCodePrefix(code: string)
    requires IsFriendCode(code)
    ensures code[0] == 'M' && code[1] == 'L' && code[2] == '-'
  {
    assert code[0] == code[..3][0] && code[1] == code[..3][1] && code[2] == code[..3][2];
  }

  /** A friend code typed with surrounding blanks still yields the code
      itself as the lookup key. */
  lemma CodeQueryFindsCode(code: string, pad: string)
    requires IsFriendCode(code)
    requires forall k :: 0 <= k < |pad| ==> IsSpace(pad[k])
    ensures var g := GateQuery(true, pad + code + pad);
            g.Lookup? && g.codeKey == code
  {
    FriendCodeEnds(code);
    TrimPadded(pad, code);
    FriendCodeIsUpper(code);
    assert GateQuery(true, pad + code + pad) == Lookup(code, ToUpper(code));
  }

  /** A friend code neither starts nor ends with a blank. */
  lemma FriendCodeEnds(code: string)
    requires IsFriendCode(code)
    ensures !IsSpace(code[0]) && !IsSpace(code[8])
  {
    FriendCodePrefix(code);
    AlphabetRange(code[8]);
  }
}
