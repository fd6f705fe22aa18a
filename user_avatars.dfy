/**
 * The user adapter's avatar operations: setting the two avatar links, adding an avatar
 * set to a user's bounded avatar library (oldest entries dropped first), and removing an
 * avatar set.
 *
 * Users are looked up in `users` by lower-cased username; the library size allowed for
 * the user is a parameter.
 */
module UserAvatars {
  import opened Common

  type AvatarSetId = int

  /** An uploaded avatar set: its id and the links to its resistance and spy images. */
  datatype AvatarSet = AvatarSet(avatarSetId: AvatarSetId, resLink: string, spyLink: string)

  /** The avatar fields of a stored user. */
  class User {
    var avatarImgRes: Option<string>
    var avatarImgSpy: Option<string>
    var avatarLibrary: seq<AvatarSetId>

    constructor (avatarImgRes: Option<string>, avatarImgSpy: Option<string>, avatarLibrary: seq<AvatarSetId>)
      ensures this.avatarImgRes == avatarImgRes && this.avatarImgSpy == avatarImgSpy
      ensures this.avatarLibrary == avatarLibrary
    {
      this.avatarImgRes := avatarImgRes;
      this.avatarImgSpy := avatarImgSpy;
      this.avatarLibrary := avatarLibrary;
    }
  }

  /** The last `n` elements of `s` (all of `s` when it is shorter). */
  function LastN(s: seq<AvatarSetId>, n: nat): (r: seq<AvatarSetId>)
    ensures |r| == if |s| < n then |s| else n
    ensures r == s[|s| - |r|..]
  {
    if |s| <= n then s else s[|s| - n..]
  }

  /**
   * The library after adding `id` with room for `librarySize` entries: the newest entries
   * of the old library, oldest dropped first, followed by `id` when there is room for it.
   */
  lemma LibraryAfterAdd(library: seq<AvatarSetId>, id: AvatarSetId, librarySize: nat)
    ensures var r := LastN(library + [id], librarySize);
            && |r| == (if |library| + 1 < librarySize then |library| + 1 else librarySize)
            && (librarySize >= 1 ==> r == library[|library| + 1 - |r|..] + [id])
            && (librarySize >= 1 ==> r[|r| - 1] == id)
  {
    var r := LastN(library + [id], librarySize);
    if librarySize >= 1 {
      assert r == (library + [id])[|library| + 1 - |r|..];
      assert (library + [id])[|library| + 1 - |r|..] == library[|library| + 1 - |r|..] + [id];
    }
  }

  /** `s` without any occurrence of `id`, the remaining ids in their order (`filter`). */
  function Without(s: seq<AvatarSetId>, id: AvatarSetId): (r: seq<AvatarSetId>)
    ensures id !in r
    ensures |r| <= |s|
  {
    if s == [] then []
    else if s[0] == id then Without(s[1..], id)
    else [s[0]] + Without(s[1..], id)
  }

  /** Removal leaves no occurrence of `id` and every other id as often as before. */
  lemma {:induction false} WithoutRemovesExactlyId(s: seq<AvatarSetId>, id: AvatarSetId)
    ensures id !in Without(s, id)
    ensures multiset(Without(s, id)) == multiset(s)[id := 0]
  {
    if s != [] {
      WithoutRemovesExactlyId(s[1..], id);
      assert s == [s[0]] + s[1..];
      assert multiset(s) == multiset([s[0]]) + multiset(s[1..]);
    }
  }

  /**
   * Removal keeps the remaining ids in their relative order: the result is the library
   * with some entries left out, repeated ids included.
   */
  lemma {:induction false} WithoutKeepsOrder(s: seq<AvatarSetId>, id: AvatarSetId)
    ensures IsSubsequence(Without(s, id), s)
  {
    if s != [] {
      WithoutKeepsOrder(s[1..], id);
      if s[0] != id {
        var w := Without(s, id);
        assert w == [s[0]] + Without(s[1..], id);
        assert w[1..] == Without(s[1..], id);
      }
    }
  }

  /** The concrete case with repeated ids: filtering an absent id keeps `[1, 2, 1]` as it is. */
  lemma RemovalKeepsRepeatedIds()
    ensures Without([1, 2, 1], 3) == [1, 2, 1]
    ensures Without([1, 2, 1], 1) == [2]
  {
    assert [1, 2, 1][1..] == [2, 1] && [2, 1][1..] == [1] && [1][1..] == [];
  }

  /** A current link is cleared exactly when it is the removed set's link. */
  function ClearedIfRemoved(current: Option<string>, removed: string): (r: Option<string>)
    ensures current == Some(removed) ==> r.None?
    ensures current != Some(removed) ==> r == current
  {
    if current == Some(removed) then None else current
  }

  class MongoUserAdapter {
    var users: map<string, User>

    constructor (users: map<string, User>)
      ensures this.users == users
    {
      this.users := users;
    }

    /** `setAvatarLinks`: set both links; the library is not touched. */
    method SetAvatarLinks(usernameLower: string, resLink: string, spyLink: string)
      requires usernameLower in users
      modifies users[usernameLower]
      ensures var user := users[usernameLower];
              && user.avatarImgRes == Some(resLink) && user.avatarImgSpy == Some(spyLink)
              && user.avatarLibrary == old(user.avatarLibrary)
    {
      var user := users[usernameLower];
      user.avatarImgRes := Some(resLink);
      user.avatarImgSpy := Some(spyLink);
    }

    /**
     * `setAvatarAndUpdateLibrary`: make the set the current avatar, push its id onto the
     * library, then shift the oldest ids off while the library exceeds `librarySize`.
     */
    method SetAvatarAndUpdateLibrary(usernameLower: string, avatarSet: AvatarSet, librarySize: nat)
      requires usernameLower in users
      modifies users[usernameLower]
      ensures var user := users[usernameLower];
              && user.avatarImgRes == Some(avatarSet.resLink) && user.avatarImgSpy == Some(avatarSet.spyLink)
              && user.avatarLibrary == LastN(old(user.avatarLibrary) + [avatarSet.avatarSetId], librarySize)
    {
      var user := users[usernameLower];
      user.avatarImgRes := Some(avatarSet.resLink);
      user.avatarImgSpy := Some(avatarSet.spyLink);
      user.avatarLibrary := user.avatarLibrary + [avatarSet.avatarSetId];

      ghost var pushed := user.avatarLibrary;
      while |user.avatarLibrary| > librarySize
        invariant user.avatarImgRes == Some(avatarSet.resLink) && user.avatarImgSpy == Some(avatarSet.spyLink)
        invariant |user.avatarLibrary| >= librarySize || user.avatarLibrary == pushed
        invariant user.avatarLibrary == pushed[|pushed| - |user.avatarLibrary|..]
        decreases |user.avatarLibrary|
      {
        user.avatarLibrary := user.avatarLibrary[1..];    // shift
      }
    }

    /**
     * `removeAvatar`: filter the set's id out of the library, and clear each current link
     * that is the set's own.
     */
    method RemoveAvatar(usernameLower: string, avatarSet: AvatarSet)
      requires usernameLower in users
      modifies users[usernameLower]
      ensures var user := users[usernameLower];
              && user.avatarLibrary == Without(old(user.avatarLibrary), avatarSet.avatarSetId)
              && user.avatarImgRes == ClearedIfRemoved(old(user.avatarImgRes), avatarSet.resLink)
              && user.avatarImgSpy == ClearedIfRemoved(old(user.avatarImgSpy), avatarSet.spyLink)
    {
      var user := users[usernameLower];
      user.avatarLibrary := Without(user.avatarLibrary, avatarSet.avatarSetId);
      if user.avatarImgRes == Some(avatarSet.resLink) {
        user.avatarImgRes := None;
      }
      if user.avatarImgSpy == Some(avatarSet.spyLink) {
        user.avatarImgSpy := None;
      }
    }
  }
}
