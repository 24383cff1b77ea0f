/** The profile page: the follow button and its toast, which button the
    header shows, and how the website link is displayed. */
module ProfilePage {
  import opened Js

  /** `website.replace(/^https?:\/\//, '')`: one leading `http://` or
      `https://` is removed. */
  function StripScheme(w: string): (r: string)
    ensures |r| <= |w| && r == w[|w| - |r|..]
  {
    if IsPrefix("http://", w) then w[7..]
    else if IsPrefix("https://", w) then w[8..]
    else w
  }

  /** Exactly one scheme prefix goes, whatever follows it, and a string
      without one is shown as it is. */
  lemma StripSchemeSpec(rest: string, w: string)
    ensures StripScheme("http://" + rest) == rest
    ensures StripScheme("https://" + rest) == rest
    ensures !IsPrefix("http://", w) && !IsPrefix("https://", w) ==> StripScheme(w) == w
    ensures StripScheme(w) != w ==> IsPrefix("http://", w) || IsPrefix("https://", w)
  {
    assert ("http://" + rest)[..7] == "http://";
    assert ("http://" + rest)[7..] == rest;
    var s := "https://" + rest;
    assert s[4] == 's';
    assert s[..8] == "https://";
    assert s[8..] == rest;
  }

  datatype Follow = Follow(following: bool)

  /** `handleFollowClick`: the flag flips and the toast describes the new
      state, naming the profile's owner. */
  function FollowClick(f: Follow, name: string): (r: (Follow, Toast))
    ensures r.0.following == !f.following
    ensures r.1.title == if f.following then "Unfollowed" else "Followed"
    ensures !r.1.destructive
  {
    if f.following then (Follow(false), Toast("Unfollowed", "You unfollowed " + name, false))
    else (Follow(true), Toast("Followed", "You are now following " + name, false))
  }

  /** Two clicks restore the flag, and their toasts are one `Followed` and one
      `Unfollowed`. */
  lemma FollowTwice(f: Follow, name: string)
    ensures FollowClick(FollowClick(f, name).0, name).0 == f
    ensures {FollowClick(f, name).1.title, FollowClick(FollowClick(f, name).0, name).1.title} == {"Followed", "Unfollowed"}
  {
  }

  datatype HeaderButton = EditProfile | FollowButton | UnfollowButton

  /** The owner sees Edit Profile; anyone else sees Follow or Unfollow. */
  function HeaderButtonOf(isCurrentUser: bool, f: Follow): (b: HeaderButton)
    ensures b == EditProfile <==> isCurrentUser
    ensures b == UnfollowButton <==> !isCurrentUser && f.following
  {
    if isCurrentUser then EditProfile else if f.following then UnfollowButton else FollowButton
  }
}
