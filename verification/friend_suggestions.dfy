/** The "people you may know" card: adding or ignoring a suggestion removes
    it from the list; adding also raises a toast. */
module FriendSuggestions {
  import opened Js

  datatype Suggestion = Suggestion(id: string, name: string, avatar: string, mutualFriends: int, profession: Option<string>)

  /** `suggestions.find(s => s.id === id)`. */
  function Find(fs: seq<Suggestion>, id: string): Option<Suggestion> {
    FindFirst(fs, (f: Suggestion) => f.id == id)
  }

  function Keep(id: string): Suggestion -> bool {
    (f: Suggestion) => f.id != id
  }

  /** `filter(f => f.id !== id)`. */
  function Remove(fs: seq<Suggestion>, id: string): seq<Suggestion> {
    Filter(fs, Keep(id))
  }

  /** Removal drops exactly the suggestions with the id: a suggestion stays
      iff it was there with another id, the survivors keep their order, an
      unknown id leaves the list as it was, and removing twice is removing
      once. */
  lemma RemoveSpec(fs: seq<Suggestion>, more: seq<Suggestion>, id: string, f: Suggestion)
    ensures f in Remove(fs, id) <==> f in fs && f.id != id
    ensures Remove(fs + more, id) == Remove(fs, id) + Remove(more, id)
    ensures Find(fs, id).None? ==> Remove(fs, id) == fs
    ensures Remove(Remove(fs, id), id) == Remove(fs, id)
  {
    FilterMembership(fs, Keep(id), f);
    FilterAppend(fs, more, Keep(id));
    if Find(fs, id).None? {
      FilterAll(fs, Keep(id));
    }
    var r := Remove(fs, id);
    FilterAll(r, Keep(id));
  }

  datatype Change = Change(suggestions: seq<Suggestion>, toast: Option<Toast>)

  /** `handleAddFriend`: remove the suggestion; the "request sent" toast,
      naming the first suggestion with the id, appears only if there was one. */
  function AddFriend(fs: seq<Suggestion>, id: string): (r: Change)
    ensures r.suggestions == Remove(fs, id)
    ensures r.toast.Some? <==> exists i :: 0 <= i < |fs| && fs[i].id == id
    ensures r.toast.Some? ==> r.toast.value == Toast("Friend request sent", "You sent a friend request to " + Find(fs, id).value.name, false)
  {
    match Find(fs, id)
    case None => Change(Remove(fs, id), None)
    case Some(f) => Change(Remove(fs, id), Some(Toast("Friend request sent", "You sent a friend request to " + f.name, false)))
  }

  /** Every suggestion survives a removal exactly when it carries another id. */
  lemma RemoveMembers(fs: seq<Suggestion>, id: string)
    ensures forall f :: f in Remove(fs, id) <==> f in fs && f.id != id
  {
    forall f {
      FilterMembership(fs, Keep(id), f);
    }
  }

  /** `handleIgnoreSuggestion`: the same removal as adding a friend, without a
      toast. Every suggestion with another id is kept; the order is that of
      `Remove`, which `RemoveSpec` pins down. */
  function Ignore(fs: seq<Suggestion>, id: string): (r: seq<Suggestion>)
    ensures |r| <= |fs|
    ensures forall i :: 0 <= i < |r| ==> r[i].id != id && r[i] in fs
    ensures forall f :: f in r <==> f in fs && f.id != id
    ensures r == AddFriend(fs, id).suggestions
  {
    RemoveMembers(fs, id);
    Remove(fs, id)
  }

  /** Adding a friend a second time sends nothing: the suggestion is gone. */
  lemma AddTwiceNoToast(fs: seq<Suggestion>, id: string)
    ensures AddFriend(AddFriend(fs, id).suggestions, id).toast.None?
    ensures AddFriend(AddFriend(fs, id).suggestions, id).suggestions == AddFriend(fs, id).suggestions
  {
    FilterAll(Remove(fs, id), Keep(id));
  }
}
