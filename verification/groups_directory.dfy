/** The groups directory: a local list of groups with join and leave
    buttons, a search box, and the discover, my-groups and suggested tabs. */
module GroupsDirectory {
  import opened Js
  import Database

  datatype Group = Group(
    id: string, name: string, description: string, members: int,
    coverImage: string, privacy: Database.Privacy, category: string, joined: bool)

  datatype Change = Change(groups: seq<Group>, toast: Option<Toast>)

  /** The test `g => g.id === id`. */
  function HasId(id: string): Group -> bool {
    (g: Group) => g.id == id
  }

  /** `groups.find(g => g.id === id)`. */
  function Find(gs: seq<Group>, id: string): Option<Group> {
    FindFirst(gs, HasId(id))
  }

  /** Every group with the id gets `f`; the others stay, in order. */
  function MapId(gs: seq<Group>, id: string, f: Group -> Group): seq<Group> {
    MapWhere(gs, HasId(id), f)
  }

  function Joined(g: Group): Group {
    g.(joined := true, members := g.members + 1)
  }

  function Left(g: Group): Group {
    g.(joined := false, members := g.members - 1)
  }

  /** `handleJoinGroup`: on a known id, that group is joined with one more
      member and a toast names it; an unknown id changes nothing. */
  function Join(gs: seq<Group>, id: string): (r: Change)
    ensures Find(gs, id).None? ==> r == Change(gs, None)
    ensures Find(gs, id).Some? ==>
              r.toast == Some(Toast("Group Joined", "You've successfully joined " + Find(gs, id).value.name, false))
    ensures |r.groups| == |gs|
    ensures forall i :: 0 <= i < |gs| && gs[i].id != id ==> r.groups[i] == gs[i]
    ensures forall i :: 0 <= i < |gs| && gs[i].id == id ==>
              r.groups[i].joined && r.groups[i].members == gs[i].members + 1 && r.groups[i].(joined := gs[i].joined, members := gs[i].members) == gs[i]
  {
    match Find(gs, id)
    case None => Change(gs, None)
    case Some(g) => Change(MapId(gs, id, Joined), Some(Toast("Group Joined", "You've successfully joined " + g.name, false)))
  }

  /** `handleLeaveGroup`: on a known id, that group is left with one member
      fewer and a toast names it; an unknown id changes nothing. */
  function Leave(gs: seq<Group>, id: string): (r: Change)
    ensures Find(gs, id).None? ==> r == Change(gs, None)
    ensures Find(gs, id).Some? ==> r.toast == Some(Toast("Left Group", "You've left " + Find(gs, id).value.name, false))
    ensures |r.groups| == |gs|
    ensures forall i :: 0 <= i < |gs| && gs[i].id != id ==> r.groups[i] == gs[i]
    ensures forall i :: 0 <= i < |gs| && gs[i].id == id ==>
              !r.groups[i].joined && r.groups[i].members == gs[i].members - 1 && r.groups[i].(joined := gs[i].joined, members := gs[i].members) == gs[i]
  {
    match Find(gs, id)
    case None => Change(gs, None)
    case Some(g) => Change(MapId(gs, id, Left), Some(Toast("Left Group", "You've left " + g.name, false)))
  }

  /** A group joined and then left: only the flag differs from before. */
  function Unjoined(g: Group): Group {
    g.(joined := false)
  }

  /** Applying join then leave to the list is applying `Unjoined`. */
  lemma JoinedThenLeft(gs: seq<Group>, id: string)
    ensures MapId(MapId(gs, id, Joined), id, Left) == MapId(gs, id, Unjoined)
  {
    var a := MapId(MapId(gs, id, Joined), id, Left);
    var b := MapId(gs, id, Unjoined);
    forall i | 0 <= i < |gs|
      ensures a[i] == b[i]
    {
      assert MapId(gs, id, Joined)[i].id == gs[i].id;
    }
  }

  /** Joining then leaving restores every member count, and restores the list
      itself when the group was not joined before. */
  lemma JoinThenLeave(gs: seq<Group>, id: string)
    ensures var r := Leave(Join(gs, id).groups, id).groups;
            && |r| == |gs|
            && (forall i :: 0 <= i < |gs| ==> r[i].members == gs[i].members)
            && ((forall i :: 0 <= i < |gs| && gs[i].id == id ==> !gs[i].joined) ==> r == gs)
  {
    var j := Join(gs, id).groups;
    var r := Leave(j, id).groups;
    match Find(gs, id)
    case None =>
      assert j == gs;
    case Some(g) =>
      assert j == MapId(gs, id, Joined);
      var k :| 0 <= k < |gs| && gs[k] == g;
      assert j[k].id == id;
      assert r == MapId(j, id, Left);
      JoinedThenLeft(gs, id);
      assert r == MapId(gs, id, Unjoined);
      UnjoinedSpec(gs, id);
  }

  /** `Unjoined` on the groups with an id keeps every member count, and keeps
      the list itself when none of them was joined. */
  lemma UnjoinedSpec(gs: seq<Group>, id: string)
    ensures var r := MapId(gs, id, Unjoined);
            && |r| == |gs|
            && (forall i :: 0 <= i < |gs| ==> r[i].members == gs[i].members)
            && ((forall i :: 0 <= i < |gs| && gs[i].id == id ==> !gs[i].joined) ==> r == gs)
  {
    var r := MapId(gs, id, Unjoined);
    if forall i :: 0 <= i < |gs| && gs[i].id == id ==> !gs[i].joined {
      assert forall i :: 0 <= i < |gs| ==> r[i] == gs[i];
    }
  }

  /** The card's button: leave for a joined group, join otherwise. */
  function PressCard(gs: seq<Group>, k: nat): (r: Change)
    requires k < |gs|
    ensures gs[k].joined ==> r == Leave(gs, gs[k].id)
    ensures !gs[k].joined ==> r == Join(gs, gs[k].id)
  {
    if gs[k].joined then Leave(gs, gs[k].id) else Join(gs, gs[k].id)
  }

  /** Pressing a card's button twice restores the list when its id is unique. */
  lemma PressTwiceRestores(gs: seq<Group>, k: nat)
    requires k < |gs|
    requires forall i :: 0 <= i < |gs| && i != k ==> gs[i].id != gs[k].id
    ensures PressCard(PressCard(gs, k).groups, k).groups == gs
  {
    var id := gs[k].id;
    Present(gs, k);
    var r1 := PressCard(gs, k).groups;
    assert r1[k].id == id;
    Present(r1, k);
    if gs[k].joined {
      Restores(gs, Leave(gs, id).groups, Join(r1, id).groups, k);
    } else {
      Restores(gs, Join(gs, id).groups, Leave(r1, id).groups, k);
    }
  }

  /** Two updates that keep every group but one, and give that one back its
      old value, restore the list. */
  lemma Restores(gs: seq<Group>, r1: seq<Group>, r2: seq<Group>, k: nat)
    requires k < |gs|
    requires |r1| == |gs| == |r2|
    requires forall i :: 0 <= i < |gs| && i != k ==> r1[i] == gs[i] && r2[i] == r1[i]
    requires r2[k] == gs[k]
    ensures r2 == gs
  {
  }

  /** A group in the list is found by its id. */
  lemma Present(gs: seq<Group>, k: nat)
    requires k < |gs|
    ensures Find(gs, gs[k].id).Some?
  {
    assert HasId(gs[k].id)(gs[k]);
  }

  /** The search test: name, description or category contains the query,
      ignoring ASCII case. */
  function Matches(q: string): Group -> bool {
    (g: Group) => ContainsIgnoreCase(g.name, q) || ContainsIgnoreCase(g.description, q) || ContainsIgnoreCase(g.category, q)
  }

  /** `filteredGroups`: everything for an empty query. */
  function Filtered(gs: seq<Group>, q: string): (r: seq<Group>)
    ensures |r| <= |gs|
    ensures forall i :: 0 <= i < |r| ==> r[i] in gs
    ensures q != "" ==> forall i :: 0 <= i < |r| ==> Matches(q)(r[i])
  {
    if q == "" then gs else Filter(gs, Matches(q))
  }

  /** An empty query shows all groups; otherwise a group is shown iff it is in
      the list and matches, and the shown groups keep the list's order. */
  lemma FilteredIsSearch(gs: seq<Group>, more: seq<Group>, q: string, g: Group)
    ensures q == "" ==> Filtered(gs, q) == gs
    ensures q != "" ==> (g in Filtered(gs, q) <==> g in gs && Matches(q)(g))
    ensures Filtered(gs + more, q) == Filtered(gs, q) + Filtered(more, q)
  {
    FilterMembership(gs, Matches(q), g);
    FilterAppend(gs, more, Matches(q));
  }

  function IsJoined(g: Group): bool {
    g.joined
  }

  function NotJoined(g: Group): bool {
    !g.joined
  }

  /** `myGroups`. */
  function MyGroups(gs: seq<Group>): (r: seq<Group>)
    ensures |r| <= |gs|
    ensures forall i :: 0 <= i < |r| ==> r[i] in gs && r[i].joined
  {
    Filter(gs, IsJoined)
  }

  lemma MyGroupsAreJoined(gs: seq<Group>, g: Group)
    ensures g in MyGroups(gs) <==> g in gs && g.joined
  {
    FilterMembership(gs, IsJoined, g);
  }

  /** The suggested tab: the first three unjoined groups of the search result. */
  function Suggested(gs: seq<Group>, q: string): (r: seq<Group>)
    ensures |r| <= 3 && |r| <= |Filter(Filtered(gs, q), NotJoined)|
    ensures forall i :: 0 <= i < |r| ==> !r[i].joined && r[i] in Filtered(gs, q)
    ensures r == Filter(Filtered(gs, q), NotJoined)[..|r|]
    ensures |r| < 3 ==> r == Filter(Filtered(gs, q), NotJoined)
  {
    Take(Filter(Filtered(gs, q), NotJoined), 3)
  }
}
