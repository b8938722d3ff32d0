/**
The catalog's folder tree (internal/domain/catalog_tree.go): a folder's path, the
folders a requester sees, and where opening a folder lands.  Nothing here assumes
the folder list is a tree unless it says so.
*/
module CatalogTree {
  import opened Core

  datatype Folder = Folder(id: int, parent: Option<int>)

  // `children` holds the top level under key 0.
  datatype Tree = Tree(byId: map<int, Folder>, children: map<int, seq<Folder>>)

  function ParentKey(parent: Option<int>): int { if parent.Some? then parent.value else 0 }

  function KidsOf(t: Tree, id: int): seq<Folder> { if id in t.children then t.children[id] else [] }

  function ById(folders: seq<Folder>): map<int, Folder> {
    if folders == [] then map[] else ById(folders[..|folders| - 1])[folders[|folders| - 1].id := folders[|folders| - 1]]
  }

  // A folder whose parent is missing belongs nowhere.
  predicate Placed(byId: map<int, Folder>, f: Folder) { ParentKey(f.parent) == 0 || ParentKey(f.parent) in byId }

  function PlacedIn(byId: map<int, Folder>, folders: seq<Folder>, parent: int): seq<Folder> {
    if folders == [] then []
    else
      var last := folders[|folders| - 1];
      PlacedIn(byId, folders[..|folders| - 1], parent) + if Placed(byId, last) && ParentKey(last.parent) == parent then [last] else []
  }

  method NewCatalogTree(folders: seq<Folder>) returns (t: Tree)
    ensures t.byId == ById(folders)
    ensures forall p :: KidsOf(t, p) == PlacedIn(t.byId, folders, p)
  {
    var byId: map<int, Folder> := map[];
    for i := 0 to |folders|
      invariant byId == ById(folders[..i])
    {
      assert folders[..i + 1][..i] == folders[..i];
      byId := byId[folders[i].id := folders[i]];
    }
    assert folders[..|folders|] == folders;
    t := Tree(byId, map[]);
    for i := 0 to |folders|
      invariant t.byId == byId
      invariant forall p :: KidsOf(t, p) == PlacedIn(byId, folders[..i], p)
    {
      var f := folders[i];
      PlacedSnoc(byId, folders, i);
      var parent := ParentKey(f.parent);
      if parent != 0 && parent !in byId {
        continue;
      }
      t := t.(children := t.children[parent := KidsOf(t, parent) + [f]]);
    }
  }

  lemma PlacedSnoc(byId: map<int, Folder>, folders: seq<Folder>, i: nat)
    requires i < |folders|
    ensures forall p :: PlacedIn(byId, folders[..i + 1], p) ==
              PlacedIn(byId, folders[..i], p) + if Placed(byId, folders[i]) && ParentKey(folders[i].parent) == p then [folders[i]] else []
  {
    assert folders[..i + 1][..i] == folders[..i];
  }

  // ---- Paths ----------------------------------------------------------------------

  // The walk up from `id`, top first, stopping at the top level, at a missing
  // parent, or where it would meet itself.
  function PathFrom(t: Tree, id: int, seen: set<int>): seq<Folder>
    decreases t.byId.Keys - seen
  {
    if id !in t.byId || id in seen then []
    else
      var f := t.byId[id];
      (if f.parent.None? then [] else PathFrom(t, f.parent.value, seen + {id})) + [f]
  }

  // It terminates on any list, cyclic or dangling.
  method Path(t: Tree, id: Option<int>) returns (out: seq<Folder>)
    requires forall k :: k in t.byId ==> t.byId[k].id == k
    ensures out == if id.None? then [] else PathFrom(t, id.value, {})
  {
    if id.None? {
      return [];
    }
    out := [];
    var seen: set<int> := {};
    var current := id.value;
    while current in t.byId && current !in seen
      invariant PathFrom(t, current, seen) + out == PathFrom(t, id.value, {})
      decreases t.byId.Keys - seen
    {
      var f := t.byId[current];
      seen := seen + {f.id};
      ghost var before := out;
      out := [f] + out;
      if f.parent.None? {
        return;
      }
      assert PathFrom(t, f.parent.value, seen) + ([f] + before) == (PathFrom(t, f.parent.value, seen) + [f]) + before;
      current := ParentKey(f.parent);
    }
  }

  function Ids(fs: seq<Folder>): set<int> { set i | 0 <= i < |fs| :: fs[i].id }

  // Closed under known parents.
  ghost predicate UpClosed(t: Tree, s: set<int>) {
    forall x :: x in s && x in t.byId && t.byId[x].parent.Some? && t.byId[x].parent.value in t.byId ==> t.byId[x].parent.value in s
  }

  lemma IdsSnoc(fs: seq<Folder>, f: Folder)
    ensures Ids(fs + [f]) == Ids(fs) + {f.id}
  {
    forall x | x in Ids(fs)
      ensures x in Ids(fs + [f])
    {
      var i :| 0 <= i < |fs| && fs[i].id == x;
      assert (fs + [f])[i].id == x;
    }
    assert (fs + [f])[|fs|] == f;
  }

  // A path holds its folder, is closed upwards apart from what it had already seen,
  // and holds nothing it need not.
  lemma {:induction false} PathCloses(t: Tree, id: int, seen: set<int>)
    requires forall k :: k in t.byId ==> t.byId[k].id == k
    ensures id in t.byId && id !in seen ==> id in Ids(PathFrom(t, id, seen))
    ensures UpClosed(t, Ids(PathFrom(t, id, seen)) + seen) || !UpClosedBut(t, seen, id)
    ensures forall s :: UpClosed(t, s) && id in s ==> Ids(PathFrom(t, id, seen)) <= s
    decreases t.byId.Keys - seen
  {
    if id in t.byId && id !in seen {
      var f := t.byId[id];
      var above := if f.parent.None? then [] else PathFrom(t, f.parent.value, seen + {id});
      IdsSnoc(above, f);
      if f.parent.Some? {
        PathCloses(t, f.parent.value, seen + {id});
        assert Ids(above + [f]) + seen == Ids(above) + (seen + {id});
      }
    }
  }

  // Every parent step out of `s` leads to `next` or stays inside.
  ghost predicate UpClosedBut(t: Tree, s: set<int>, next: int) {
    forall x :: x in s && x in t.byId && t.byId[x].parent.Some? && t.byId[x].parent.value in t.byId ==>
      t.byId[x].parent.value in s || t.byId[x].parent.value == next
  }

  // ---- What a requester sees ---------------------------------------------------------

  method VisibleFolders(t: Tree, offeredIn: seq<Option<int>>) returns (visible: set<int>)
    requires forall k :: k in t.byId ==> t.byId[k].id == k
    ensures IsVisibleSet(t, offeredIn, visible)
  {
    visible := {};
    for i := 0 to |offeredIn|
      invariant IsVisibleSet(t, offeredIn[..i], visible)
    {
      var path := Path(t, offeredIn[i]);
      VisibleGrows(t, offeredIn, i, visible, path);
      ghost var before := visible;
      for j := 0 to |path|
        invariant visible == before + Ids(path[..j])
      {
        assert path[..j + 1] == path[..j] + [path[j]];
        IdsSnoc(path[..j], path[j]);
        visible := visible + {path[j].id};
      }
      assert path[..|path|] == path;
    }
    assert offeredIn[..|offeredIn|] == offeredIn;
  }

  ghost predicate HoldsOffered(t: Tree, offeredIn: seq<Option<int>>, s: set<int>) {
    forall i :: 0 <= i < |offeredIn| && offeredIn[i].Some? && offeredIn[i].value in t.byId ==> offeredIn[i].value in s
  }

  // One offering folder's path more.
  lemma VisibleGrows(t: Tree, offeredIn: seq<Option<int>>, i: nat, visible: set<int>, path: seq<Folder>)
    requires forall k :: k in t.byId ==> t.byId[k].id == k
    requires i < |offeredIn| && IsVisibleSet(t, offeredIn[..i], visible)
    requires path == if offeredIn[i].None? then [] else PathFrom(t, offeredIn[i].value, {})
    ensures IsVisibleSet(t, offeredIn[..i + 1], visible + Ids(path))
  {
    var more := offeredIn[..i + 1];
    assert more == offeredIn[..i] + [offeredIn[i]];
    assert forall k :: 0 <= k < i ==> more[k] == offeredIn[..i][k];
    if offeredIn[i].Some? {
      PathCloses(t, offeredIn[i].value, {});
      assert Ids(path) + {} == Ids(path);
    } else {
      assert Ids(path) == {} && visible + Ids(path) == visible;
    }
    forall s | UpClosed(t, s) && HoldsOffered(t, more, s)
      ensures visible + Ids(path) <= s
    {
      assert HoldsOffered(t, offeredIn[..i], s);
      if offeredIn[i].Some? && offeredIn[i].value in t.byId {
        assert more[i].value in s;
      }
    }
  }

  // The smallest set that holds every known folder offering something and the known
  // parent of every folder it holds: on any list, the ancestor closure.
  ghost predicate IsVisibleSet(t: Tree, offeredIn: seq<Option<int>>, visible: set<int>) {
    && HoldsOffered(t, offeredIn, visible)
    && UpClosed(t, visible)
    && forall s :: UpClosed(t, s) && HoldsOffered(t, offeredIn, s) ==> visible <= s
  }

  // ---- Where opening a folder lands ---------------------------------------------------

  function VisibleKids(kids: seq<Folder>, visible: set<int>): seq<int> {
    if kids == [] then []
    else VisibleKids(kids[..|kids| - 1], visible) + if kids[|kids| - 1].id in visible then [kids[|kids| - 1].id] else []
  }

  function Listed(t: Tree): set<int> { set k, i | k in t.children && 0 <= i < |t.children[k]| :: t.children[k][i].id }

  lemma {:induction false} KidsListed(kids: seq<Folder>, visible: set<int>)
    ensures forall x :: x in VisibleKids(kids, visible) <==> x in visible && exists i :: 0 <= i < |kids| && kids[i].id == x
  {
    if kids != [] {
      var init := kids[..|kids| - 1];
      KidsListed(init, visible);
      assert forall i :: 0 <= i < |init| ==> init[i] == kids[i];
    }
  }

  lemma KidsAreListed(t: Tree, id: int, visible: set<int>)
    ensures forall x :: x in VisibleKids(KidsOf(t, id), visible) ==> x in Listed(t)
  {
    var kids := KidsOf(t, id);
    KidsListed(kids, visible);
    forall x | x in VisibleKids(kids, visible)
      ensures x in Listed(t)
    {
      var i :| 0 <= i < |kids| && kids[i].id == x;
      assert id in t.children && t.children[id][i].id == x;
    }
  }

  function LandFrom(t: Tree, id: int, visible: set<int>, direct: int -> bool, seen: set<int>): int
    decreases Listed(t) + {id} - seen
  {
    if id in seen || direct(id) then id
    else
      var kids := VisibleKids(KidsOf(t, id), visible);
      if |kids| != 1 then id
      else
        KidsAreListed(t, id, visible);
        assert kids[0] in kids;
        LandFrom(t, kids[0], visible, direct, seen + {id})
  }

  // It terminates on any list.
  method Land(t: Tree, start: int, visible: set<int>, direct: int -> bool) returns (id: int)
    ensures id == LandFrom(t, start, visible, direct, {})
  {
    id := start;
    var seen: set<int> := {};
    while id !in seen
      invariant LandFrom(t, id, visible, direct, seen) == LandFrom(t, start, visible, direct, {})
      decreases Listed(t) + {id} - seen
    {
      ghost var was := Listed(t) + {id} - seen;
      seen := seen + {id};
      if direct(id) {
        return id;
      }
      var only, count := 0, 0;
      var kids := KidsOf(t, id);
      for i := 0 to |kids|
        invariant count == |VisibleKids(kids[..i], visible)|
        invariant count > 0 ==> only == VisibleKids(kids[..i], visible)[count - 1]
      {
        assert kids[..i + 1][..i] == kids[..i];
        if kids[i].id in visible {
          only := kids[i].id;
          count := count + 1;
        }
      }
      assert kids[..|kids|] == kids;
      if count != 1 {
        return id;
      }
      KidsAreListed(t, id, visible);
      assert only in VisibleKids(kids, visible);
      id := only;
    }
  }

  // ---- On any list: what a path is ----------------------------------------------------

  // A path ends at its folder, every folder on it sits inside the one before, none
  // comes twice, and it starts at the top level unless the list is broken there.
  lemma {:induction false} PathIsChain(t: Tree, id: int, seen: set<int>)
    requires forall k :: k in t.byId ==> t.byId[k].id == k
    ensures var p := PathFrom(t, id, seen);
            && (id in t.byId && id !in seen ==> |p| > 0 && p[|p| - 1] == t.byId[id])
            && (forall i, j :: 0 <= i < j < |p| && j == i + 1 ==> p[j].parent == Some(p[i].id))
            && (forall i :: 0 <= i < |p| ==> p[i].id in t.byId && p[i].id !in seen)
            && (forall i, j :: 0 <= i < j < |p| ==> p[i].id != p[j].id)
            && (|p| > 0 && p[0].parent.Some? ==> p[0].parent.value !in t.byId || p[0].parent.value in seen || p[0].parent.value in Ids(p))
    decreases t.byId.Keys - seen
  {
    if id in t.byId && id !in seen {
      var f := t.byId[id];
      if f.parent.Some? {
        PathIsChain(t, f.parent.value, seen + {id});
        IdsSnoc(PathFrom(t, f.parent.value, seen + {id}), f);
      } else {
        assert PathFrom(t, id, seen) == [] + [f] == [f];
      }
    }
  }

  // ---- On a forest -------------------------------------------------------------------

  // Ids name one folder each, every parent exists, and nothing contains itself.
  ghost predicate Forest(t: Tree, depth: int -> nat) {
    && (forall k :: k in t.byId ==>
          && t.byId[k].id == k && k != 0
          && (t.byId[k].parent.Some? ==> t.byId[k].parent.value in t.byId && depth(t.byId[k].parent.value) < depth(k)))
    && (forall k, i :: 0 <= i < |KidsOf(t, k)| ==>
          && KidsOf(t, k)[i].id in t.byId && t.byId[KidsOf(t, k)[i].id] == KidsOf(t, k)[i] && ParentKey(KidsOf(t, k)[i].parent) == k)
    && (forall k :: k in t.byId ==> t.byId[k] in KidsOf(t, ParentKey(t.byId[k].parent)))
    && (forall k, i, j :: 0 <= i < j < |KidsOf(t, k)| ==> KidsOf(t, k)[i].id != KidsOf(t, k)[j].id)
  }

  // `top` is `x` or contains it.
  ghost predicate Under(t: Tree, depth: int -> nat, top: int, x: int)
    requires Forest(t, depth)
    decreases depth(x)
  {
    x in t.byId && (x == top || (t.byId[x].parent.Some? && Under(t, depth, top, t.byId[x].parent.value)))
  }

  lemma {:induction false} UnderTrans(t: Tree, depth: int -> nat, a: int, b: int, c: int)
    requires Forest(t, depth) && Under(t, depth, a, b) && Under(t, depth, b, c)
    ensures Under(t, depth, a, c)
    decreases depth(c)
  {
    if b != c {
      UnderTrans(t, depth, a, b, t.byId[c].parent.value);
    }
  }

  lemma {:induction false} ChildTowards(t: Tree, depth: int -> nat, top: int, x: int) returns (c: int)
    requires Forest(t, depth) && Under(t, depth, top, x) && top != x
    ensures c in t.byId && t.byId[c].parent == Some(top) && Under(t, depth, c, x)
    decreases depth(x)
  {
    if t.byId[x].parent == Some(top) {
      return x;
    }
    c := ChildTowards(t, depth, top, t.byId[x].parent.value);
  }

  lemma {:induction false} ClosedUpTo(t: Tree, depth: int -> nat, s: set<int>, top: int, x: int)
    requires Forest(t, depth) && UpClosed(t, s) && x in s && Under(t, depth, top, x)
    ensures top in s
    decreases depth(x)
  {
    if x != top {
      ClosedUpTo(t, depth, s, top, t.byId[x].parent.value);
    }
  }

  ghost predicate Holds(t: Tree, depth: int -> nat, offers: set<int>, x: int)
    requires Forest(t, depth)
  {
    exists o :: o in offers && Under(t, depth, x, o)
  }

  // A requester sees a folder if and only if something offered lies in its subtree.
  lemma VisibleMeansOffering(t: Tree, depth: int -> nat, offeredIn: seq<Option<int>>, visible: set<int>, x: int)
    requires Forest(t, depth) && IsVisibleSet(t, offeredIn, visible)
    ensures var offers := set i | 0 <= i < |offeredIn| && offeredIn[i].Some? :: offeredIn[i].value;
            x in visible <==> Holds(t, depth, offers, x)
  {
    var offers := set i | 0 <= i < |offeredIn| && offeredIn[i].Some? :: offeredIn[i].value;
    var s := set y | y in t.byId && Holds(t, depth, offers, y);
    forall i | 0 <= i < |offeredIn| && offeredIn[i].Some? && offeredIn[i].value in t.byId
      ensures offeredIn[i].value in s
    {
      assert Under(t, depth, offeredIn[i].value, offeredIn[i].value);
    }
    forall y | y in s && t.byId[y].parent.Some?
      ensures t.byId[y].parent.value in s
    {
      var o :| o in offers && Under(t, depth, y, o);
      assert Under(t, depth, t.byId[y].parent.value, t.byId[y].parent.value);
      UnderTrans(t, depth, t.byId[y].parent.value, y, o);
    }
    assert HoldsOffered(t, offeredIn, s) && UpClosed(t, s);
    if Holds(t, depth, offers, x) {
      var o :| o in offers && Under(t, depth, x, o);
      ClosedUpTo(t, depth, visible, x, o);
    }
  }

  // What landing promises from a visible folder.
  ghost predicate LandsWell(t: Tree, depth: int -> nat, visible: set<int>, offers: set<int>, id: int, r: int)
    requires Forest(t, depth)
  {
    && r in visible && Under(t, depth, id, r)
    && (forall o :: o in offers && Under(t, depth, id, o) ==> Under(t, depth, r, o))
    && (r in offers || |VisibleKids(KidsOf(t, r), visible)| >= 2)
  }

  // Below a visible folder that offers nothing itself, every offer lies under a
  // visible child, and there is one.
  lemma OffersLieInKids(t: Tree, depth: int -> nat, visible: set<int>, offers: set<int>, id: int)
    requires Forest(t, depth) && (forall x :: x in visible <==> Holds(t, depth, offers, x)) && id in visible && id !in offers
    ensures forall o :: o in offers && Under(t, depth, id, o) ==>
              exists c :: c in VisibleKids(KidsOf(t, id), visible) && Under(t, depth, c, o)
    ensures VisibleKids(KidsOf(t, id), visible) != []
  {
    forall o | o in offers && Under(t, depth, id, o)
      ensures exists c :: c in VisibleKids(KidsOf(t, id), visible) && Under(t, depth, c, o)
    {
      var c := ChildTowards(t, depth, id, o);
      assert Holds(t, depth, offers, c);
      VisibleChild(t, depth, visible, id, c);
    }
    assert Holds(t, depth, offers, id);
  }

  // Opening a visible folder lands on a visible folder inside it, under which every
  // offered category of the opened folder still lies; one that offers something
  // itself or leaves a choice; and opening that one stays there.
  lemma {:induction false} LandingIsSafe(t: Tree, depth: int -> nat, visible: set<int>, offers: set<int>,
      direct: int -> bool, id: int, seen: set<int>)
    requires Forest(t, depth) && (forall x :: x in visible <==> Holds(t, depth, offers, x)) && id in visible
    requires forall x :: direct(x) <==> x in offers
    requires forall x :: x in seen ==> depth(x) < depth(id)
    ensures var r := LandFrom(t, id, visible, direct, seen);
            && LandsWell(t, depth, visible, offers, id, r)
            && LandFrom(t, r, visible, direct, {}) == r
    decreases Listed(t) + {id} - seen
  {
    var kids := VisibleKids(KidsOf(t, id), visible);
    if id in offers || |kids| != 1 {
      StaysWell(t, depth, visible, offers, direct, id, seen);
    } else {
      var kid := OnlyKid(t, depth, visible, offers, id);
      LandingIsSafe(t, depth, visible, offers, direct, kid, seen + {id});
      LandsDeeper(t, depth, visible, offers, id, kid, LandFrom(t, kid, visible, direct, seen + {id}));
    }
  }

  lemma StaysWell(t: Tree, depth: int -> nat, visible: set<int>, offers: set<int>, direct: int -> bool, id: int,
      seen: set<int>)
    requires Forest(t, depth) && Holds(t, depth, offers, id) && id in visible && id !in seen
    requires (forall x :: x in visible <==> Holds(t, depth, offers, x)) && (forall x :: direct(x) <==> x in offers)
    requires id in offers || |VisibleKids(KidsOf(t, id), visible)| != 1
    ensures LandFrom(t, id, visible, direct, seen) == id == LandFrom(t, id, visible, direct, {})
    ensures LandsWell(t, depth, visible, offers, id, id)
  {
    VisibleIsKnown(t, depth, visible, offers, id);
    if id !in offers {
      OffersLieInKids(t, depth, visible, offers, id);
    }
  }

  lemma OnlyKid(t: Tree, depth: int -> nat, visible: set<int>, offers: set<int>, id: int) returns (kid: int)
    requires Forest(t, depth) && (forall x :: x in visible <==> Holds(t, depth, offers, x)) && id in visible && id !in offers
    requires |VisibleKids(KidsOf(t, id), visible)| == 1
    ensures VisibleKids(KidsOf(t, id), visible) == [kid]
    ensures kid in visible && kid in Listed(t) && depth(id) < depth(kid) && Under(t, depth, id, kid)
    ensures forall o :: o in offers && Under(t, depth, id, o) ==> Under(t, depth, kid, o)
  {
    var kids := VisibleKids(KidsOf(t, id), visible);
    kid := kids[0];
    assert kid in kids;
    VisibleIsKnown(t, depth, visible, offers, id);
    KidsAreListed(t, id, visible);
    KidInside(t, depth, visible, id, kid);
    OffersLieInKids(t, depth, visible, offers, id);
  }

  lemma LandsDeeper(t: Tree, depth: int -> nat, visible: set<int>, offers: set<int>, id: int, kid: int, r: int)
    requires Forest(t, depth) && LandsWell(t, depth, visible, offers, kid, r) && Under(t, depth, id, kid)
    requires forall o :: o in offers && Under(t, depth, id, o) ==> Under(t, depth, kid, o)
    ensures LandsWell(t, depth, visible, offers, id, r)
  {
    UnderTrans(t, depth, id, kid, r);
  }

  lemma VisibleIsKnown(t: Tree, depth: int -> nat, visible: set<int>, offers: set<int>, id: int)
    requires Forest(t, depth) && Holds(t, depth, offers, id)
    ensures id in t.byId && Under(t, depth, id, id)
  {
    var o :| o in offers && Under(t, depth, id, o);
    InTree(t, depth, id, o);
  }

  lemma {:induction false} InTree(t: Tree, depth: int -> nat, top: int, x: int)
    requires Forest(t, depth) && Under(t, depth, top, x)
    ensures top in t.byId
    decreases depth(x)
  {
    if x != top {
      InTree(t, depth, top, t.byId[x].parent.value);
    }
  }

  lemma VisibleChild(t: Tree, depth: int -> nat, visible: set<int>, id: int, c: int)
    requires Forest(t, depth) && c in t.byId && t.byId[c].parent == Some(id) && c in visible
    ensures c in VisibleKids(KidsOf(t, id), visible)
  {
    KidsListed(KidsOf(t, id), visible);
    var i :| 0 <= i < |KidsOf(t, id)| && KidsOf(t, id)[i] == t.byId[c];
  }

  lemma KidInside(t: Tree, depth: int -> nat, visible: set<int>, id: int, c: int)
    requires Forest(t, depth) && id in t.byId && c in VisibleKids(KidsOf(t, id), visible)
    ensures c in visible && c in t.byId && t.byId[c].parent == Some(id) && depth(id) < depth(c) && Under(t, depth, id, c)
  {
    KidsListed(KidsOf(t, id), visible);
    assert Under(t, depth, id, id);
  }

  // ---- From the folder list ---------------------------------------------------------

  ghost predicate TreeList(folders: seq<Folder>, depth: int -> nat) {
    && (forall i, j :: 0 <= i < j < |folders| ==> folders[i].id != folders[j].id)
    && (forall i :: 0 <= i < |folders| ==> folders[i].id != 0)
    && (forall i :: 0 <= i < |folders| && folders[i].parent.Some? ==>
          && (exists j :: 0 <= j < |folders| && folders[j].id == folders[i].parent.value)
          && depth(folders[i].parent.value) < depth(folders[i].id))
  }

  lemma {:induction false} ByIdIs(folders: seq<Folder>)
    requires forall i, j :: 0 <= i < j < |folders| ==> folders[i].id != folders[j].id
    ensures forall i :: 0 <= i < |folders| ==> folders[i].id in ById(folders) && ById(folders)[folders[i].id] == folders[i]
    ensures forall k :: k in ById(folders) ==> ById(folders)[k] in folders && ById(folders)[k].id == k
    decreases |folders|
  {
    if folders != [] {
      ByIdIs(folders[..|folders| - 1]);
    }
  }

  lemma {:induction false} PlacedInIs(byId: map<int, Folder>, folders: seq<Folder>, p: int)
    requires forall i, j :: 0 <= i < j < |folders| ==> folders[i].id != folders[j].id
    ensures var kids := PlacedIn(byId, folders, p);
            && (forall f :: f in kids <==> f in folders && Placed(byId, f) && ParentKey(f.parent) == p)
            && (forall i, j :: 0 <= i < j < |kids| ==> kids[i].id != kids[j].id)
    decreases |folders|
  {
    if folders != [] {
      var init := folders[..|folders| - 1];
      PlacedInIs(byId, init, p);
      var kids := PlacedIn(byId, init, p);
      forall i | 0 <= i < |kids|
        ensures kids[i].id != folders[|folders| - 1].id
      {
        assert kids[i] in kids && kids[i] in init;
      }
    }
  }

  // The list the database keeps is indexed as a forest.
  lemma ListIsForest(folders: seq<Folder>, depth: int -> nat, t: Tree)
    requires TreeList(folders, depth)
    requires t.byId == ById(folders) && forall p :: KidsOf(t, p) == PlacedIn(t.byId, folders, p)
    ensures Forest(t, depth)
  {
    ByIdIs(folders);
    forall p
      ensures forall f :: f in KidsOf(t, p) <==> f in folders && Placed(t.byId, f) && ParentKey(f.parent) == p
      ensures forall i, j :: 0 <= i < j < |KidsOf(t, p)| ==> KidsOf(t, p)[i].id != KidsOf(t, p)[j].id
    {
      PlacedInIs(t.byId, folders, p);
    }
    forall k, i | 0 <= i < |KidsOf(t, k)|
      ensures KidsOf(t, k)[i].id in t.byId && t.byId[KidsOf(t, k)[i].id] == KidsOf(t, k)[i] && ParentKey(KidsOf(t, k)[i].parent) == k
    {
      assert KidsOf(t, k)[i] in KidsOf(t, k);
    }
  }
}
