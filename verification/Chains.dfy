/**
 * Doubly linked lists as values: link maps on node identities, one head per list. Lists
 * 0..31 are the ready lists, list 32 is the blocked list; a node is in at most one list.
 */
module Chains {
  import opened Types
  import opened Seqs

  const LISTS: nat := MAX_PRIORITY + 1
  const BLOCKED_LIST: nat := MAX_PRIORITY
  const UNLISTED: nat := LISTS

  datatype Links = Links(
    next: map<Id, Option<Id>>, prev: map<Id, Option<Id>>, heads: seq<Option<Id>>)

  datatype Layout = Layout(place: map<Id, nat>, lists: seq<seq<Id>>)

  function Get(q: seq<Id>, i: int): Option<Id> {
    if 0 <= i < |q| then Some(q[i]) else None
  }

  /** The links of the i-th node of q. */
  ghost predicate Node(k: Links, q: seq<Id>, i: nat)
    requires i < |q|
  {
    && q[i] in k.next && k.next[q[i]] == Get(q, i + 1)
    && q[i] in k.prev && k.prev[q[i]] == Get(q, i - 1)
  }

  /** head starts a null-terminated doubly linked chain through exactly q. */
  ghost predicate Chain(k: Links, q: seq<Id>, head: Option<Id>) {
    head == Get(q, 0) && forall i {:trigger Node(k, q, i)} :: 0 <= i < |q| ==> Node(k, q, i)
  }

  ghost predicate Shape(k: Links, y: Layout) {
    |k.heads| == |y.lists| == LISTS && k.next.Keys == k.prev.Keys == y.place.Keys
  }

  /** List l is a chain without repetition, through exactly the nodes placed there. */
  ghost predicate Held(k: Links, y: Layout, l: nat)
    requires Shape(k, y) && l < LISTS
  {
    && Chain(k, y.lists[l], k.heads[l])
    && NoDup(y.lists[l])
    && forall t :: t in y.lists[l] <==> t in y.place && y.place[t] == l
  }

  /** A node is in one list or in none; in none, it has no links. */
  ghost predicate Placed(k: Links, y: Layout, t: Id)
    requires Shape(k, y) && t in y.place
  {
    y.place[t] <= UNLISTED && (y.place[t] == UNLISTED ==> k.next[t] == None && k.prev[t] == None)
  }

  ghost predicate Good(k: Links, y: Layout) {
    && Shape(k, y)
    && (forall l {:trigger Held(k, y, l)} :: 0 <= l < LISTS ==> Held(k, y, l))
    && (forall t {:trigger Placed(k, y, t)} :: t in y.place ==> Placed(k, y, t))
  }

  /** A chain is untouched by link updates outside it. */
  lemma ChainFrame(k: Links, k': Links, q: seq<Id>, head: Option<Id>)
    requires Chain(k, q, head)
    requires forall t :: t in q ==> t in k.next && t in k.prev && t in k'.next && t in k'.prev
    requires forall t :: t in q ==> k'.next[t] == k.next[t] && k'.prev[t] == k.prev[t]
    ensures Chain(k', q, head)
  {
    forall i | 0 <= i < |q|
      ensures Node(k', q, i)
    {
      assert Node(k, q, i) && q[i] in q;
    }
  }

  /** Only list l and node t changed, and list l is a chain again. */
  lemma Rebuild(k: Links, y: Layout, k': Links, y': Layout, l: nat, t: Id)
    requires Good(k, y) && Shape(k', y') && l < LISTS && t in y.place
    requires y.place[t] == l || y.place[t] == UNLISTED
    requires y'.lists == y.lists[l := y'.lists[l]] && k'.heads == k.heads[l := k'.heads[l]]
    requires Chain(k', y'.lists[l], k'.heads[l]) && NoDup(y'.lists[l])
    requires t in y'.place && y'.place == y.place[t := y'.place[t]] && (y'.place[t] == l || y'.place[t] == UNLISTED)
    requires forall u :: u in y'.lists[l] <==> u in y'.place && y'.place[u] == l
    requires forall u :: u in y.place && y.place[u] != l && u != t ==>
               k'.next[u] == k.next[u] && k'.prev[u] == k.prev[u]
    requires y'.place[t] == UNLISTED ==> k'.next[t] == None && k'.prev[t] == None
    ensures Good(k', y')
  {
    forall m | 0 <= m < LISTS
      ensures Held(k', y', m)
    {
      if m != l {
        assert Held(k, y, m);
        ChainFrame(k, k', y.lists[m], k.heads[m]);
      }
    }
    forall u | u in y'.place
      ensures Placed(k', y', u)
    {
      assert Placed(k, y, u);
    }
  }

  // ---- Insert at the tail ----

  function AppendLinks(k: Links, y: Layout, t: Id, l: nat): Links
    requires Shape(k, y) && l < LISTS
  {
    var q := y.lists[l];
    if q == [] then k.(heads := k.heads[l := Some(t)])
    else k.(next := k.next[q[|q| - 1] := Some(t)], prev := k.prev[t := Some(q[|q| - 1])])
  }

  function AppendLayout(y: Layout, t: Id, l: nat): Layout
    requires l < |y.lists|
  {
    Layout(y.place[t := l], y.lists[l := y.lists[l] + [t]])
  }

  lemma ChainAppend(k: Links, k': Links, q: seq<Id>, head: Option<Id>, t: Id)
    requires Chain(k, q, head) && NoDup(q) && t !in q && t in k.next && t in k.prev
    requires k.next[t] == None && k.prev[t] == None
    requires if q == [] then k'.next == k.next && k'.prev == k.prev
             else k'.next == k.next[q[|q| - 1] := Some(t)] && k'.prev == k.prev[t := Some(q[|q| - 1])]
    ensures Chain(k', q + [t], if q == [] then Some(t) else head)
  {
    var r := q + [t];
    forall i | 0 <= i < |r|
      ensures Node(k', r, i)
    {
      if i < |q| {
        assert Node(k, q, i) && q[i] in q;
      }
    }
  }

  lemma Append(k: Links, y: Layout, t: Id, l: nat)
    requires Good(k, y) && t in y.place && y.place[t] == UNLISTED && l < LISTS
    ensures Good(AppendLinks(k, y, t, l), AppendLayout(y, t, l))
  {
    var k', y' := AppendLinks(k, y, t, l), AppendLayout(y, t, l);
    var q := y.lists[l];
    assert Held(k, y, l) && Placed(k, y, t);
    assert q != [] ==> q[|q| - 1] in q;
    ChainAppend(k, k', q, k.heads[l], t);
    NoDupConcat(q, [t]);
    Rebuild(k, y, k', y', l, t);
  }

  // ---- Insert at the head ----

  function PrependLinks(k: Links, y: Layout, t: Id, l: nat): Links
    requires Shape(k, y) && l < LISTS
  {
    var q := y.lists[l];
    k.(next := k.next[t := k.heads[l]],
       prev := if q == [] then k.prev[t := None] else k.prev[t := None][q[0] := Some(t)],
       heads := k.heads[l := Some(t)])
  }

  function PrependLayout(y: Layout, t: Id, l: nat): Layout
    requires l < |y.lists|
  {
    Layout(y.place[t := l], y.lists[l := [t] + y.lists[l]])
  }

  lemma ChainPrepend(k: Links, k': Links, q: seq<Id>, head: Option<Id>, t: Id)
    requires Chain(k, q, head) && NoDup(q) && t !in q && t in k.next && t in k.prev
    requires k'.next == k.next[t := head]
    requires k'.prev == if q == [] then k.prev[t := None] else k.prev[t := None][q[0] := Some(t)]
    ensures Chain(k', [t] + q, Some(t))
  {
    var r := [t] + q;
    forall i | 0 <= i < |r|
      ensures Node(k', r, i)
    {
      if i > 0 {
        assert Node(k, q, i - 1) && q[i - 1] in q;
      }
    }
  }

  lemma Prepend(k: Links, y: Layout, t: Id, l: nat)
    requires Good(k, y) && t in y.place && y.place[t] == UNLISTED && l < LISTS
    ensures Good(PrependLinks(k, y, t, l), PrependLayout(y, t, l))
  {
    var k', y' := PrependLinks(k, y, t, l), PrependLayout(y, t, l);
    var q := y.lists[l];
    assert Held(k, y, l) && Placed(k, y, t);
    assert q != [] ==> q[0] in q;
    ChainPrepend(k, k', q, k.heads[l], t);
    NoDupConcat([t], q);
    Rebuild(k, y, k', y', l, t);
  }

  // ---- Unlink ----

  function UnlinkLinks(k: Links, y: Layout, t: Id): Links
    requires Shape(k, y) && t in y.place && y.place[t] < LISTS
  {
    var n, p, l := k.next[t], k.prev[t], y.place[t];
    Links((if p.Some? then k.next[p.value := n] else k.next)[t := None],
          (if n.Some? then k.prev[n.value := p] else k.prev)[t := None],
          if p.None? then k.heads[l := n] else k.heads)
  }

  function UnlinkLayout(y: Layout, t: Id): Layout
    requires t in y.place && y.place[t] < |y.lists|
  {
    var l := y.place[t];
    Layout(y.place[t := UNLISTED], y.lists[l := Drop(y.lists[l], {t})])
  }

  /** Where a listed node sits, and what its neighbours are. */
  lemma Position(k: Links, y: Layout, t: Id) returns (i: nat)
    requires Good(k, y) && t in y.place && y.place[t] < LISTS
    ensures i < |y.lists[y.place[t]]| && y.lists[y.place[t]][i] == t
    ensures k.next[t] == Get(y.lists[y.place[t]], i + 1) && k.prev[t] == Get(y.lists[y.place[t]], i - 1)
  {
    var l := y.place[t];
    assert Held(k, y, l);
    i :| 0 <= i < |y.lists[l]| && y.lists[l][i] == t;
    assert Node(k, y.lists[l], i);
  }

  lemma ChainCut(k: Links, k': Links, q: seq<Id>, head: Option<Id>, i: nat)
    requires Chain(k, q, head) && NoDup(q) && i < |q|
    requires q[i] in k.next && q[i] in k.prev
    requires var n, p, t := k.next[q[i]], k.prev[q[i]], q[i];
             && k'.next == (if p.Some? then k.next[p.value := n] else k.next)[t := None]
             && k'.prev == (if n.Some? then k.prev[n.value := p] else k.prev)[t := None]
    ensures Chain(k', q[..i] + q[i + 1..], if i == 0 then k.next[q[i]] else head)
  {
    var r := q[..i] + q[i + 1..];
    forall j | 0 <= j < |r|
      ensures Node(k', r, j)
    {
      var j' := if j < i then j else j + 1;
      assert r[j] == q[j'] && q[j'] != q[i];
      assert Node(k, q, j') && Node(k, q, i);
    }
    assert i < |q| - 1 || i > 0 || r == [];
    assert Node(k, q, i);
  }

  lemma UnlinkChain(k: Links, y: Layout, t: Id)
    requires Good(k, y) && t in y.place && y.place[t] < LISTS
    ensures var k', q' := UnlinkLinks(k, y, t), UnlinkLayout(y, t).lists[y.place[t]];
            Chain(k', q', k'.heads[y.place[t]]) && NoDup(q')
    ensures k.prev[t].Some? ==> k.prev[t].value in y.lists[y.place[t]]
    ensures k.next[t].Some? ==> k.next[t].value in y.lists[y.place[t]]
  {
    var q := y.lists[y.place[t]];
    assert Held(k, y, y.place[t]);
    var i := Position(k, y, t);
    assert (i > 0 ==> q[i - 1] in q) && (i + 1 < |q| ==> q[i + 1] in q);
    DropAt(q, i);
    SelectNoDup(q, {t});
    ChainCut(k, UnlinkLinks(k, y, t), q, k.heads[y.place[t]], i);
  }

  lemma Unlink(k: Links, y: Layout, t: Id)
    requires Good(k, y) && t in y.place && y.place[t] < LISTS
    ensures Good(UnlinkLinks(k, y, t), UnlinkLayout(y, t))
  {
    UnlinkChain(k, y, t);
    Members(y.lists[y.place[t]], {t});
    assert Held(k, y, y.place[t]);
    Rebuild(k, y, UnlinkLinks(k, y, t), UnlinkLayout(y, t), y.place[t], t);
  }

  // ---- Well-formed nets, and the operations on them ----

  datatype RawNet = RawNet(links: Links, layout: Layout)

  ghost const EmptyNet: RawNet :=
    RawNet(Links(map[], map[], seq(LISTS, i => None)), Layout(map[], seq(LISTS, i => [])))

  type Net = n: RawNet | Good(n.links, n.layout) ghost witness EmptyNet

  /** t is known and in no list. */
  ghost predicate Free(n: Net, t: Id) {
    t in n.layout.place && n.layout.place[t] == UNLISTED
  }

  ghost predicate In(n: Net, t: Id, l: nat) {
    l < LISTS && t in n.layout.place && n.layout.place[t] == l
  }

  ghost function Lists(n: Net): (r: seq<seq<Id>>)
    ensures |r| == LISTS
  {
    n.layout.lists
  }

  ghost function ReadyOf(n: Net): ReadyLists {
    Lists(n)[..MAX_PRIORITY]
  }

  ghost function BlockedOf(n: Net): seq<Id> {
    Lists(n)[BLOCKED_LIST]
  }

  ghost function Appended(n: Net, t: Id, l: nat): (r: Net)
    requires Free(n, t) && l < LISTS
    ensures r.links == AppendLinks(n.links, n.layout, t, l)
    ensures r.layout == AppendLayout(n.layout, t, l)
  {
    Append(n.links, n.layout, t, l);
    RawNet(AppendLinks(n.links, n.layout, t, l), AppendLayout(n.layout, t, l))
  }

  ghost function Prepended(n: Net, t: Id, l: nat): (r: Net)
    requires Free(n, t) && l < LISTS
    ensures r.links == PrependLinks(n.links, n.layout, t, l)
    ensures r.layout == PrependLayout(n.layout, t, l)
  {
    Prepend(n.links, n.layout, t, l);
    RawNet(PrependLinks(n.links, n.layout, t, l), PrependLayout(n.layout, t, l))
  }

  ghost function Unlinked(n: Net, t: Id, l: nat): (r: Net)
    requires In(n, t, l)
    ensures r.links == UnlinkLinks(n.links, n.layout, t)
    ensures r.layout == UnlinkLayout(n.layout, t)
  {
    Unlink(n.links, n.layout, t);
    RawNet(UnlinkLinks(n.links, n.layout, t), UnlinkLayout(n.layout, t))
  }

  /** A node that has just come to know: no links, no list. */
  ghost function Joined(n: Net, t: Id): (r: Net)
    requires t !in n.layout.place
    ensures r.links == Links(n.links.next[t := None], n.links.prev[t := None], n.links.heads)
    ensures r.layout == Layout(n.layout.place[t := UNLISTED], n.layout.lists)
  {
    var k := Links(n.links.next[t := None], n.links.prev[t := None], n.links.heads);
    var y := Layout(n.layout.place[t := UNLISTED], n.layout.lists);
    assert Good(k, y) by {
      forall l | 0 <= l < LISTS
        ensures Held(k, y, l)
      {
        assert Held(n.links, n.layout, l);
        ChainFrame(n.links, k, y.lists[l], n.links.heads[l]);
      }
      forall u | u in y.place
        ensures Placed(k, y, u)
      {
        assert u != t ==> Placed(n.links, n.layout, u);
      }
    }
    RawNet(k, y)
  }

  lemma AppendedViews(n: Net, t: Id, p: nat)
    requires Free(n, t) && p < MAX_PRIORITY
    ensures var r := Appended(n, t, p);
            ReadyOf(r) == ReadyOf(n)[p := ReadyOf(n)[p] + [t]] && BlockedOf(r) == BlockedOf(n)
  {
  }

  lemma PrependedViews(n: Net, t: Id)
    requires Free(n, t)
    ensures var r := Prepended(n, t, BLOCKED_LIST);
            ReadyOf(r) == ReadyOf(n) && BlockedOf(r) == [t] + BlockedOf(n)
  {
  }

  lemma UnlinkedViews(n: Net, t: Id, l: nat)
    requires In(n, t, l)
    ensures var r := Unlinked(n, t, l);
            && Free(r, t)
            && if l == BLOCKED_LIST then ReadyOf(r) == ReadyOf(n) && BlockedOf(r) == Drop(BlockedOf(n), {t})
               else ReadyOf(r) == ReadyOf(n)[l := Drop(ReadyOf(n)[l], {t})] && BlockedOf(r) == BlockedOf(n)
  {
  }

  // ---- What a net says about single nodes ----

  lemma NodeAt(n: Net, l: nat, i: nat)
    requires l < LISTS && i < |Lists(n)[l]|
    ensures var q := Lists(n)[l];
            && q[i] in n.links.next && n.links.next[q[i]] == Get(q, i + 1)
            && q[i] in n.links.prev && n.links.prev[q[i]] == Get(q, i - 1)
  {
    assert Held(n.links, n.layout, l);
    assert Node(n.links, Lists(n)[l], i);
  }

  lemma HeadAt(n: Net, l: nat)
    requires l < LISTS
    ensures |n.links.heads| == LISTS && n.links.heads[l] == Get(Lists(n)[l], 0)
    ensures n.links.next.Keys == n.links.prev.Keys == n.layout.place.Keys
  {
    assert Held(n.links, n.layout, l);
  }

  /** Neighbours of a listed node are other nodes; it is the head iff it has no predecessor. */
  lemma Around(n: Net, t: Id, l: nat)
    requires In(n, t, l)
    ensures t in n.links.next && t in n.links.prev && |n.links.heads| == LISTS
    ensures n.links.prev[t] == None <==> n.links.heads[l] == Some(t)
    ensures n.links.prev[t] != Some(t) && n.links.next[t] != Some(t)
    ensures n.links.next[t].Some? ==> n.links.next[t] != n.links.prev[t]
  {
    assert Held(n.links, n.layout, l);
    var i := Position(n.links, n.layout, t);
  }

  lemma FreeLinks(n: Net, t: Id)
    requires Free(n, t)
    ensures t in n.links.next && n.links.next[t] == None && t in n.links.prev && n.links.prev[t] == None
  {
    assert Placed(n.links, n.layout, t);
  }

  /** The head of a list has a successor iff the list has a second element. */
  lemma SecondAt(n: Net, t: Id, l: nat)
    requires l < LISTS && n.links.heads[l] == Some(t)
    ensures |n.links.heads| == LISTS && |Lists(n)[l]| > 0 && Lists(n)[l][0] == t
    ensures t in n.links.next && (n.links.next[t].Some? <==> |Lists(n)[l]| > 1)
    ensures t in n.links.prev && n.links.prev[t] == None
  {
    HeadAt(n, l);
    NodeAt(n, l, 0);
  }

  lemma PlaceRange(n: Net, t: Id)
    requires t in n.layout.place
    ensures n.layout.place[t] <= UNLISTED
  {
    assert Placed(n.links, n.layout, t);
  }

  /** Membership in a list is what the layout's place records. */
  lemma Membership(n: Net, t: Id, l: nat)
    requires l < LISTS
    ensures t in Lists(n)[l] <==> In(n, t, l)
    ensures NoDup(Lists(n)[l])
  {
    assert Held(n.links, n.layout, l);
  }

  /** The priorities whose ready list is non-empty. */
  ghost function Occupied(n: Net): set<nat> {
    set p: nat | p < MAX_PRIORITY && Lists(n)[p] != []
  }

  lemma OccupiedAppended(n: Net, t: Id, p: nat)
    requires Free(n, t) && p < MAX_PRIORITY
    ensures Occupied(Appended(n, t, p)) == Occupied(n) + {p}
    ensures p in Occupied(n) <==> Lists(n)[p] != []
  {
    var n' := Appended(n, t, p);
    assert Lists(n') == Lists(n)[p := Lists(n)[p] + [t]];
  }

  lemma OccupiedUnlinked(n: Net, t: Id, p: nat)
    requires In(n, t, p) && p < MAX_PRIORITY
    ensures var n' := Unlinked(n, t, p);
            Occupied(n') == if Lists(n')[p] == [] then Occupied(n) - {p} else Occupied(n)
  {
    Membership(n, t, p);
    var n' := Unlinked(n, t, p);
    assert Lists(n') == Lists(n)[p := Drop(Lists(n)[p], {t})];
  }

  lemma OccupiedBlocked(n: Net, t: Id)
    ensures Free(n, t) ==> Occupied(Prepended(n, t, BLOCKED_LIST)) == Occupied(n)
    ensures In(n, t, BLOCKED_LIST) ==> Occupied(Unlinked(n, t, BLOCKED_LIST)) == Occupied(n)
  {
  }

  // ---- What well-formedness amounts to ----

  /** The neighbour links mirror each other, whichever lists the nodes are in. */
  lemma LinksMirror(n: Net, t: Id, u: Id)
    requires t in n.layout.place && u in n.layout.place
    ensures t in n.links.next && u in n.links.prev
    ensures n.links.next[t] == Some(u) <==> n.links.prev[u] == Some(t)
  {
    PlaceRange(n, t);
    PlaceRange(n, u);
    LinkedTo(n, t, u);
    LinkedFrom(n, t, u);
  }

  lemma LinkedTo(n: Net, t: Id, u: Id)
    requires t in n.layout.place && u in n.layout.place && n.layout.place[t] <= UNLISTED
    ensures t in n.links.next && u in n.links.prev
    ensures n.links.next[t] == Some(u) ==> n.links.prev[u] == Some(t)
  {
    if n.layout.place[t] == UNLISTED {
      FreeLinks(n, t);
    } else {
      var i := Position(n.links, n.layout, t);
      var q := Lists(n)[n.layout.place[t]];
      if i + 1 < |q| {
        NodeAt(n, n.layout.place[t], i + 1);
      }
    }
    HeadAt(n, 0);
  }

  lemma LinkedFrom(n: Net, t: Id, u: Id)
    requires t in n.layout.place && u in n.layout.place && n.layout.place[u] <= UNLISTED
    ensures t in n.links.next && u in n.links.prev
    ensures n.links.prev[u] == Some(t) ==> n.links.next[t] == Some(u)
  {
    if n.layout.place[u] == UNLISTED {
      FreeLinks(n, u);
    } else {
      var i := Position(n.links, n.layout, u);
      var q := Lists(n)[n.layout.place[u]];
      if i > 0 {
        NodeAt(n, n.layout.place[u], i - 1);
      }
    }
    HeadAt(n, 0);
  }

  /** No node is in two of the 33 lists, and each head has no predecessor. */
  lemma ListsApart(n: Net, t: Id, l: nat, m: nat)
    requires l < LISTS && m < LISTS && t in Lists(n)[l] && t in Lists(n)[m]
    ensures l == m && |n.links.heads| == LISTS && t in n.links.prev
    ensures n.links.heads[l] == Some(t) <==> n.links.prev[t] == None
  {
    Membership(n, t, l);
    Membership(n, t, m);
    Around(n, t, l);
  }

  /** The node that is k links behind t. */
  function Follow(next: map<Id, Option<Id>>, t: Option<Id>, k: nat): Option<Id>
    decreases k
  {
    if k == 0 || t.None? then t
    else if t.value in next then Follow(next, next[t.value], k - 1)
    else None
  }

  /** Following next from any node of a list runs through its rest and ends in null: no cycle. */
  lemma {:induction false} WalkEnds(n: Net, l: nat, i: nat, k: nat)
    requires l < LISTS && i < |Lists(n)[l]|
    ensures Follow(n.links.next, Some(Lists(n)[l][i]), k) == Get(Lists(n)[l], i + k)
    decreases k
  {
    if k > 0 {
      NodeAt(n, l, i);
      if i + 1 < |Lists(n)[l]| {
        WalkEnds(n, l, i + 1, k - 1);
      }
    }
  }

  // ---- Removing a node from a list it is not filed under ----

  /** The pointer surgery of scheduler_remove_task on node t of priority p, whatever list t is in. */
  function RemoveSurgery(k: Links, t: Id, p: Prio): Links
    requires |k.heads| == LISTS && t in k.next && t in k.prev
  {
    var n, v := k.next[t], k.prev[t];
    Links((if v.Some? then k.next[v.value := n] else k.next)[t := None],
          (if n.Some? then k.prev[n.value := v] else k.prev)[t := None],
          if k.heads[p] == Some(t) then k.heads[p := n] else k.heads)
  }

  lemma GoodHead(k: Links, y: Layout, l: nat)
    requires Good(k, y) && l < LISTS
    ensures |k.heads| == |y.lists| == LISTS && k.heads[l] == Get(y.lists[l], 0)
  {
    assert Held(k, y, l);
  }

  /**
   * Suspending or deleting a blocked task goes through this surgery, which never touches the
   * head of the blocked list. It takes the task off that list properly exactly when the task
   * is not the first on it.
   */
  lemma RemoveBlocked(n: Net, t: Id, p: Prio)
    requires In(n, t, BLOCKED_LIST)
    ensures |n.links.heads| == LISTS && t in n.links.next && t in n.links.prev
    ensures Good(RemoveSurgery(n.links, t, p), UnlinkLayout(n.layout, t)) <==> n.links.heads[BLOCKED_LIST] != Some(t)
  {
    var k, y := n.links, n.layout;
    Around(n, t, BLOCKED_LIST);
    HeadAt(n, p);
    Membership(n, t, p);
    var k', y' := RemoveSurgery(k, t, p), UnlinkLayout(y, t);
    if k.heads[BLOCKED_LIST] == Some(t) {
      Members(Lists(n)[BLOCKED_LIST], {t});
      assert Get(y'.lists[BLOCKED_LIST], 0) != Some(t);
      assert k'.heads[BLOCKED_LIST] == Some(t);
      if Good(k', y') {
        GoodHead(k', y', BLOCKED_LIST);
      }
    } else {
      Unlink(k, y, t);
      assert k' == UnlinkLinks(k, y, t);
    }
  }

  // ---- Inserting a node that is listed already ----

  /** The node that the walk of ready_insert_tail stops at, in at most n moves. */
  function Tail(next: map<Id, Option<Id>>, t: Id, n: nat): Id
    decreases n
  {
    if n == 0 || t !in next || next[t].None? then t else Tail(next, next[t].value, n - 1)
  }

  /** The pointer surgery of ready_insert_tail on node t, whatever list t is in. */
  function InsertSurgery(k: Links, t: Id, p: Prio, n: nat): Links
    requires |k.heads| == LISTS
  {
    var k1 := k.(next := k.next[t := None], prev := k.prev[t := None]);
    match k.heads[p]
    case None => k1.(heads := k.heads[p := Some(t)])
    case Some(head) =>
      var last := Tail(k1.next, head, n);
      k1.(next := k1.next[last := Some(t)], prev := k1.prev[t := Some(last)])
  }

  lemma {:induction false} TailIs(n: Net, l: nat, i: nat, j: nat, moves: nat)
    requires l < LISTS && j <= i < |Lists(n)[l]| && i - j <= moves
    ensures Tail(n.links.next[Lists(n)[l][i] := None], Lists(n)[l][j], moves) == Lists(n)[l][i]
    decreases i - j
  {
    var q := Lists(n)[l];
    NodeAt(n, l, j);
    Membership(n, q[i], l);
    if j < i {
      TailIs(n, l, i, j + 1, moves - 1);
    }
  }

  /**
   * Adding a task to the ready list it is in already makes its node its own successor: the
   * walk that looks for the end of this list, at the next insertion, comes to no end.
   */
  lemma InsertTwice(n: Net, t: Id, p: Prio, moves: nat, further: nat)
    requires In(n, t, p) && |Lists(n)[p]| <= moves
    ensures |n.links.heads| == LISTS
    ensures var k := InsertSurgery(n.links, t, p, moves);
            t in k.next && k.next[t] == Some(t) && Follow(k.next, Some(t), further) == Some(t)
  {
    var q := Lists(n)[p];
    HeadAt(n, p);
    Membership(n, t, p);
    var i :| 0 <= i < |q| && q[i] == t;
    TailIs(n, p, i, 0, moves);
    SelfLoop(InsertSurgery(n.links, t, p, moves).next, t, further);
  }

  /** On a node in no list the surgery is the insertion at the tail. */
  lemma InsertFree(n: Net, t: Id, p: Prio, moves: nat)
    requires Free(n, t) && |Lists(n)[p]| <= moves
    ensures |n.links.heads| == LISTS && InsertSurgery(n.links, t, p, moves) == Appended(n, t, p).links
  {
    var k, q := n.links, Lists(n)[p];
    HeadAt(n, p);
    FreeLinks(n, t);
    assert k.next[t := None] == k.next && k.prev[t := None] == k.prev;
    if q != [] {
      var last := |q| - 1;
      NodeAt(n, p, last);
      assert k.next[q[last] := None] == k.next;
      TailIs(n, p, last, 0, moves);
    }
  }

  /**
   * scheduler_set_priority of a task that was ready when its state was tested but is blocked
   * by now: removal from ready list p, addition to ready list to. That moves the task from the
   * blocked list to its new ready list properly exactly when it is not the first on the
   * blocked list. Otherwise it is in both, and the rest of the blocked list is cut off.
   */
  lemma RankBlocked(n: Net, t: Id, p: Prio, to: Prio, moves: nat)
    requires In(n, t, BLOCKED_LIST) && |Lists(n)[to]| <= moves
    ensures |n.links.heads| == LISTS && t in n.links.next && t in n.links.prev
    ensures var k := RemoveSurgery(n.links, t, p);
            && |k.heads| == LISTS
            && var r, y := InsertSurgery(k, t, to, moves), AppendLayout(UnlinkLayout(n.layout, t), t, to);
               && (Good(r, y) <==> n.links.heads[BLOCKED_LIST] != Some(t))
               && (n.links.heads[BLOCKED_LIST] == Some(t) ==>
                     && t in k.next && k.next[t] == None && r.heads[BLOCKED_LIST] == Some(t)
                     && t in r.next && t in r.prev
                     && if r.prev[t].None? then r.heads[to] == Some(t)
                        else r.prev[t].value in r.next && r.next[r.prev[t].value] == Some(t))
  {
    var k, y := RemoveSurgery(n.links, t, p), UnlinkLayout(n.layout, t);
    HeadAt(n, p);
    Membership(n, t, p);
    RemoveBlocked(n, t, p);
    if n.links.heads[BLOCKED_LIST] == Some(t) {
      Members(Lists(n)[BLOCKED_LIST], {t});
      var r, z := InsertSurgery(k, t, to, moves), AppendLayout(y, t, to);
      assert Get(z.lists[BLOCKED_LIST], 0) != Some(t);
      if Good(r, z) {
        GoodHead(r, z, BLOCKED_LIST);
      }
    } else {
      var u := Unlinked(n, t, BLOCKED_LIST);
      Around(n, t, BLOCKED_LIST);
      assert k == u.links;
      InsertFree(u, t, to, moves);
      var a := Appended(u, t, to);
    }
  }

  lemma {:induction false} SelfLoop(next: map<Id, Option<Id>>, t: Id, k: nat)
    requires t in next && next[t] == Some(t)
    ensures Follow(next, Some(t), k) == Some(t)
    decreases k
  {
    if k > 0 {
      SelfLoop(next, t, k - 1);
    }
  }
}
