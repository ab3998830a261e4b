/** The multi-computer arrangement (crates/ms-config/src/layout.rs): an edge list
    that must stay a symmetric matching of (device, edge) pairs. */
module Layout {
  import opened Messages

  datatype ComputerNode = ComputerNode(
    deviceId: DeviceId, displayName: string, enabled: bool, canvasX: real, canvasY: real)

  datatype EdgeLink = EdgeLink(
    from: DeviceId, fromEdge: ScreenEdge, to: DeviceId, toEdge: ScreenEdge,
    boundaryStart: real, boundaryEnd: real)
  {
    /** The same physical boundary, seen from the other device. */
    function Mirror(): EdgeLink {
      EdgeLink(to, toEdge, from, fromEdge, boundaryStart, boundaryEnd)
    }

    predicate LeavesAt(device: DeviceId, edge: ScreenEdge) {
      from == device && fromEdge == edge
    }

    predicate Touches(device: DeviceId) {
      from == device || to == device
    }
  }

  datatype LayoutError =
    | UnknownDevice(device: DeviceId)
    | EdgeAlreadyLinked(owner: DeviceId, edge: ScreenEdge)
    | SelfLink
    | InvalidBoundary

  datatype Outcome = Done | Refused(error: LayoutError)

  datatype Arrangement = Arrangement(nodes: map<DeviceId, ComputerNode>, edges: seq<EdgeLink>)

  const EMPTY := Arrangement(map[], [])

  function OppositeEdge(edge: ScreenEdge): ScreenEdge {
    match edge
    case Left => Right
    case Right => Left
    case Top => Bottom
    case Bottom => Top
  }

  /** `Vec::retain`. */
  function Retain(edges: seq<EdgeLink>, keep: EdgeLink -> bool): (kept: seq<EdgeLink>)
    ensures forall l :: l in kept <==> l in edges && keep(l)
  {
    if edges == [] then []
    else if keep(edges[0]) then [edges[0]] + Retain(edges[1..], keep)
    else Retain(edges[1..], keep)
  }

  /** `Iterator::find`: the first match, so nothing before it matches. */
  function Find(edges: seq<EdgeLink>, wanted: EdgeLink -> bool): (found: Option<EdgeLink>)
    ensures found.Some? ==> found.value in edges && wanted(found.value)
    ensures found.None? ==> forall l :: l in edges ==> !wanted(l)
    ensures found.Some? ==>
              exists i :: 0 <= i < |edges| && edges[i] == found.value && forall j :: 0 <= j < i ==> !wanted(edges[j])
  {
    if edges == [] then None
    else if wanted(edges[0]) then Some(edges[0])
    else
      var rest := Find(edges[1..], wanted);
      assert rest.Some? ==>
          exists i :: 0 <= i < |edges| && edges[i] == rest.value && forall j :: 0 <= j < i ==> !wanted(edges[j]) by {
        if rest.Some? {
          var k :| 0 <= k < |edges[1..]| && edges[1..][k] == rest.value && forall j :: 0 <= j < k ==> !wanted(edges[1..][j]);
          assert edges[k + 1] == rest.value;
          assert forall j :: 0 <= j < k + 1 ==> !wanted(edges[j]) by {
            forall j | 0 <= j < k + 1 ensures !wanted(edges[j]) {
              if j > 0 { assert edges[j] == edges[1..][j - 1]; }
            }
          }
        }
      }
      rest
  }

  predicate Enabled(a: Arrangement, device: DeviceId) {
    device in a.nodes && a.nodes[device].enabled
  }

  predicate Live(link: EdgeLink, position: real) {
    link.boundaryStart <= position <= link.boundaryEnd
  }

  // ----- The tests the operations apply to each entry -----

  function AwayFrom(device: DeviceId): EdgeLink -> bool {
    (l: EdgeLink) => !l.Touches(device)
  }

  function Leaving(device: DeviceId, edge: ScreenEdge): EdgeLink -> bool {
    (l: EdgeLink) => l.LeavesAt(device, edge)
  }

  function NotLeaving(device: DeviceId, edge: ScreenEdge): EdgeLink -> bool {
    (l: EdgeLink) => !l.LeavesAt(device, edge)
  }

  function NotReturning(device: DeviceId, edge: ScreenEdge, back: DeviceId): EdgeLink -> bool {
    (l: EdgeLink) => !(l.LeavesAt(device, edge) && l.to == back)
  }

  // ----- The operations, as functions of the whole arrangement -----

  function AddDevice(a: Arrangement, node: ComputerNode): Arrangement {
    a.(nodes := a.nodes[node.deviceId := node])
  }

  function RemoveDevice(a: Arrangement, device: DeviceId): Arrangement {
    Arrangement(a.nodes - {device}, Retain(a.edges, AwayFrom(device)))
  }

  function SetEnabled(a: Arrangement, device: DeviceId, enabled: bool): (Arrangement, Outcome) {
    if device !in a.nodes then (a, Refused(UnknownDevice(device)))
    else (a.(nodes := a.nodes[device := a.nodes[device].(enabled := enabled)]), Done)
  }

  predicate EdgeTaken(a: Arrangement, device: DeviceId, edge: ScreenEdge) {
    exists l :: l in a.edges && l.LeavesAt(device, edge)
  }

  /** Why linking is refused, in the order the source checks. */
  function LinkObstacle(a: Arrangement, link: EdgeLink): Option<LayoutError> {
    if link.from == link.to then Some(SelfLink)
    else if link.from !in a.nodes then Some(UnknownDevice(link.from))
    else if link.to !in a.nodes then Some(UnknownDevice(link.to))
    else if !(0.0 <= link.boundaryStart < link.boundaryEnd) || link.boundaryEnd > 1.0 then Some(InvalidBoundary)
    else if EdgeTaken(a, link.from, link.fromEdge) then Some(EdgeAlreadyLinked(link.from, link.fromEdge))
    else if EdgeTaken(a, link.to, link.toEdge) then Some(EdgeAlreadyLinked(link.to, link.toEdge))
    else None
  }

  function LinkEdges(a: Arrangement, link: EdgeLink): (Arrangement, Outcome) {
    match LinkObstacle(a, link)
    case Some(error) => (a, Refused(error))
    case None => (a.(edges := a.edges + [link, link.Mirror()]), Done)
  }

  function UnlinkEdge(a: Arrangement, from: DeviceId, edge: ScreenEdge): Arrangement {
    var forwardGone := Retain(a.edges, NotLeaving(from, edge));
    match Find(a.edges, Leaving(from, edge))
    case None => a.(edges := forwardGone)
    case Some(hit) =>
      a.(edges := Retain(forwardGone, NotReturning(hit.to, hit.toEdge, from)))
  }

  function Resolve(a: Arrangement, from: DeviceId, edge: ScreenEdge, position: real): Option<EdgeLink> {
    if !Enabled(a, from) then None
    else Find(a.edges, (l: EdgeLink) => l.LeavesAt(from, edge) && Enabled(a, l.to) && Live(l, position))
  }

  // ----- The invariant -----

  /** No two entries leave the same edge of the same device. */
  ghost predicate UniquelyKeyed(edges: seq<EdgeLink>) {
    forall i, j :: 0 <= i < j < |edges| ==> !edges[j].LeavesAt(edges[i].from, edges[i].fromEdge)
  }

  ghost predicate LinkSound(a: Arrangement, l: EdgeLink) {
    && l.from in a.nodes
    && l.to in a.nodes
    && l.from != l.to
    && 0.0 <= l.boundaryStart < l.boundaryEnd <= 1.0
    && l.Mirror() in a.edges
  }

  ghost predicate WellFormed(a: Arrangement) {
    && UniquelyKeyed(a.edges)
    && forall l {:trigger LinkSound(a, l)} :: l in a.edges ==> LinkSound(a, l)
  }

  // ----- Facts about the two list primitives -----

  lemma {:induction false} RetainUniquelyKeyed(edges: seq<EdgeLink>, keep: EdgeLink -> bool)
    requires UniquelyKeyed(edges)
    ensures UniquelyKeyed(Retain(edges, keep))
  {
    if edges != [] {
      var tail := edges[1..];
      assert UniquelyKeyed(tail);
      RetainUniquelyKeyed(tail, keep);
      forall l | l in Retain(tail, keep)
        ensures !l.LeavesAt(edges[0].from, edges[0].fromEdge)
      {
        var j :| 0 <= j < |tail| && tail[j] == l;
        assert edges[j + 1] == l;
      }
    }
  }

  /** Dropping nothing from the front part and everything from the back part. */
  lemma {:induction false} RetainSplit(front: seq<EdgeLink>, back: seq<EdgeLink>, keep: EdgeLink -> bool)
    ensures Retain(front + back, keep) == Retain(front, keep) + Retain(back, keep)
  {
    if front == [] {
      assert front + back == back;
    } else {
      assert (front + back)[1..] == front[1..] + back;
      RetainSplit(front[1..], back, keep);
    }
  }

  lemma {:induction false} RetainAll(edges: seq<EdgeLink>, keep: EdgeLink -> bool)
    requires forall l :: l in edges ==> keep(l)
    ensures Retain(edges, keep) == edges
  {
    if edges != [] {
      RetainAll(edges[1..], keep);
    }
  }

  /** With one entry per key, being in the list is being the entry found. */
  lemma UniqueEntry(edges: seq<EdgeLink>, l: EdgeLink, m: EdgeLink)
    requires UniquelyKeyed(edges) && l in edges && m in edges
    requires l.LeavesAt(m.from, m.fromEdge)
    ensures l == m
  {
    var i :| 0 <= i < |edges| && edges[i] == l;
    var j :| 0 <= j < |edges| && edges[j] == m;
    assert edges[j].LeavesAt(edges[i].from, edges[i].fromEdge);
    assert i == j;
  }

  /** On a well-formed arrangement `Resolve` is a plain lookup: it answers `l`
      exactly when `l` is the entry for that edge, both ends are known and enabled, and
      the position is on the live part, its two ends included. */
  lemma {:induction false} ResolveIsLookup(a: Arrangement, from: DeviceId, edge: ScreenEdge, position: real, l: EdgeLink)
    requires WellFormed(a)
    ensures Resolve(a, from, edge, position) == Some(l)
       <==> l in a.edges && l.from == from && l.fromEdge == edge
            && from in a.nodes && a.nodes[from].enabled && l.to in a.nodes && a.nodes[l.to].enabled
            && l.boundaryStart <= position <= l.boundaryEnd
  {
    var found := Resolve(a, from, edge, position);
    if l in a.edges && l.LeavesAt(from, edge) && Enabled(a, from) && Enabled(a, l.to) && Live(l, position) {
      if found.Some? {
        UniqueEntry(a.edges, found.value, l);
      }
    }
  }

  // ----- Every operation keeps the invariant -----

  lemma AddKeepsWellFormed(a: Arrangement, node: ComputerNode)
    requires WellFormed(a)
    ensures WellFormed(AddDevice(a, node))
  {
    forall l | l in a.edges ensures LinkSound(AddDevice(a, node), l) {
      assert LinkSound(a, l);
    }
  }

  lemma SetEnabledKeepsWellFormed(a: Arrangement, device: DeviceId, enabled: bool)
    requires WellFormed(a)
    ensures WellFormed(SetEnabled(a, device, enabled).0)
  {
    var b := SetEnabled(a, device, enabled).0;
    forall l | l in b.edges ensures LinkSound(b, l) {
      assert LinkSound(a, l);
    }
  }

  lemma RemoveKeepsWellFormed(a: Arrangement, device: DeviceId)
    requires WellFormed(a)
    ensures WellFormed(RemoveDevice(a, device))
  {
    var b := RemoveDevice(a, device);
    RetainUniquelyKeyed(a.edges, AwayFrom(device));
    forall l | l in b.edges ensures LinkSound(b, l) {
      assert LinkSound(a, l);
    }
  }

  lemma LinkKeepsWellFormed(a: Arrangement, link: EdgeLink)
    requires WellFormed(a)
    ensures WellFormed(LinkEdges(a, link).0)
  {
    if LinkObstacle(a, link).None? {
      var b := LinkEdges(a, link).0;
      assert link in b.edges && link.Mirror() in b.edges by {
        assert b.edges[|a.edges|] == link && b.edges[|a.edges| + 1] == link.Mirror();
      }
      forall l | l in b.edges ensures LinkSound(b, l) {
        if l in a.edges {
          assert LinkSound(a, l);
        } else {
          assert l == link || l == link.Mirror();
          assert link.Mirror().Mirror() == link;
        }
      }
      forall i, j | 0 <= i < j < |b.edges|
        ensures !b.edges[j].LeavesAt(b.edges[i].from, b.edges[i].fromEdge)
      {
        if i < |a.edges| { assert b.edges[i] == a.edges[i] && a.edges[i] in a.edges; }
        if j < |a.edges| { assert b.edges[j] == a.edges[j]; }
      }
    }
  }

  /** In a well-formed arrangement unlinking drops one entry and its mirror, no more. */
  lemma UnlinkDropsOnePair(a: Arrangement, from: DeviceId, edge: ScreenEdge, l: EdgeLink)
    requires WellFormed(a)
    ensures UnlinkEdge(a, from, edge).nodes == a.nodes
    ensures l in UnlinkEdge(a, from, edge).edges
       <==> l in a.edges && !l.LeavesAt(from, edge) && !l.Mirror().LeavesAt(from, edge)
  {
    var hit := Find(a.edges, Leaving(from, edge));
    if l in a.edges && !l.LeavesAt(from, edge) {
      assert LinkSound(a, l);
      if hit.Some? {
        var h := hit.value;
        assert LinkSound(a, h);
        if l.Mirror().LeavesAt(from, edge) {
          UniqueEntry(a.edges, l.Mirror(), h);
          assert l.Mirror().Mirror() == l;
        } else if l.LeavesAt(h.to, h.toEdge) {
          UniqueEntry(a.edges, l, h.Mirror());
        }
      }
    }
  }

  lemma UnlinkKeepsWellFormed(a: Arrangement, from: DeviceId, edge: ScreenEdge)
    requires WellFormed(a)
    ensures WellFormed(UnlinkEdge(a, from, edge))
  {
    var b := UnlinkEdge(a, from, edge);
    var keep := NotLeaving(from, edge);
    RetainUniquelyKeyed(a.edges, keep);
    var hit := Find(a.edges, Leaving(from, edge));
    if hit.Some? {
      RetainUniquelyKeyed(Retain(a.edges, keep), NotReturning(hit.value.to, hit.value.toEdge, from));
    }
    forall l | l in b.edges ensures LinkSound(b, l) {
      UnlinkDropsOnePair(a, from, edge, l);
      assert LinkSound(a, l);
      UnlinkDropsOnePair(a, from, edge, l.Mirror());
      assert l.Mirror().Mirror() == l;
    }
  }

  // ----- Whole histories -----

  datatype Edit =
    | Add(node: ComputerNode)
    | Remove(device: DeviceId)
    | Enable(target: DeviceId, enabled: bool)
    | Link(link: EdgeLink)
    | Unlink(from: DeviceId, edge: ScreenEdge)

  function ApplyEdit(a: Arrangement, edit: Edit): Arrangement {
    match edit
    case Add(node) => AddDevice(a, node)
    case Remove(device) => RemoveDevice(a, device)
    case Enable(target, enabled) => SetEnabled(a, target, enabled).0
    case Link(link) => LinkEdges(a, link).0
    case Unlink(from, edge) => UnlinkEdge(a, from, edge)
  }

  function History(edits: seq<Edit>): Arrangement {
    if edits == [] then EMPTY else ApplyEdit(History(edits[..|edits| - 1]), edits[|edits| - 1])
  }

  lemma {:induction false} HistoryWellFormed(edits: seq<Edit>)
    ensures WellFormed(History(edits))
  {
    if edits != [] {
      var before := History(edits[..|edits| - 1]);
      HistoryWellFormed(edits[..|edits| - 1]);
      match edits[|edits| - 1]
      case Add(node) => AddKeepsWellFormed(before, node);
      case Remove(device) => RemoveKeepsWellFormed(before, device);
      case Enable(target, enabled) => SetEnabledKeepsWellFormed(before, target, enabled);
      case Link(link) => LinkKeepsWellFormed(before, link);
      case Unlink(from, edge) => UnlinkKeepsWellFormed(before, from, edge);
    }
  }

  // ----- Main results -----

  /** Crossing back over the boundary just crossed returns to where one came from,
      at any position that is live on that boundary. */
  lemma ResolveInvolution(a: Arrangement, from: DeviceId, edge: ScreenEdge, position: real, back: real)
    requires WellFormed(a)
    requires Resolve(a, from, edge, position).Some?
    requires Live(Resolve(a, from, edge, position).value, back)
    ensures var l := Resolve(a, from, edge, position).value;
            && l.from == from && l.fromEdge == edge && l.to != from
            && Resolve(a, l.to, l.toEdge, back) == Some(l.Mirror())
  {
    var l := Resolve(a, from, edge, position).value;
    assert LinkSound(a, l);
    ResolveIsLookup(a, l.to, l.toEdge, back, l.Mirror());
  }

  /** The same, after any history of edits from the empty arrangement. */
  lemma {:induction false} HistoryResolveInvolution(edits: seq<Edit>, from: DeviceId, edge: ScreenEdge, position: real)
    requires Resolve(History(edits), from, edge, position).Some?
    ensures var l := Resolve(History(edits), from, edge, position).value;
            Resolve(History(edits), l.to, l.toEdge, position) == Some(l.Mirror())
  {
    HistoryWellFormed(edits);
    ResolveInvolution(History(edits), from, edge, position, position);
  }

  /** A fresh link is undone, list order included, by unlinking it from either end. */
  lemma UnlinkUndoesLink(a: Arrangement, link: EdgeLink)
    requires WellFormed(a)
    requires LinkEdges(a, link).1 == Done
    ensures UnlinkEdge(LinkEdges(a, link).0, link.from, link.fromEdge) == a
    ensures UnlinkEdge(LinkEdges(a, link).0, link.to, link.toEdge) == a
  {
    UnlinkRestores(a, link, link);
    UnlinkRestores(a, link, link.Mirror());
  }

  lemma UnlinkRestores(a: Arrangement, link: EdgeLink, end: EdgeLink)
    requires link.from != link.to && (end == link || end == link.Mirror())
    requires forall l :: l in a.edges ==> !l.LeavesAt(end.from, end.fromEdge) && !l.LeavesAt(end.to, end.toEdge)
    ensures UnlinkEdge(a.(edges := a.edges + [link, link.Mirror()]), end.from, end.fromEdge) == a
  {
    var keepBack := NotReturning(end.to, end.toEdge, end.from);
    FindFreshPair(a.edges, link, end);
    RetainFreshPair(a.edges, link, end);
    RetainSplit(a.edges, [end.Mirror()], keepBack);
    RetainAll(a.edges, keepBack);
    assert Retain([end.Mirror()], keepBack) == [];
  }

  lemma FindFreshPair(edges: seq<EdgeLink>, link: EdgeLink, end: EdgeLink)
    requires link.from != link.to && (end == link || end == link.Mirror())
    requires forall l :: l in edges ==> !l.LeavesAt(end.from, end.fromEdge)
    ensures Find(edges + [link, link.Mirror()], Leaving(end.from, end.fromEdge)) == Some(end)
  {
    var all := edges + [link, link.Mirror()];
    assert all[|edges|] == link && all[|edges| + 1] == link.Mirror();
    assert end in all && Leaving(end.from, end.fromEdge)(end);
  }

  lemma RetainFreshPair(edges: seq<EdgeLink>, link: EdgeLink, end: EdgeLink)
    requires end == link || end == link.Mirror()
    requires link.from != link.to
    requires forall l :: l in edges ==> !l.LeavesAt(end.from, end.fromEdge)
    ensures Retain(edges + [link, link.Mirror()], NotLeaving(end.from, end.fromEdge)) == edges + [end.Mirror()]
  {
    var keep := NotLeaving(end.from, end.fromEdge);
    RetainSplit(edges, [link, link.Mirror()], keep);
    RetainAll(edges, keep);
    RetainSplit([link], [link.Mirror()], keep);
    assert [link] + [link.Mirror()] == [link, link.Mirror()];
    assert Retain([link], keep) == if end == link then [] else [link];
    assert Retain([link.Mirror()], keep) == if end == link then [link.Mirror()] else [];
  }

  /** Removing a device leaves every answer that involves two other devices as it was,
      and answers nothing for the removed one. */
  lemma {:induction false} RemoveFrame(a: Arrangement, device: DeviceId, from: DeviceId, edge: ScreenEdge, position: real)
    requires WellFormed(a)
    ensures var before := Resolve(a, from, edge, position);
            Resolve(RemoveDevice(a, device), from, edge, position)
            == if from == device || (before.Some? && before.value.to == device) then None else before
  {
    var b := RemoveDevice(a, device);
    RemoveKeepsWellFormed(a, device);
    var before := Resolve(a, from, edge, position);
    var after := Resolve(b, from, edge, position);
    if before.Some? { ResolveIsLookup(b, from, edge, position, before.value); }
    if after.Some? { ResolveIsLookup(a, from, edge, position, after.value); }
  }

  /** Unlinking changes the answers of the two edges it joined, and no others. */
  lemma UnlinkFrame(a: Arrangement, device: DeviceId, unlinked: ScreenEdge,
                    from: DeviceId, edge: ScreenEdge, position: real)
    requires WellFormed(a)
    ensures var before := Resolve(a, from, edge, position);
            Resolve(UnlinkEdge(a, device, unlinked), from, edge, position)
            == if before.Some? && (before.value.LeavesAt(device, unlinked) || before.value.Mirror().LeavesAt(device, unlinked))
            then None else before
  {
    var b := UnlinkEdge(a, device, unlinked);
    UnlinkKeepsWellFormed(a, device, unlinked);
    var before := Resolve(a, from, edge, position);
    var after := Resolve(b, from, edge, position);
    if before.Some? {
      UnlinkDropsOnePair(a, device, unlinked, before.value);
      ResolveIsLookup(b, from, edge, position, before.value);
    }
    if after.Some? {
      UnlinkDropsOnePair(a, device, unlinked, after.value);
      ResolveIsLookup(a, from, edge, position, after.value);
    }
  }

  // ----- What each operation answers and leaves alone -----

  /** Which links are refused, and why: the first obstacle of these is named, and a
      refused link changes nothing. */
  lemma LinkDecision(a: Arrangement, link: EdgeLink)
    ensures var (b, outcome) := LinkEdges(a, link);
            var fromTaken := exists l :: l in a.edges && l.from == link.from && l.fromEdge == link.fromEdge;
            var toTaken := exists l :: l in a.edges && l.from == link.to && l.fromEdge == link.toEdge;
            var bounded := 0.0 <= link.boundaryStart < link.boundaryEnd <= 1.0;
            var known := link.from in a.nodes && link.to in a.nodes;
            && (outcome == Done <==> link.from != link.to && known && bounded && !fromTaken && !toTaken)
            && (outcome == Refused(SelfLink) <==> link.from == link.to)
            && (link.from != link.to && !known ==>
                  outcome == Refused(UnknownDevice(if link.from in a.nodes then link.to else link.from)))
            && (outcome == Refused(InvalidBoundary) <==> link.from != link.to && known && !bounded)
            && (link.from != link.to && known && bounded && (fromTaken || toTaken) ==>
                  outcome == Refused(if fromTaken then EdgeAlreadyLinked(link.from, link.fromEdge)
                                     else EdgeAlreadyLinked(link.to, link.toEdge)))
            && (outcome != Done ==> b == a)
  {
    assert EdgeTaken(a, link.from, link.fromEdge)
      <==> exists l :: l in a.edges && l.from == link.from && l.fromEdge == link.fromEdge;
    assert EdgeTaken(a, link.to, link.toEdge)
      <==> exists l :: l in a.edges && l.from == link.to && l.fromEdge == link.toEdge;
  }

  /** An accepted link is one entry there and one back over the same boundary. */
  lemma LinkEntries(a: Arrangement, link: EdgeLink, l: EdgeLink)
    requires LinkEdges(a, link).1 == Done
    ensures var b := LinkEdges(a, link).0;
            && b.nodes == a.nodes
            && (l in b.edges <==>
                || l in a.edges
                || l == link
                || l == EdgeLink(link.to, link.toEdge, link.from, link.fromEdge, link.boundaryStart, link.boundaryEnd))
  {
    var b := LinkEdges(a, link).0;
    assert b.edges[|a.edges|] == link && b.edges[|a.edges| + 1] == link.Mirror();
  }

  /** An accepted link between enabled devices leads there and back on its live part and
      nowhere off it; every other edge answers as before. */
  lemma LinkJoins(a: Arrangement, link: EdgeLink, from: DeviceId, edge: ScreenEdge, position: real)
    requires WellFormed(a) && LinkEdges(a, link).1 == Done
    requires a.nodes[link.from].enabled && a.nodes[link.to].enabled
    ensures var back := EdgeLink(link.to, link.toEdge, link.from, link.fromEdge, link.boundaryStart, link.boundaryEnd);
            var live := link.boundaryStart <= position <= link.boundaryEnd;
            Resolve(LinkEdges(a, link).0, from, edge, position)
            == if from == link.from && edge == link.fromEdge then (if live then Some(link) else None)
            else if from == link.to && edge == link.toEdge then (if live then Some(back) else None)
            else Resolve(a, from, edge, position)
  {
    var b := LinkEdges(a, link).0;
    var back := EdgeLink(link.to, link.toEdge, link.from, link.fromEdge, link.boundaryStart, link.boundaryEnd);
    LinkKeepsWellFormed(a, link);
    LinkDecision(a, link);
    var before, after := Resolve(a, from, edge, position), Resolve(b, from, edge, position);
    LinkEntries(a, link, link);
    LinkEntries(a, link, back);
    ResolveIsLookup(b, from, edge, position, link);
    ResolveIsLookup(b, from, edge, position, back);
    if after.Some? {
      LinkEntries(a, link, after.value);
      ResolveIsLookup(b, from, edge, position, after.value);
      ResolveIsLookup(a, from, edge, position, after.value);
    }
    if before.Some? {
      LinkEntries(a, link, before.value);
      ResolveIsLookup(a, from, edge, position, before.value);
      ResolveIsLookup(b, from, edge, position, before.value);
    }
  }

  /** Linking an edge of one device to the facing edge of another, over its whole length. */
  lemma FacingLink(a: Arrangement, from: DeviceId, edge: ScreenEdge, to: DeviceId)
    ensures var facing := match edge case Left => Right case Right => Left case Top => Bottom case Bottom => Top;
            var (b, outcome) := LinkEdges(a, EdgeLink(from, edge, to, OppositeEdge(edge), 0.0, 1.0));
            var free := forall l :: l in a.edges ==>
                                      !(l.from == from && l.fromEdge == edge) && !(l.from == to && l.fromEdge == facing);
            && (outcome == Done <==> from != to && from in a.nodes && to in a.nodes && free)
            && (outcome == Done && WellFormed(a) && a.nodes[from].enabled && a.nodes[to].enabled ==>
                  forall p :: 0.0 <= p <= 1.0 ==>
                                && Resolve(b, from, edge, p) == Some(EdgeLink(from, edge, to, facing, 0.0, 1.0))
                                && Resolve(b, to, facing, p) == Some(EdgeLink(to, facing, from, edge, 0.0, 1.0)))
  {
    var link := EdgeLink(from, edge, to, OppositeEdge(edge), 0.0, 1.0);
    LinkDecision(a, link);
    if LinkEdges(a, link).1 == Done && WellFormed(a) && a.nodes[from].enabled && a.nodes[to].enabled {
      forall p | 0.0 <= p <= 1.0
        ensures Resolve(LinkEdges(a, link).0, from, edge, p) == Some(link)
        ensures Resolve(LinkEdges(a, link).0, to, OppositeEdge(edge), p)
             == Some(EdgeLink(to, OppositeEdge(edge), from, edge, 0.0, 1.0))
      {
        LinkJoins(a, link, from, edge, p);
        LinkJoins(a, link, to, OppositeEdge(edge), p);
      }
    }
  }

  /** Adding a device touches no link: an answer is an entry whose ends are enabled, the
      added device by the flag it came with. */
  lemma AddAnswers(a: Arrangement, node: ComputerNode, from: DeviceId, edge: ScreenEdge, position: real, l: EdgeLink)
    requires WellFormed(a)
    ensures var b := AddDevice(a, node);
            var flag := (d: DeviceId) =>
                          if d == node.deviceId then node.enabled else d in a.nodes && a.nodes[d].enabled;
            && b.edges == a.edges
            && (forall d :: d in b.nodes <==> d == node.deviceId || d in a.nodes)
            && (Resolve(b, from, edge, position) == Some(l)
                <==> l in a.edges && l.from == from && l.fromEdge == edge && flag(from) && flag(l.to)
                     && l.boundaryStart <= position <= l.boundaryEnd)
  {
    AddKeepsWellFormed(a, node);
    ResolveIsLookup(AddDevice(a, node), from, edge, position, l);
  }

  /** Adding a device leaves every answer between two others as it was. */
  lemma AddFrame(a: Arrangement, node: ComputerNode, from: DeviceId, edge: ScreenEdge, position: real)
    requires WellFormed(a) && from != node.deviceId
    ensures var before, after := Resolve(a, from, edge, position), Resolve(AddDevice(a, node), from, edge, position);
            && (before.Some? && before.value.to != node.deviceId ==> after == before)
            && (after.Some? && after.value.to != node.deviceId ==> after == before)
  {
    var before, after := Resolve(a, from, edge, position), Resolve(AddDevice(a, node), from, edge, position);
    if before.Some? {
      AddAnswers(a, node, from, edge, position, before.value);
      ResolveIsLookup(a, from, edge, position, before.value);
    }
    if after.Some? {
      AddAnswers(a, node, from, edge, position, after.value);
      ResolveIsLookup(a, from, edge, position, after.value);
    }
  }

  /** Enabling and disabling: the device answers, and is answered, by the new flag;
      nothing else about it or about others changes. */
  lemma EnableAnswers(a: Arrangement, device: DeviceId, enabled: bool,
                      from: DeviceId, edge: ScreenEdge, position: real, l: EdgeLink)
    requires WellFormed(a)
    ensures var (b, outcome) := SetEnabled(a, device, enabled);
            if device !in a.nodes then b == a && outcome == Refused(UnknownDevice(device))
            else
              var flag := (d: DeviceId) => if d == device then enabled else d in a.nodes && a.nodes[d].enabled;
              && outcome == Done && b.edges == a.edges && b.nodes.Keys == a.nodes.Keys
              && (forall d :: d in a.nodes ==>
                                b.nodes[d] == ComputerNode(a.nodes[d].deviceId, a.nodes[d].displayName, flag(d),
                                                           a.nodes[d].canvasX, a.nodes[d].canvasY))
              && (Resolve(b, from, edge, position) == Some(l)
                  <==> l in a.edges && l.from == from && l.fromEdge == edge && flag(from) && flag(l.to)
                       && l.boundaryStart <= position <= l.boundaryEnd)
  {
    SetEnabledKeepsWellFormed(a, device, enabled);
    ResolveIsLookup(SetEnabled(a, device, enabled).0, from, edge, position, l);
  }

  /** A removed device is unknown, as nobody else becomes; links to and from it are
      refused as such until it is added again. */
  lemma RemoveForgets(a: Arrangement, device: DeviceId, link: EdgeLink)
    ensures var b := RemoveDevice(a, device);
            && device !in b.nodes && (forall d :: d != device ==> (d in b.nodes <==> d in a.nodes))
            && (forall d :: d in b.nodes ==> d in a.nodes && b.nodes[d] == a.nodes[d])
            && (forall l :: l in b.edges <==> l in a.edges && l.from != device && l.to != device)
            && (link.from != link.to && link.from == device ==> LinkEdges(b, link).1 == Refused(UnknownDevice(device)))
            && (link.from != link.to && link.to == device && link.from in b.nodes ==>
                  LinkEdges(b, link).1 == Refused(UnknownDevice(device)))
  {
  }

  // ----- The mutable object -----

  class ScreenLayout {
    var nodes: map<DeviceId, ComputerNode>
    var edges: seq<EdgeLink>

    function View(): Arrangement
      reads this
    {
      Arrangement(nodes, edges)
    }

    constructor ()
      ensures View() == EMPTY && WellFormed(View())
    {
      nodes, edges := map[], [];
    }

    method Add(node: ComputerNode)
      modifies this
      ensures View() == AddDevice(old(View()), node)
      ensures old(WellFormed(View())) ==> WellFormed(View())
    {
      if WellFormed(View()) { AddKeepsWellFormed(View(), node); }
      nodes := nodes[node.deviceId := node];
    }

    method Remove(device: DeviceId)
      modifies this
      ensures View() == RemoveDevice(old(View()), device)
      ensures old(WellFormed(View())) ==> WellFormed(View())
    {
      if WellFormed(View()) { RemoveKeepsWellFormed(View(), device); }
      nodes := nodes - {device};
      edges := Retain(edges, AwayFrom(device));
    }

    method Enable(device: DeviceId, enabled: bool) returns (outcome: Outcome)
      modifies this
      ensures (View(), outcome) == SetEnabled(old(View()), device, enabled)
      ensures old(WellFormed(View())) ==> WellFormed(View())
    {
      if WellFormed(View()) { SetEnabledKeepsWellFormed(View(), device, enabled); }
      if device !in nodes {
        return Refused(UnknownDevice(device));
      }
      nodes := nodes[device := nodes[device].(enabled := enabled)];
      return Done;
    }

    method Link(from: DeviceId, fromEdge: ScreenEdge, to: DeviceId) returns (outcome: Outcome)
      modifies this
      ensures (View(), outcome)
           == LinkEdges(old(View()), EdgeLink(from, fromEdge, to, OppositeEdge(fromEdge), 0.0, 1.0))
      ensures old(WellFormed(View())) ==> WellFormed(View())
      ensures var facing := match fromEdge case Left => Right case Right => Left case Top => Bottom case Bottom => Top;
              var free := forall l :: l in old(edges) ==>
                                        !(l.from == from && l.fromEdge == fromEdge) && !(l.from == to && l.fromEdge == facing);
              && (outcome == Done <==> from != to && from in old(nodes) && to in old(nodes) && free)
              && (outcome == Done && old(WellFormed(View())) && old(nodes[from].enabled && nodes[to].enabled) ==>
                    forall p :: 0.0 <= p <= 1.0 ==>
                                  && Resolve(View(), from, fromEdge, p) == Some(EdgeLink(from, fromEdge, to, facing, 0.0, 1.0))
                                  && Resolve(View(), to, facing, p) == Some(EdgeLink(to, facing, from, fromEdge, 0.0, 1.0)))
    {
      FacingLink(View(), from, fromEdge, to);
      outcome := LinkAsymmetric(from, fromEdge, to, OppositeEdge(fromEdge), 0.0, 1.0);
    }

    method LinkAsymmetric(from: DeviceId, fromEdge: ScreenEdge, to: DeviceId, toEdge: ScreenEdge,
                          boundaryStart: real, boundaryEnd: real) returns (outcome: Outcome)
      modifies this
      ensures (View(), outcome)
           == LinkEdges(old(View()), EdgeLink(from, fromEdge, to, toEdge, boundaryStart, boundaryEnd))
      ensures old(WellFormed(View())) ==> WellFormed(View())
    {
      ghost var link := EdgeLink(from, fromEdge, to, toEdge, boundaryStart, boundaryEnd);
      if WellFormed(View()) { LinkKeepsWellFormed(View(), link); }
      if from == to {
        return Refused(SelfLink);
      }
      if from !in nodes {
        return Refused(UnknownDevice(from));
      }
      if to !in nodes {
        return Refused(UnknownDevice(to));
      }
      if !(0.0 <= boundaryStart < boundaryEnd) || boundaryEnd > 1.0 {
        return Refused(InvalidBoundary);
      }
      if Find(edges, Leaving(from, fromEdge)).Some? {
        return Refused(EdgeAlreadyLinked(from, fromEdge));
      }
      if Find(edges, Leaving(to, toEdge)).Some? {
        return Refused(EdgeAlreadyLinked(to, toEdge));
      }
      edges := edges + [EdgeLink(from, fromEdge, to, toEdge, boundaryStart, boundaryEnd)];
      edges := edges + [EdgeLink(to, toEdge, from, fromEdge, boundaryStart, boundaryEnd)];
      assert edges == old(edges) + [link, link.Mirror()];
      return Done;
    }

    method Unlink(from: DeviceId, edge: ScreenEdge)
      modifies this
      ensures View() == UnlinkEdge(old(View()), from, edge)
      ensures old(WellFormed(View())) ==> WellFormed(View())
    {
      if WellFormed(View()) { UnlinkKeepsWellFormed(View(), from, edge); }
      var reverse := Find(edges, Leaving(from, edge));
      edges := Retain(edges, NotLeaving(from, edge));
      if reverse.Some? {
        edges := Retain(edges, NotReturning(reverse.value.to, reverse.value.toEdge, from));
      }
    }
  }
}
