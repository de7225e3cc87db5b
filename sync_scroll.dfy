/** The scroll-sync hook: a group of DOM nodes whose scroll offsets follow
    one another on the group's axes. The nodes' scroll positions live in one
    shared array (several groups may hold the same node); a group keeps its
    list of connected nodes, as indices into that array, and the set of
    nodes on which its scroll listener is attached. */
module SyncScroll {

  /** A node's `scrollTop` and `scrollLeft`. */
  datatype ScrollPos = ScrollPos(top: real, left: real)

  /** The target's position after it has been synced from the source. */
  function Synced(target: ScrollPos, source: ScrollPos, horizontal: bool, vertical: bool): ScrollPos
  {
    ScrollPos(if vertical then source.top else target.top,
              if horizontal then source.left else target.left)
  }

  function Elements(nodes: seq<nat>): set<nat>
  {
    set n | n in nodes
  }

  /** The scroll positions after a scroll on node `s` has been handled by a
      group connecting `targets`: every other target takes `s`'s offsets on
      the group's axes and keeps its own on the others; nothing else moves. */
  function SyncedAll(d: seq<ScrollPos>, targets: seq<nat>, s: nat, horizontal: bool, vertical: bool): (r: seq<ScrollPos>)
    requires s < |d|
    ensures |r| == |d| && r[s] == d[s]
    ensures forall i :: 0 <= i < |d| && i !in targets ==> r[i] == d[i]
    ensures forall i :: 0 <= i < |d| && i in targets ==>
      r[i].top == (if vertical then d[s].top else d[i].top) &&
      r[i].left == (if horizontal then d[s].left else d[i].left)
  {
    seq(|d|, i requires 0 <= i < |d| =>
      if i != s && i in targets then Synced(d[i], d[s], horizontal, vertical) else d[i])
  }

  /** Once a scroll on `s` is handled, the scroll event it raises on any other
      target `t` (the echo) changes nothing: every target already agrees on
      the group's axes. */
  lemma {:induction false} EchoScrollIsHarmless(d: seq<ScrollPos>, targets: seq<nat>, s: nat, t: nat, horizontal: bool, vertical: bool)
    requires s < |d| && t < |d| && (t in targets || t == s)
    ensures var r := SyncedAll(d, targets, s, horizontal, vertical);
      SyncedAll(r, targets, t, horizontal, vertical) == r
  {
  }

  /** `syncScrollPosition`: copy `scrollTop` when vertical and `scrollLeft`
      when horizontal from the scrolled node to the sync node, in place. */
  method SyncScrollPosition(doc: array<ScrollPos>, scrolled: nat, syncNode: nat, horizontal: bool, vertical: bool)
    requires scrolled < doc.Length && syncNode < doc.Length
    modifies doc
    ensures doc[syncNode] == Synced(old(doc[syncNode]), old(doc[scrolled]), horizontal, vertical)
    ensures forall j :: 0 <= j < doc.Length && j != syncNode ==> doc[j] == old(doc[j])
  {
    var scrollTop, scrollLeft := doc[scrolled].top, doc[scrolled].left;
    if vertical {
      doc[syncNode] := doc[syncNode].(top := scrollTop);
    }
    if horizontal {
      doc[syncNode] := doc[syncNode].(left := scrollLeft);
    }
  }

  /** One `useSyncScroll` instance. */
  class ScrollSyncGroup {
    const horizontal: bool
    const vertical: bool
    var connectedNodes: seq<nat>
    var listening: set<nat>

    /** The listener is attached exactly on the connected nodes. */
    ghost predicate Valid()
      reads this
    {
      listening == Elements(connectedNodes)
    }

    constructor (horizontal: bool, vertical: bool)
      ensures Valid() && connectedNodes == [] && listening == {}
      ensures this.horizontal == horizontal && this.vertical == vertical
    {
      this.horizontal := horizontal;
      this.vertical := vertical;
      connectedNodes := [];
      listening := {};
    }

    method AttachScrollEvents(node: nat)
      modifies this`listening
      ensures listening == old(listening) + {node}
    {
      listening := listening + {node};
    }

    method RemoveScrollEvents(node: nat)
      modifies this`listening
      ensures listening == old(listening) - {node}
    {
      listening := listening - {node};
    }

    /** `registerScrollSync` replaces the whole list; the effect that follows
        removes the listener from the old nodes and attaches it to the new. */
    method RegisterScrollSync(nodes: seq<nat>)
      requires Valid()
      modifies this`connectedNodes, this`listening
      ensures Valid() && connectedNodes == nodes
      ensures listening == Elements(nodes)
    {
      var oldNodes := connectedNodes;
      var i := 0;
      while i < |oldNodes|
        invariant 0 <= i <= |oldNodes|
        invariant listening == Elements(oldNodes) - Elements(oldNodes[..i])
      {
        RemoveScrollEvents(oldNodes[i]);
        assert Elements(oldNodes[..i + 1]) == Elements(oldNodes[..i]) + {oldNodes[i]};
        i := i + 1;
      }
      assert oldNodes[..i] == oldNodes;
      connectedNodes := nodes;
      var j := 0;
      while j < |nodes|
        invariant 0 <= j <= |nodes| && connectedNodes == nodes
        invariant listening == Elements(nodes[..j])
      {
        AttachScrollEvents(nodes[j]);
        assert Elements(nodes[..j + 1]) == Elements(nodes[..j]) + {nodes[j]};
        j := j + 1;
      }
      assert nodes[..j] == nodes;
    }

    /** `handleScrollInNodes` (its animation frame run at once): every other
        connected node is synced from the scrolled one, with its listener
        taken off around the write and put back after. */
    method HandleScrollInNodes(doc: array<ScrollPos>, scrolled: nat)
      requires Valid() && scrolled < doc.Length
      requires forall n :: n in connectedNodes ==> n < doc.Length
      modifies doc, this`listening
      ensures Valid() && listening == old(listening)
      ensures doc[..] == SyncedAll(old(doc[..]), connectedNodes, scrolled, horizontal, vertical)
    {
      var i := 0;
      while i < |connectedNodes|
        invariant 0 <= i <= |connectedNodes|
        invariant listening == old(listening)
        invariant doc[scrolled] == old(doc[scrolled])
        invariant forall j :: 0 <= j < doc.Length ==>
          doc[j] == if j != scrolled && j in connectedNodes[..i]
                    then Synced(old(doc[j]), old(doc[scrolled]), horizontal, vertical)
                    else old(doc[j])
      {
        var node := connectedNodes[i];
        assert node in connectedNodes;
        if scrolled != node {
          RemoveScrollEvents(node);
          SyncScrollPosition(doc, scrolled, node, horizontal, vertical);
          AttachScrollEvents(node);
        }
        assert connectedNodes[..i + 1] == connectedNodes[..i] + [node];
        i := i + 1;
      }
      assert connectedNodes[..i] == connectedNodes;
    }
  }
}
