/** The part of the Coin3D scene-graph toolkit that the view provider uses: group nodes
    whose ordered child list is edited in place, and the switch node that shows one of
    its children according to the display mode. Nodes are reference objects, so one node
    may sit under several parents (the toolkit shares nodes by reference count). */
module Coin {

  /** A group node such as an SoSeparator. */
  class SceneNode {
    var children: seq<SceneNode>

    /** A new, empty separator. */
    constructor ()
      ensures children == []
    {
      children := [];
    }

    /** Appends a node at the end of the child list. */
    method AddChild(n: SceneNode)
      modifies this
      ensures children == old(children) + [n]
    {
      children := children + [n];
    }
  }

  /** A switch node: an ordered child list, the index of the active child (negative
      values are the toolkit's "none", "inherit" and "all" codes) and, on the host's
      switch nodes only, a default child used as a fallback display mode. */
  class SwitchNode {
    var children: seq<SceneNode>
    var whichChild: int
    var defaultChild: int
    /** Whether this switch node has a default-child field at all; assigning it on a
        switch without one fails. */
    const hasDefaultChild: bool

    constructor (children: seq<SceneNode>, whichChild: int, defaultChild: int, hasDefaultChild: bool)
      ensures this.children == children && this.whichChild == whichChild
      ensures this.defaultChild == defaultChild && this.hasDefaultChild == hasDefaultChild
    {
      this.children := children;
      this.whichChild := whichChild;
      this.defaultChild := defaultChild;
      this.hasDefaultChild := hasDefaultChild;
    }

    /** Replaces the child at index i, keeping every other position. */
    method ReplaceChild(i: nat, n: SceneNode)
      requires i < |children|
      modifies this
      ensures children == old(children)[i := n]
      ensures whichChild == old(whichChild) && defaultChild == old(defaultChild)
    {
      children := children[i := n];
    }

    /** Assigns the default child; reports whether the node accepted the assignment.
        A rejected assignment changes nothing. */
    method SetDefaultChild(index: int) returns (accepted: bool)
      modifies this
      ensures accepted == hasDefaultChild
      ensures defaultChild == if accepted then index else old(defaultChild)
      ensures children == old(children) && whichChild == old(whichChild)
    {
      accepted := hasDefaultChild;
      if accepted {
        defaultChild := index;
      }
    }
  }
}
