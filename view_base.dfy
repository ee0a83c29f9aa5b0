/** The Arch "shape group" view provider. Display mode 0 of the switch node shows child
    0, the grouped object's own shape. Restructuring re-parents the switch node's
    children once, so that every mode i >= 1 shows that same node next to what mode i
    showed before (a mode that showed the grouped objects then shows the object and its
    grouped objects together). The provider also answers the host's picking and
    highlighting queries on the restructured graph. */
module ViewBase {
  import opened Coin
  import opened Host
  import Dotted
  import opened Search

  /** What a host query gets back: the NotImplementedError the host falls back on,
      Python's None (a search that found nothing), or a value. */
  datatype Reply<T> = NotImplementedError | ReturnsNone | Returns(value: T)

  /** The resolver a detail-path query is handed to, with the sub-element name and the
      append flag it is called with. */
  datatype Delegation =
    | OwnDetailPath(subname: string, append: bool)
    | ChildDetailPath(child: ChildObject, subname: string, append: bool)

  /** The user's answer to the "delete contained objects too?" dialog. */
  datatype DialogAnswer = Yes | No | Cancel | Other(button: int)

  const DisplayModeProperty: string := "DisplayMode"

  class ViewProviderShapeGroup {
    /** The view object this provider is attached to (None until attached). */
    var viewObject: ViewObject?
    /** The switch node's original child 0, cached by the first restructuring; it
        doubles as the "already restructured" flag. */
    var groupNode: SceneNode?

    /** The group node is only ever taken from an attached view object's switch. */
    ghost predicate Valid()
      reads this
    {
      groupNode != null ==> viewObject != null
    }

    /** A provider created like `__init__()` without a view object. */
    constructor ()
      ensures Valid() && viewObject == null && groupNode == null
    {
      viewObject := null;
      groupNode := null;
    }

    /** The effect of one restructuring run on switch node sw, relating the state at
        the start of the run to the state at its end. If the group node is already
        cached or sw has fewer than two children nothing changes. Otherwise child 0
        becomes the group node and stays in place, and every child i >= 1 is replaced
        by its own new container holding the group node and then the old child i;
        the default child becomes 1 when the switch node accepts it and is otherwise
        left as it was. The active child is never touched. */
    twostate predicate SetUpFrom(sw: SwitchNode)
      reads this, sw, sw.children
    {
      sw.whichChild == old(sw.whichChild) &&
      if old(groupNode) != null || |old(sw.children)| < 2 then
        groupNode == old(groupNode) &&
        sw.children == old(sw.children) &&
        sw.defaultChild == old(sw.defaultChild)
      else
        groupNode == old(sw.children)[0] &&
        |sw.children| == |old(sw.children)| &&
        sw.children[0] == old(sw.children)[0] &&
        (forall i :: 1 <= i < |sw.children| ==>
           fresh(sw.children[i]) && sw.children[i].children == [groupNode, old(sw.children)[i]]) &&
        (forall i, j :: 1 <= i < j < |sw.children| ==> sw.children[i] != sw.children[j]) &&
        sw.defaultChild == (if sw.hasDefaultChild then 1 else old(sw.defaultChild))
    }

    /** Registers the provider with view object vo and restructures vo's switch node. */
    method Attach(vo: ViewObject)
      requires Valid()
      modifies this, vo.switchNode
      ensures Valid() && viewObject == vo
      ensures SetUpFrom(vo.switchNode)
    {
      viewObject := vo;
      SetupShapeGroup();
    }

    /** Restructures the switch node once: each display mode i >= 1 then shows the
        group node (the object's own shape) next to its original content. A switch
        node that rejects the default-child assignment does not stop the run. */
    method SetupShapeGroup()
      // The view object is read unless the group node is cached; under Valid() that
      // demand is exactly an attached view object.
      requires Valid() && viewObject != null
      modifies this, viewObject.switchNode
      ensures Valid() && viewObject == old(viewObject)
      ensures SetUpFrom(viewObject.switchNode)
    {
      var sw := viewObject.switchNode;
      if groupNode != null || |sw.children| < 2 {
        return;
      }
      groupNode := sw.children[0];
      var n := |sw.children|;
      var i := 1;
      while i < n
        invariant 1 <= i <= n == |sw.children|
        invariant viewObject == old(viewObject) && groupNode == old(sw.children)[0]
        invariant sw.children[0] == old(sw.children)[0]
        invariant forall j :: 1 <= j < i ==>
          fresh(sw.children[j]) && sw.children[j].children == [groupNode, old(sw.children)[j]]
        invariant forall j :: i <= j < n ==> sw.children[j] == old(sw.children)[j]
        invariant forall j, k :: 1 <= j < k < i ==> sw.children[j] != sw.children[k]
        invariant sw.whichChild == old(sw.whichChild) && sw.defaultChild == old(sw.defaultChild)
      {
        var node := new SceneNode();
        node.AddChild(groupNode);
        node.AddChild(sw.children[i]);
        sw.ReplaceChild(i, node);
        i := i + 1;
      }
      // The assignment's failure is swallowed.
      var _ := sw.SetDefaultChild(1);
    }

    /** Restructuring is idempotent: a second run right after the first leaves the
        state exactly as the first run left it. */
    method SetupShapeGroupTwice()
      requires Valid() && viewObject != null
      modifies this, viewObject.switchNode
      ensures Valid() && viewObject == old(viewObject)
      ensures SetUpFrom(viewObject.switchNode)
    {
      SetupShapeGroup();
      SetupShapeGroup();
    }

    /** After a first restructuring, the detail-path walk is defined for every active
        mode i >= 1 in range, and the node it pushes below the mode's container is the
        mode's original content when the name addresses the object's own shape, and the
        group node (the original child 0) when it addresses a claimed child. */
    method DetailPathAfterSetup(subname: string, path: seq<object>, append: bool,
                                claimed: seq<ChildObject>, grammar: SubnameGrammar)
      returns (reply: Reply<Delegation>, newPath: seq<object>)
      requires Valid() && viewObject != null && groupNode == null
      requires 0 < viewObject.switchNode.whichChild < |viewObject.switchNode.children|
      modifies this, viewObject.switchNode
      ensures viewObject == old(viewObject) && groupNode == old(viewObject.switchNode.children)[0]
      ensures |viewObject.switchNode.children| == |old(viewObject.switchNode.children)|
      ensures viewObject.switchNode.whichChild == old(viewObject.switchNode.whichChild)
      ensures subname == [] ==> reply == NotImplementedError && newPath == path
      ensures subname != [] ==>
        var sw := viewObject.switchNode;
        var mode := sw.whichChild;
        var first := Dotted.Split(grammar.split(subname).names)[0];
        reply != NotImplementedError &&
        newPath == path + (if append then [viewObject.rootNode as object, sw] else [])
                        + [sw.children[mode] as object,
                           if first == "" then old(sw.children)[mode] else old(sw.children)[0]]
    {
      SetupShapeGroup();
      reply, newPath := GetDetailPath(subname, path, append, claimed, grammar);
    }

    /** The display mode the host uses when none is set. */
    function GetDefaultDisplayMode(): string
    {
      "Flat Lines"
    }

    /** Resolves sub-element name subname into a scene path for highlighting: extends
        path with the nodes this provider owns and hands the rest of the name to the
        object's own resolver or to the named claimed child's. */
    method GetDetailPath(subname: string, path: seq<object>, append: bool,
                         claimed: seq<ChildObject>, grammar: SubnameGrammar)
      returns (reply: Reply<Delegation>, newPath: seq<object>)
      requires Valid()
      // The toolkit's getChild demands an index in range.
      requires subname != [] && groupNode != null && viewObject.switchNode.whichChild > 0 ==>
        var sw := viewObject.switchNode;
        sw.whichChild < |sw.children| &&
        |sw.children[sw.whichChild].children| >
          (if Dotted.Split(grammar.split(subname).names)[0] == "" then 1 else 0)
      ensures subname == [] || groupNode == null ==> reply == NotImplementedError && newPath == path
      ensures subname != [] && groupNode != null && viewObject.switchNode.whichChild <= 0 ==>
        reply == NotImplementedError && newPath == path
      ensures subname != [] && groupNode != null && viewObject.switchNode.whichChild > 0 ==>
        var sw := viewObject.switchNode;
        var node := sw.children[sw.whichChild];
        var subs := grammar.split(subname);
        var objs := Dotted.Split(subs.names);
        var first := objs[0];
        newPath == path + (if append then [viewObject.rootNode as object, sw] else [])
                        + [node as object, node.children[if first == "" then 1 else 0]] &&
        (first == "" ==> reply == Returns(OwnDetailPath(subname, false))) &&
        (first != "" ==>
           reply == match FirstIndex(claimed, (c: ChildObject) => c.name == first)
                    case None => ReturnsNone
                    case Some(k) =>
                      Returns(ChildDetailPath(claimed[k],
                        grammar.join(SubnameParts(Dotted.Join(objs[1..]), subs.element, subs.rest)), true)))
      // The chain handed to a child is the original chain minus its first name and dot.
      ensures reply.Returns? && reply.value.ChildDetailPath? ==>
        var subs := grammar.split(subname);
        var first := reply.value.child.name;
        first != "" && Dotted.Split(subs.names)[0] == first &&
        reply.value.subname == grammar.join(SubnameParts(
          if Dotted.Dot in subs.names then subs.names[|first| + 1..] else "", subs.element, subs.rest))
    {
      if subname == [] || groupNode == null {
        return NotImplementedError, path;
      }
      var subs := grammar.split(subname);
      var objs := Dotted.Split(subs.names);

      var vobj := viewObject;
      var mode := vobj.switchNode.whichChild;
      if mode <= 0 {
        return NotImplementedError, path;
      }

      newPath := path;
      if append {
        newPath := newPath + [vobj.rootNode as object, vobj.switchNode];
      }

      var node := vobj.switchNode.children[mode];
      newPath := newPath + [node as object];
      if mode > 0 {
        if objs[0] == "" {
          newPath := newPath + [node.children[1] as object];
        } else {
          newPath := newPath + [node.children[0] as object];
        }
      }
      if objs[0] == "" {
        return Returns(OwnDetailPath(subname, false)), newPath;
      }

      var i := 0;
      while i < |claimed|
        invariant 0 <= i <= |claimed|
        invariant forall j :: 0 <= j < i ==> claimed[j].name != objs[0]
      {
        var child := claimed[i];
        if child.name == objs[0] {
          Dotted.FirstSegment(subs.names);
          var sub := grammar.join(SubnameParts(Dotted.Join(objs[1..]), subs.element, subs.rest));
          return Returns(ChildDetailPath(child, sub, true)), newPath;
        }
        i := i + 1;
      }
      reply := ReturnsNone;
    }

    /** Names the picked element: the first claimed child whose root node lies on the
        picked path, followed by a dot and that child's own answer for the same pick.
        Only picks that pass through the group node belong to this provider. */
    function GetElementPicked(pickPath: seq<object>, claimed: seq<ChildObject>,
                              childElement: ChildObject -> string): (r: Reply<string>)
      reads this
      ensures r == NotImplementedError <==> groupNode == null || groupNode !in pickPath
      ensures r == ReturnsNone <==>
        groupNode != null && groupNode in pickPath &&
        forall j :: 0 <= j < |claimed| ==> claimed[j].rootNode !in pickPath
      ensures groupNode != null && groupNode in pickPath ==>
        forall k :: 0 <= k < |claimed| && claimed[k].rootNode in pickPath &&
                    (forall j :: 0 <= j < k ==> claimed[j].rootNode !in pickPath) ==>
          r == Returns(claimed[k].name + "." + childElement(claimed[k]))
    {
      if groupNode == null || groupNode !in pickPath then NotImplementedError
      else
        match FirstIndex(claimed, (c: ChildObject) => c.rootNode in pickPath)
        case None => ReturnsNone
        case Some(k) => Returns(claimed[k].name + "." + childElement(claimed[k]))
    }

    /** Reacts to a property change: a display-mode change runs the restructuring
        again, every other property is ignored. */
    method OnChanged(prop: string)
      requires Valid()
      // Restructuring an unattached provider fails on its missing view object.
      requires prop == DisplayModeProperty ==> viewObject != null
      modifies this, if viewObject == null then {} else {viewObject.switchNode}
      ensures Valid() && viewObject == old(viewObject)
      ensures prop == DisplayModeProperty ==> SetUpFrom(viewObject.switchNode)
      ensures prop != DisplayModeProperty ==>
        groupNode == old(groupNode) && (viewObject != null ==> unchanged(viewObject.switchNode))
    {
      if prop == DisplayModeProperty {
        SetupShapeGroup();
      }
    }

    /** Decides whether the object may be deleted. With no grouped objects it may,
        without asking; otherwise the user's answer decides: Yes removes every grouped
        object from the document and proceeds, No proceeds and keeps them, anything
        else blocks the deletion. The result says whether the deletion may proceed and
        whether the dialog was shown. */
    method OnDelete(group: seq<string>, answer: DialogAnswer, doc: Document)
      returns (proceed: bool, asked: bool)
      modifies doc
      ensures asked <==> group != []
      ensures proceed <==> group == [] || answer == Yes || answer == No
      ensures doc.objects ==
        if group != [] && answer == Yes then old(doc.objects) - set j | 0 <= j < |group| :: group[j]
        else old(doc.objects)
    {
      if group == [] {
        return true, false;
      }
      asked := true;
      var deleteChildren: bool;
      if answer == Yes {
        deleteChildren := true;
      } else if answer == No {
        deleteChildren := false;
      } else if answer == Cancel {
        return false, asked;
      } else {
        return false, asked;
      }

      if deleteChildren {
        var i := 0;
        while i < |group|
          invariant 0 <= i <= |group|
          invariant doc.objects == old(doc.objects) - set j | 0 <= j < i :: group[j]
        {
          doc.RemoveObject(group[i]);
          i := i + 1;
        }
      }
      proceed := true;
    }
  }
}
