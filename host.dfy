/** What the host application (the document and its view objects) gives the view
    provider: the view object's scene nodes, the claimed child objects, the sub-element
    name grammar and the active document. */
module Host {
  import opened Coin

  /** The host's per-object view state: its root node and its display-mode switch. */
  class ViewObject {
    const rootNode: SceneNode
    const switchNode: SwitchNode

    constructor (rootNode: SceneNode, switchNode: SwitchNode)
      ensures this.rootNode == rootNode && this.switchNode == switchNode
    {
      this.rootNode := rootNode;
      this.switchNode := switchNode;
    }
  }

  /** A claimed child object as the view provider sees it: its internal name and the
      root node of its own view object. */
  datatype ChildObject = ChildObject(name: string, rootNode: SceneNode)

  /** The three parts of a sub-element name: the dotted chain of object names, the
      element name, and what follows it. */
  datatype SubnameParts = SubnameParts(names: string, element: string, rest: string)

  /** The host's sub-element name grammar (its split and join routines), whose rules
      are not part of this model. */
  datatype SubnameGrammar = SubnameGrammar(split: string -> SubnameParts, join: SubnameParts -> string)

  /** The active document, reduced to the names of the objects it holds. */
  class Document {
    var objects: set<string>

    constructor (objects: set<string>)
      ensures this.objects == objects
    {
      this.objects := objects;
    }

    /** Removes the named object from the document. */
    method RemoveObject(name: string)
      modifies this
      ensures objects == old(objects) - {name}
    {
      objects := objects - {name};
    }
  }
}
