# Shape-group view provider (Arch workbench) in Dafny

This project models `ViewProviderShapeGroup`, the view provider behind Arch walls.
A wall is a grouped object. Display mode 0 shows the switch node's child 0, the object's own shape.
The view provider re-parents the children of the view object's switch node once.
Child 0 becomes the "group node" and stays in place.
Every other child `i` is replaced by a new container holding the group node and then the old child `i`.
So after restructuring, every mode `i >= 1` shows the object's own shape next to what mode `i` showed before.
A mode that showed the grouped objects then shows the object and its grouped objects together.
The view provider then answers two host queries on the restructured scene graph:

- the detail path for a sub-element name, used for highlighting;
- the element name for a pick, used for selection.

A display-mode change calls the restructuring again; once the group node is cached that call changes nothing.
Before the object is deleted, it asks whether its grouped objects should be deleted too.

Files:

- `coin.dfy` (module `Coin`): the scene-graph toolkit as far as it is used. It has group nodes (`SceneNode`) whose child list is edited in place, and the switch node (`SwitchNode`) with its active and default child.
- `host.dfy` (module `Host`): the host's view object (root and switch node), claimed child objects, the sub-element name grammar and the active document.
- `dotted.dfy` (module `Dotted`): Python's `split(".")` and `".".join`, with their round-trip lemmas.
- `search.dfy` (module `Search`): the first-match search that both queries run over the claimed children.
- `view_base.dfy` (module `ViewBase`): the class `ViewProviderShapeGroup`.

Modelling choices:

- The view provider is a class with fields `viewObject` and `groupNode`. Its methods restructure the switch node in place.
- `Valid()` says the group node is only ever set on an attached provider.
- A query's outcome is a `Reply`: `NotImplementedError` (the host then falls back to its default handling), `ReturnsNone` (Python's `None`), or `Returns(v)`.
- The detail-path query does not call the host's resolvers. It returns the `Delegation` it hands off to: the object's own resolver or a claimed child's, with the sub-element name and the append flag. It also returns the path accumulator as it stands at the hand-off.
- `GetDefaultDisplayMode` returns the constant `"Flat Lines"`, as at `archviewproviders/view_base.py:73-74`. It has no contract beyond its body, so it has no row below.

Three behaviours of the code worth knowing:

- `onChanged("DisplayMode")` calls `setupShapeGroup` again (`archviewproviders/view_base.py:119-120`), but nothing ever clears `group_node`. So after the first run that restructures anything, every later `OnChanged("DisplayMode")` changes nothing; `SetUpFrom` states this.
- When no claimed child has the first segment's name, the loop at `archviewproviders/view_base.py:101-104` ends and Python returns None; the model returns `ReturnsNone`.
- The test `mode > 0` at `archviewproviders/view_base.py:93` always holds, because line 84 has already rejected `mode <= 0`. The model keeps it as written.

## Model

| member | source | states |
|---|---|---|
| ViewBase.ViewProviderShapeGroup.constructor | archviewproviders/view_base.py:45-51 | A provider created without a view object has no view object and no group node, so it is not yet restructured |
| ViewBase.ViewProviderShapeGroup.Attach | archviewproviders/view_base.py:53-56 | Attaching stores the view object and then performs one restructuring run on its switch node (`SetUpFrom`) |
| ViewBase.ViewProviderShapeGroup.SetupShapeGroup | archviewproviders/view_base.py:58-71 | No-op when the group node is cached or the switch has fewer than 2 children. Otherwise: the group node becomes the original child 0, child 0 stays, the child count stays, and each child `i >= 1` is a distinct fresh container with children exactly `[group node, original child i]`. The default child becomes 1 if the switch accepts it and is otherwise unchanged; the run completes either way. The active child is untouched |
| ViewBase.ViewProviderShapeGroup.SetupShapeGroupTwice | archviewproviders/view_base.py:60-61 | Two runs in a row leave the same state as one run (idempotence through the cached group node) |
| ViewBase.ViewProviderShapeGroup.DetailPathAfterSetup | archviewproviders/view_base.py:91-97 | After a first restructuring with an active mode `m >= 1`, the detail-path walk is defined and succeeds for any non-empty name. It pushes the mode's container, then either the mode's original content (own shape addressed) or the original child 0 (a claimed child addressed) |
| ViewBase.ViewProviderShapeGroup.GetDetailPath | archviewproviders/view_base.py:76-104 | Raises NotImplementedError with the path untouched for an empty name, no group node, or active index <= 0. Otherwise it appends root and switch (only if `append`), then the active child, then that child's child 1 (first dotted segment empty) or child 0. An empty first segment delegates to the object's own resolver with the original name and `append = false`. Otherwise it delegates to the first claimed child with that name, with `append = true` and the name rebuilt from the remaining segments and the element and rest parts; with no such child it returns None after extending the path. The chain handed to the child is the original chain with its first name and that dot removed, or empty when it has no dot |
| ViewBase.ViewProviderShapeGroup.GetElementPicked | archviewproviders/view_base.py:106-116 | NotImplementedError exactly when no group node is cached or the pick path does not contain it. None exactly when, besides, no claimed child's root node is on the path. Otherwise the first such child's name, a dot and that child's own answer |
| ViewBase.ViewProviderShapeGroup.OnChanged | archviewproviders/view_base.py:118-120 | `"DisplayMode"` performs one restructuring run (which needs an attached view object); any other property leaves the provider and the switch node unchanged, also on a provider without a view object |
| ViewBase.ViewProviderShapeGroup.OnDelete | archviewproviders/view_base.py:122-157 | An empty group proceeds without asking. Otherwise it asks, and the answer decides: Yes removes every grouped object from the document and proceeds; No proceeds and removes nothing; Cancel or any other answer blocks and removes nothing |
| Coin.SwitchNode.SetDefaultChild | archviewproviders/view_base.py:68-71 | Setting the default child either succeeds or is rejected with nothing changed; the children and the active child are never touched |
| Search.FirstIndex | archviewproviders/view_base.py:101-102 | The found index is in range and satisfies the test, and no earlier element does. Nothing is found exactly when no element satisfies it |
| Dotted.Split | archviewproviders/view_base.py:80 | Splitting on dots gives at least one segment, no segment contains a dot, and the first segment is the longest dot-free prefix of the name |
| Dotted.JoinSplit | archviewproviders/view_base.py:103 | Joining the segments of a name with dots gives back the name |
| Dotted.SplitJoin | archviewproviders/view_base.py:80 | Splitting a dot-join of one or more dot-free segments gives back the segments |
| Dotted.FirstSegment | archviewproviders/view_base.py:94-103 | The first segment is empty iff the name is empty or starts with a dot. A name without a dot is its own only segment. Otherwise the name is the first segment, a dot, and the join of the remaining segments; that join is the name minus its first segment and dot (what is handed to the child) |

## Left out

- `attach` also registers a host extension on the view object (`addExtension`), and `__init__` installs the provider as the view object's proxy. Both are host registration with nothing to verify. `__init__(vobj)` is the constructor followed by `Attach`.
- `__getstate__` and `__setstate__` return None and keep no state.
- `Part.splitSubname` and `Part.joinSubname` belong to the host and their grammar is not part of this model. They are function parameters (`SubnameGrammar`) and nothing is assumed about them.
- The host's own detail-path resolvers and the claimed children's resolvers are not modelled. `GetDetailPath` returns which one it hands off to and with what arguments, not that resolver's result or its further changes to the path.
- The path accumulator is a value passed in and returned, not a list shared with the caller.
- GetElementPicked: a child's own answer for the pick is a function parameter returning a string. Its failures, and a `None` answer that would make the string concatenation fail, are not modelled.
- The claimed children (`claimChildren()`) and the group list of `onDelete` are inputs. `onDelete`'s unused sub-element argument is omitted.
- GetDetailPath: the toolkit's `getChild` is only defined for an index in range. The model requires the active index to be in range and the active container to have the child it reads.
- OnDelete: the dialog is replaced by its answer (`DialogAnswer`), and its wording is not modelled. Whether it would be shown is the `asked` result. Removing an object is set difference on the document's object names; the host's handling of unknown names and any removal cascading from one object to another are not modelled.
- A cached group node is taken to be truthy whenever it is set; Python truth testing of a toolkit node is not modelled.
- Why a switch node rejects the default-child assignment is host behaviour; it is the switch node's `hasDefaultChild` flag.
