/**
 * The files panel controller: it keeps the folder-expansion memory,
 * the focused item and the current root, and turns widget gestures into
 * calls on its collaborators (the tree widget, the IO driver, the signal
 * bus, the editor tabs). Those calls are recorded, in issue order, in
 * `effects`.
 */
module Panel {
  import opened FileTree
  import opened Gestures

  /** The widget's event payload for a click: the node clicked. */
  datatype Item = Item(node: Node)

  /** A call the panel issues to one of its collaborators. */
  datatype Effect =
    | EndEdit(node: Node)                              // widget: close the rename form on node
    | StartEdit(node: Node)                            // widget: open the rename form on node
    | ItemClicked(item: Item)                          // signal: an item was clicked
    | ItemDoubleClicked(item: Item)                    // signal: an item was double-clicked
    | OpenNode(node: Node)                             // tabs: open a file in an editor tab
    | MoveTo(dragged: Node, dest: Node, hit: HitMode)  // widget: relocate the dragged node
    | IoMove(moved: NodeData, newPath: string)         // IO driver: move the entry to newPath
    | ReadDirectory(root: Option<Node>)                // IO driver: read the tree again
    | BeforeRefresh(root: Option<Node>)                // signal: the panel is about to reload
    | Reload(nodes: seq<Option<Node>>)                 // widget: show this snapshot

  class FilesPanel {
    /** The path utility the gesture handlers use. */
    const dirName: DirName
    /** Folder-expansion memory; it outlives every snapshot. */
    var foldersState: FoldersState
    /** The item the user last clicked, if any. */
    var focused: Option<Item>
    /** The root of the snapshot last shown, if any. */
    var rootNode: Option<Node>
    /** Every call issued to a collaborator so far. */
    var effects: seq<Effect>

    /** A panel that has not shown anything yet. */
    constructor (dirName: DirName)
      ensures this.dirName == dirName
      ensures foldersState == map[] && focused == None && rootNode == None && effects == []
    {
      this.dirName := dirName;
      foldersState := map[];
      focused := None;
      rootNode := None;
      effects := [];
    }

    /**
     * A click on item. `focusedIsEditing` is the widget's answer to whether
     * the previously focused node has its rename form open: if so that
     * rename is ended first. Then item becomes the focus, a folder records
     * its post-toggle expansion, and the click is announced.
     */
    method OnClick(item: Item, focusedIsEditing: bool)
      modifies this`focused, this`foldersState, this`effects
      ensures focused == Some(item)
      ensures foldersState == RecordClick(old(foldersState), item.node)
      ensures item.node.folder ==> foldersState[item.node.key] == !item.node.expanded
      ensures !item.node.folder ==> foldersState == old(foldersState)
      ensures effects == old(effects)
                         + (if old(focused).Some? && focusedIsEditing then [EndEdit(old(focused).value.node)] else [])
                         + [ItemClicked(item)]
    {
      if focused.Some? && focusedIsEditing {
        effects := effects + [EndEdit(focused.value.node)];
      }
      focused := Some(item);
      if item.node.folder {
        foldersState := foldersState[item.node.key := !item.node.expanded];
      }
      effects := effects + [ItemClicked(item)];
    }

    /** A double click is announced; a file is then opened in an editor tab. */
    method OnDoubleClick(item: Item)
      modifies this`effects
      ensures effects == old(effects) + [ItemDoubleClicked(item)]
                         + (if item.node.folder then [] else [OpenNode(item.node)])
    {
      effects := effects + [ItemDoubleClicked(item)];
      if !item.node.folder {
        effects := effects + [OpenNode(item.node)];
      }
    }

    /**
     * A drop on dest. `dragged` is the tree node being dragged, missing when
     * the drag came from something that is not a tree node: the handler
     * then fails before issuing any call. Otherwise the widget relocates
     * the node at once and exactly one move request goes to the IO driver,
     * from the node's record to the drop path. The completion of that
     * request only logs.
     */
    method OnDragDrop(dest: Node, dragged: Option<Node>, hit: HitMode)
      modifies this`effects
      ensures dragged.None? ==> effects == old(effects)
      ensures dragged.Some? ==>
        effects == old(effects)
                   + [MoveTo(dragged.value, dest, hit),
                      IoMove(dragged.value.data, DropPath(dirName, dest, dragged.value, hit))]
    {
      if dragged.None? {
        return;
      }
      var node := dragged.value;
      effects := effects + [MoveTo(node, dest, hit)];
      var newPath := DropPath(dirName, dest, node, hit);
      effects := effects + [IoMove(node.data, newPath)];
    }

    /**
     * The rename form was saved with newName: no request when the name is
     * unchanged, otherwise exactly one move request to the renamed path.
     */
    method OnRename(node: Node, newName: string)
      modifies this`effects
      ensures newName == node.data.name ==> effects == old(effects)
      ensures newName != node.data.name ==>
        effects == old(effects) + [IoMove(node.data, RenamePath(dirName, node, newName).value)]
    {
      var target := RenamePath(dirName, node, newName);
      if target.Some? {
        effects := effects + [IoMove(node.data, target.value)];
      }
    }

    /**
     * Re-applies the expansion memory to theNode and its folder
     * descendants; the result is the reference walk `Restored`.
     */
    method RestoreFoldersStatus(theNode: Option<Node>) returns (r: Option<Node>)
      ensures r == RestoredEntry(foldersState, theNode)
      decreases match theNode case None => 0 case Some(n) => Height(n)
    {
      match theNode {
        case None =>
          r := None;
        case Some(n) =>
          if !n.folder {
            r := theNode;
            return;
          }
          var node := n;
          if Marked(foldersState, n.key) {
            node := node.(expanded := true);
          }
          var kids := n.children;
          for i := 0 to |kids|
            invariant |kids| == |n.children|
            invariant forall j :: 0 <= j < i ==> kids[j] == Restored(foldersState, n.children[j])
            invariant forall j :: i <= j < |kids| ==> kids[j] == n.children[j]
          {
            if kids[i].folder {
              var child := RestoreFoldersStatus(Some(kids[i]));
              kids := kids[i := child.value];
            }
          }
          assert kids == Restored(foldersState, n).children;
          r := Some(node.(children := kids));
      }
    }

    /**
     * Shows a snapshot read from the IO driver. A missing or empty snapshot
     * changes nothing. Otherwise its first entry, with the expansion memory
     * re-applied, becomes the root; the refresh is announced; and then the
     * widget reloads the snapshot with that entry in place.
     */
    method PopulateTree(theNodes: Option<seq<Option<Node>>>)
      modifies this`rootNode, this`effects
      ensures theNodes.None? || |theNodes.value| == 0 ==>
        rootNode == old(rootNode) && effects == old(effects)
      ensures theNodes.Some? && |theNodes.value| > 0 ==>
        var restored := RestoredEntry(foldersState, theNodes.value[0]);
        && rootNode == restored
        && effects == old(effects) + [BeforeRefresh(restored), Reload(theNodes.value[0 := restored])]
    {
      if theNodes.Some? && |theNodes.value| > 0 {
        var nodes := theNodes.value;
        // The walk rewrites the very entry the root refers to.
        var restored := RestoreFoldersStatus(nodes[0]);
        rootNode := restored;
        nodes := nodes[0 := restored];
        effects := effects + [BeforeRefresh(restored)];
        effects := effects + [Reload(nodes)];
      }
    }

    /** Asks the IO driver for a fresh snapshot under the current root. */
    method RefreshTree()
      modifies this`effects
      ensures effects == old(effects) + [ReadDirectory(rootNode)]
    {
      effects := effects + [ReadDirectory(rootNode)];
    }

    /** Opens the rename form on the focused node, if there is one. */
    method RenameFocusedNode()
      modifies this`effects
      ensures effects == old(effects) + (if focused.Some? then [StartEdit(focused.value.node)] else [])
    {
      if focused.Some? {
        effects := effects + [StartEdit(focused.value.node)];
      }
    }

    /**
     * A new project was opened: the expansion memory is dropped entirely,
     * so the next refresh shows every folder as its snapshot has it.
     */
    method OnProjectOpened()
      modifies this`foldersState
      ensures foldersState == map[]
      ensures forall n :: Restored(foldersState, n) == n
    {
      foldersState := map[];
      forall n: Node ensures Restored(map[], n) == n {
        RestoredWithEmptyState(n);
      }
    }
  }
}
