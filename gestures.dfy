/**
 * The pure rules behind the panel's drag-and-drop and rename gestures:
 * which hit modes a drop target accepts, and which backend path a moved
 * or renamed entry is sent to.
 */
module Gestures {
  import opened FileTree

  /** Where the widget places a dropped node relative to the destination. */
  datatype HitMode = Over | Before | After

  /** The drag-enter answer: any hit mode, or only those listed. */
  datatype DropPolicy = AnyHitMode | Restrict(modes: seq<HitMode>)

  /** The widget lets a drop with hit mode h through under policy. */
  predicate Allows(policy: DropPolicy, h: HitMode)
  {
    match policy
    case AnyHitMode => true
    case Restrict(modes) => h in modes
  }

  /** The depth argument of the path utility: left out (drop) or given (rename). */
  datatype Depth = Omitted | Levels(n: nat)

  /**
   * The external utility that computes the containing directory of a path.
   * The panel only passes it through; nothing is assumed about what it returns.
   */
  type DirName = (string, Depth) -> string

  /**
   * Drag-enter policy: a file accepts a dropped node only beside it,
   * a folder accepts any hit mode.
   */
  function DragEnterPolicy(dest: Node): (r: DropPolicy)
    ensures r == AnyHitMode <==> dest.folder
    ensures !dest.folder ==> r == Restrict([After, Before])
  {
    if !dest.folder then Restrict([After, Before]) else AnyHitMode
  }

  /** Nothing can be dropped into a file: Over is allowed exactly on folders. */
  lemma DropOverOnlyOnFolders(dest: Node, h: HitMode)
    ensures Allows(DragEnterPolicy(dest), h) <==> (dest.folder || h != Over)
  {
  }

  /**
   * The backend path a dropped node is moved to: its own name, placed
   * under the destination folder's path and a separator for Over, or
   * after the destination's containing directory otherwise.
   */
  function DropPath(dirName: DirName, dest: Node, dragged: Node, hit: HitMode): (r: string)
    ensures |r| >= |dragged.data.name|
    ensures r[|r| - |dragged.data.name|..] == dragged.data.name
    ensures hit == Over ==> r[..|r| - |dragged.data.name|] == dest.data.path + "/"
    ensures hit != Over ==> r[..|r| - |dragged.data.name|] == dirName(dest.data.path, Omitted)
  {
    (if hit == Over then dest.data.path + "/" else dirName(dest.data.path, Omitted)) + dragged.data.name
  }

  /** Dropping before or after the same destination sends the node to the same path. */
  lemma SiblingDropSidesAgree(dirName: DirName, dest: Node, dragged: Node)
    ensures DropPath(dirName, dest, dragged, Before) == DropPath(dirName, dest, dragged, After)
  {
  }

  /** A file dropped over a folder lands directly inside that folder. */
  lemma DropIntoFolderExample(dirName: DirName)
    ensures var dest := Node("b", true, false, [], NodeData("/proj/b", "b"));
            var file := Node("a", false, false, [], NodeData("/proj/a.txt", "a.txt"));
            DropPath(dirName, dest, file, Over) == "/proj/b/a.txt"
  {
  }

  /** How many trailing levels the rename handler asks the path utility to strip. */
  function RenameDepth(node: Node): Depth
  {
    Levels(if node.folder then 3 else 1)
  }

  /**
   * The backend path a rename sends the node to: none when the new name
   * equals the current one (no move at all), otherwise the new name after
   * the node's containing directory.
   */
  function RenamePath(dirName: DirName, node: Node, newName: string): (r: Option<string>)
    ensures r.None? <==> newName == node.data.name
    ensures r.Some? ==> |r.value| >= |newName| && r.value[|r.value| - |newName|..] == newName
    ensures r.Some? ==> r.value[..|r.value| - |newName|] == dirName(node.data.path, RenameDepth(node))
  {
    if newName != node.data.name then Some(dirName(node.data.path, RenameDepth(node)) + newName) else None
  }

  /** A rename target depends on the old name only through the "unchanged" test. */
  lemma RenamePathIgnoresOldName(dirName: DirName, node: Node, other: string, newName: string)
    requires newName != node.data.name && newName != other
    ensures RenamePath(dirName, node, newName) == RenamePath(dirName, node.(data := node.data.(name := other)), newName)
  {
  }
}
