/**
 * The directory snapshot the IO driver hands to the files panel, the
 * panel's folder-expansion memory, and the walk that re-applies that
 * memory to a fresh snapshot.
 */
module FileTree {

  datatype Option<T> = None | Some(value: T)

  /** The widget's identity of a tree entry. */
  type Key = string

  /** The backend record a node carries: its full path and its display name. */
  datatype NodeData = NodeData(path: string, name: string)

  /** One entry of a snapshot; a file has no children. */
  datatype Node = Node(key: Key, folder: bool, expanded: bool, children: seq<Node>, data: NodeData)

  /** Folder-expansion memory: node key to the expansion the user last asked for. */
  type FoldersState = map<Key, bool>

  /** The memory says "expanded" for key k; an absent key reads as false. */
  predicate Marked(m: FoldersState, k: Key)
  {
    k in m && m[k]
  }

  /**
   * The memory after the user clicks `clicked`: a folder records the
   * expansion it will have once the click has toggled it; a file leaves
   * the memory as it was.
   */
  function RecordClick(m: FoldersState, clicked: Node): FoldersState
  {
    if clicked.folder then m[clicked.key := !clicked.expanded] else m
  }

  /**
   * Reference definition of the restore walk: a file is left alone; a
   * folder becomes expanded when the memory marks its key, and the walk
   * descends into its children.
   */
  function Restored(m: FoldersState, n: Node): Node
  {
    if !n.folder then n
    else n.(expanded := n.expanded || Marked(m, n.key),
            children := seq(|n.children|, i requires 0 <= i < |n.children| => Restored(m, n.children[i])))
  }

  /** The restore walk on a possibly missing entry: a missing entry stays missing. */
  function RestoredEntry(m: FoldersState, e: Option<Node>): Option<Node>
  {
    match e
    case None => None
    case Some(n) => Some(Restored(m, n))
  }

  /** The node reached from n by following the child indexes in p, if any. */
  function At(n: Node, p: seq<nat>): Option<Node>
    decreases p
  {
    if p == [] then Some(n)
    else if p[0] < |n.children| then At(n.children[p[0]], p[1..])
    else None
  }

  /** Every node from n down to and including the one at p is a folder. */
  predicate OnFolderChain(n: Node, p: seq<nat>)
    decreases p
  {
    n.folder && (p == [] || (p[0] < |n.children| && OnFolderChain(n.children[p[0]], p[1..])))
  }

  /** The largest element of s, 0 for the empty sequence. */
  function MaxOf(s: seq<nat>): (r: nat)
    ensures forall i :: 0 <= i < |s| ==> s[i] <= r
    ensures s == [] ==> r == 0
    ensures s != [] ==> r in s
  {
    if s == [] then 0
    else
      var t := MaxOf(s[1..]);
      assert forall i :: 1 <= i < |s| ==> s[i] == s[1..][i - 1];
      if s[0] > t then s[0] else t
  }

  /** Number of levels of the tree under n; every child is strictly lower. */
  ghost function Height(n: Node): (h: nat)
    ensures forall i :: 0 <= i < |n.children| ==> Height(n.children[i]) < h
  {
    var hs := seq(|n.children|, i requires 0 <= i < |n.children| => Height(n.children[i]));
    assert forall i :: 0 <= i < |n.children| ==> hs[i] == Height(n.children[i]);
    1 + MaxOf(hs)
  }

  /**
   * What restoring does at every position of the tree: the same positions
   * exist before and after, each keeps its key, kind, backend record and
   * number of children, and its expansion becomes true exactly when it
   * was already true or it is reached through folders only and the memory
   * marks its key. Nothing is ever collapsed.
   */
  lemma {:induction false} RestoredAt(m: FoldersState, n: Node, p: seq<nat>)
    ensures At(Restored(m, n), p).Some? <==> At(n, p).Some?
    ensures At(n, p).Some? ==>
      var s, r := At(n, p).value, At(Restored(m, n), p).value;
      && r.key == s.key && r.folder == s.folder && r.data == s.data
      && |r.children| == |s.children|
      && r.expanded == (s.expanded || (OnFolderChain(n, p) && Marked(m, s.key)))
    decreases p
  {
    if n.folder && p != [] && p[0] < |n.children| {
      RestoredAt(m, n.children[p[0]], p[1..]);
    }
  }

  /** Restoring twice gives the tree restoring once gives. */
  lemma {:induction false} RestoredIdempotent(m: FoldersState, n: Node)
    ensures Restored(m, Restored(m, n)) == Restored(m, n)
  {
    if n.folder {
      var r := Restored(m, n);
      forall i | 0 <= i < |n.children|
        ensures Restored(m, r.children[i]) == r.children[i]
      {
        RestoredIdempotent(m, n.children[i]);
      }
    }
  }

  /** With an empty memory the walk gives back the snapshot unchanged. */
  lemma {:induction false} RestoredWithEmptyState(n: Node)
    ensures Restored(map[], n) == n
  {
    if n.folder {
      forall i | 0 <= i < |n.children|
        ensures Restored(map[], n.children[i]) == n.children[i]
      {
        RestoredWithEmptyState(n.children[i]);
      }
    }
  }

  /**
   * A click on a folder followed by a refresh: in the new snapshot, the
   * folder with the clicked key, when reached through folders, is expanded
   * exactly when the snapshot already had it expanded or the click opened
   * it.
   */
  lemma {:induction false} ClickThenRestore(m: FoldersState, clicked: Node, n: Node, p: seq<nat>)
    requires clicked.folder
    requires At(n, p).Some? && At(n, p).value.key == clicked.key && OnFolderChain(n, p)
    ensures At(Restored(RecordClick(m, clicked), n), p).Some?
    ensures At(Restored(RecordClick(m, clicked), n), p).value.expanded
            == (At(n, p).value.expanded || !clicked.expanded)
  {
    RestoredAt(RecordClick(m, clicked), n, p);
  }
}
