/**
 `buildTree`: a tree of folders and files from flat artifact titles, split at
 `/`. Folders are first kept in nested insertion-ordered maps, each hung on its
 folder, and then flattened into the folders' children and sorted.
 */
module ArtifactTree {
  import opened Parts
  import opened Wrappers
  import Sorting

  datatype Artifact = Artifact(id: string, title: string)

  /** `childMap` is the temporary map a folder carries while the tree is built. */
  datatype Node =
    | File(artifact: Artifact, name: string)
    | Folder(name: string, path: string, children: seq<Node>, childMap: ChildMap)

  /** A map of folders by name, in the order they were put in. */
  datatype ChildMap = NoMap | ChildMap(folders: seq<Node>)

  // ----- Building -----

  /** The path of the next folder down: an empty path so far adds no slash. */
  function Under(path: string, dir: string): string {
    if path != "" then path + "/" + dir else dir
  }

  function Find(m: seq<Node>, name: string): (i: nat)
    ensures i <= |m|
    ensures i < |m| ==> m[i].name == name
    ensures forall j :: 0 <= j < i ==> m[j].name != name
  {
    if m == [] || m[0].name == name then 0 else 1 + Find(m[1..], name)
  }

  function MapOf(node: Node): seq<Node> {
    if node.Folder? && node.childMap.ChildMap? then node.childMap.folders else []
  }

  /** Walk down `dirs`, making each missing folder and giving each folder on the way a map. */
  function MakeDirs(m: seq<Node>, path: string, dirs: seq<string>): seq<Node>
    decreases |dirs|
  {
    if dirs == [] then m
    else
      var cur := Under(path, dirs[0]);
      var i := Find(m, dirs[0]);
      var folder := if i < |m| && m[i].Folder? then m[i] else Folder(dirs[0], cur, [], NoMap);
      var made := folder.(childMap := ChildMap(MakeDirs(MapOf(folder), cur, dirs[1..])));
      if i < |m| then m[i := made] else m + [made]
  }

  function FindFolder(m: seq<Node>, dirs: seq<string>): Option<Node>
    decreases |dirs|
  {
    if dirs == [] then None
    else
      var i := Find(m, dirs[0]);
      if i == |m| then None
      else if |dirs| == 1 then Some(m[i])
      else FindFolder(MapOf(m[i]), dirs[1..])
  }

  /** Push `file` onto the children of the folder at `dirs`, which is there. */
  function AddFile(m: seq<Node>, dirs: seq<string>, file: Node): seq<Node>
    requires FindFolder(m, dirs).Some?
    decreases |dirs|
  {
    var i := Find(m, dirs[0]);
    var folder := m[i];
    if !folder.Folder? then m
    else if |dirs| == 1 then m[i := folder.(children := folder.children + [file])]
    else m[i := folder.(childMap := ChildMap(AddFile(MapOf(folder), dirs[1..], file)))]
  }

  /** Move every map's folders behind its folder's files, and drop the map. */
  function Flatten(m: seq<Node>): seq<Node> {
    if m == [] then []
    else
      var node := m[0];
      [if node.Folder? && node.childMap.ChildMap?
       then node.(children := node.children + Flatten(node.childMap.folders), childMap := NoMap)
       else node]
      + Flatten(m[1..])
  }

  // ----- Sorting -----

  /** Folders first, then by name. */
  function NodeLe(nameLe: (string, string) -> bool): (Node, Node) -> bool {
    (a: Node, b: Node) => if a.Folder? == b.Folder? then nameLe(a.name, b.name) else a.Folder?
  }

  /**
   Every level sorted. A node's place depends on its kind and name alone, so the
   levels may be sorted in any order.
   */
  function SortTree(nameLe: (string, string) -> bool, nodes: seq<Node>): seq<Node>
    decreases nodes, 1
  {
    Sorting.Sort(NodeLe(nameLe), SortChildren(nameLe, nodes))
  }

  function SortChildren(nameLe: (string, string) -> bool, nodes: seq<Node>): seq<Node>
    decreases nodes, 0
  {
    if nodes == [] then []
    else
      [if nodes[0].Folder? then nodes[0].(children := SortTree(nameLe, nodes[0].children)) else nodes[0]]
      + SortChildren(nameLe, nodes[1..])
  }

  // ----- What a tree holds -----

  /** An artifact and where its file stands: the folder names above it and its own. */
  datatype Leaf = Leaf(artifact: Artifact, at: seq<string>)

  /** How many files of `node`, standing under the folders `chain`, are `x`; temporary maps count too. */
  function CountOf(node: Node, chain: seq<string>, x: Leaf): nat
    decreases node, 0
  {
    if node.File? then if Leaf(node.artifact, chain + [node.name]) == x then 1 else 0
    else
      Count(node.children, chain + [node.name], x)
      + (if node.childMap.ChildMap? then Count(node.childMap.folders, chain + [node.name], x) else 0)
  }

  function Count(nodes: seq<Node>, chain: seq<string>, x: Leaf): nat
    decreases nodes, 1
  {
    if nodes == [] then 0 else CountOf(nodes[0], chain, x) + Count(nodes[1..], chain, x)
  }

  lemma {:induction false} CountAppend(a: seq<Node>, b: seq<Node>, chain: seq<string>, x: Leaf)
    ensures Count(a + b, chain, x) == Count(a, chain, x) + Count(b, chain, x)
  {
    if a == [] {
      assert a + b == b;
    } else {
      CountAppend(a[1..], b, chain, x);
      assert (a + b)[0] == a[0] && (a + b)[1..] == a[1..] + b;
    }
  }

  lemma {:induction false} CountUpdate(m: seq<Node>, i: nat, node: Node, chain: seq<string>, x: Leaf)
    requires i < |m|
    ensures Count(m[i := node], chain, x) + CountOf(m[i], chain, x) == Count(m, chain, x) + CountOf(node, chain, x)
  {
    if i == 0 {
      assert m[i := node][1..] == m[1..];
    } else {
      CountUpdate(m[1..], i - 1, node, chain, x);
      assert m[i := node][1..] == m[1..][i - 1 := node];
    }
  }

  // ----- Building keeps what the tree holds -----

  /** The path the walk gives the folder at `dirs`. */
  function PathOf(dirs: seq<string>): string {
    if dirs == [] then "" else Under(PathOf(dirs[..|dirs| - 1]), dirs[|dirs| - 1])
  }

  lemma PathOfNext(chain: seq<string>, dir: string)
    ensures PathOf(chain + [dir]) == Under(PathOf(chain), dir)
  {
    assert (chain + [dir])[..|chain|] == chain;
  }

  /** While it is built, a map holds folders of distinct slash-free names, and folders hold files and maps. */
  ghost predicate MapOk(m: seq<Node>, chain: seq<string>)
    decreases m
  {
    && (forall i, j :: 0 <= i < j < |m| ==> m[i].name != m[j].name)
    && (forall i :: 0 <= i < |m| ==> FolderOk(m[i], chain))
  }

  ghost predicate FolderOk(node: Node, chain: seq<string>)
    decreases node
  {
    && node.Folder? && '/' !in node.name && node.path == PathOf(chain + [node.name])
    && (forall j :: 0 <= j < |node.children| ==> node.children[j].File?)
    && (node.childMap.ChildMap? ==> MapOk(node.childMap.folders, chain + [node.name]))
  }

  lemma FoundAt(m: seq<Node>, i: nat, chain: seq<string>)
    requires MapOk(m, chain) && i < |m|
    ensures Find(m, m[i].name) == i
  {
  }

  /** Replacing a folder by one of its own name, or adding one of a new name. */
  lemma MapUpdateOk(m: seq<Node>, i: nat, node: Node, chain: seq<string>)
    requires MapOk(m, chain) && i <= |m| && FolderOk(node, chain)
    requires node.name !in (set j | 0 <= j < |m| && j != i :: m[j].name)
    ensures MapOk(if i < |m| then m[i := node] else m + [node], chain)
  {
  }

  /** Making folders gives each its path and keeps the names of every map apart. */
  lemma {:induction false} MakeDirsOk(m: seq<Node>, path: string, dirs: seq<string>, chain: seq<string>)
    requires MapOk(m, chain) && path == PathOf(chain) && forall i :: 0 <= i < |dirs| ==> '/' !in dirs[i]
    ensures MapOk(MakeDirs(m, path, dirs), chain)
    decreases |dirs|
  {
    if dirs != [] {
      PathOfNext(chain, dirs[0]);
      var cur := Under(path, dirs[0]);
      var i := Find(m, dirs[0]);
      var folder := if i < |m| then m[i] else Folder(dirs[0], cur, [], NoMap);
      MakeDirsOk(MapOf(folder), cur, dirs[1..], chain + [dirs[0]]);
      MapUpdateOk(m, i, folder.(childMap := ChildMap(MakeDirs(MapOf(folder), cur, dirs[1..]))), chain);
    }
  }

  lemma {:induction false} FindAfter(m: seq<Node>, node: Node)
    ensures var i := Find(m, node.name); Find(if i < |m| then m[i := node] else m + [node], node.name) == i
  {
    if m != [] && m[0].name != node.name {
      FindAfter(m[1..], node);
      var i := Find(m, node.name);
      if i < |m| {
        assert m[i := node][1..] == m[1..][i - 1 := node];
      } else {
        assert (m + [node])[1..] == m[1..] + [node];
      }
    }
  }

  /** Making folders makes the folder the file goes to. */
  lemma {:induction false} MakeDirsFinds(m: seq<Node>, path: string, dirs: seq<string>)
    requires dirs != []
    ensures FindFolder(MakeDirs(m, path, dirs), dirs).Some?
    decreases |dirs|
  {
    var cur := Under(path, dirs[0]);
    var i := Find(m, dirs[0]);
    var folder := if i < |m| && m[i].Folder? then m[i] else Folder(dirs[0], cur, [], NoMap);
    var made := folder.(childMap := ChildMap(MakeDirs(MapOf(folder), cur, dirs[1..])));
    FindAfter(m, made);
    assert MakeDirs(m, path, dirs)[i] == made;
    if |dirs| > 1 {
      MakeDirsFinds(MapOf(folder), cur, dirs[1..]);
    }
  }

  /** Making folders moves no file. */
  lemma {:induction false} MakeDirsCounts(m: seq<Node>, path: string, dirs: seq<string>, chain: seq<string>, x: Leaf)
    requires MapOk(m, chain)
    ensures Count(MakeDirs(m, path, dirs), chain, x) == Count(m, chain, x)
    decreases |dirs|
  {
    if dirs != [] {
      var cur := Under(path, dirs[0]);
      var i := Find(m, dirs[0]);
      var folder := if i < |m| then m[i] else Folder(dirs[0], cur, [], NoMap);
      MakeDirsCounts(MapOf(folder), cur, dirs[1..], chain + [dirs[0]], x);
      var made := folder.(childMap := ChildMap(MakeDirs(MapOf(folder), cur, dirs[1..])));
      assert CountOf(made, chain, x) == CountOf(folder, chain, x);
      if i < |m| {
        CountUpdate(m, i, made, chain, x);
      } else {
        CountAppend(m, [made], chain, x);
      }
    }
  }

  lemma {:induction false} AddFileAdds(m: seq<Node>, dirs: seq<string>, file: Node, chain: seq<string>, x: Leaf)
    requires MapOk(m, chain) && FindFolder(m, dirs).Some? && file.File?
    ensures var m' := AddFile(m, dirs, file);
      && MapOk(m', chain)
      && Count(m', chain, x)
          == Count(m, chain, x) + (if Leaf(file.artifact, chain + dirs + [file.name]) == x then 1 else 0)
    decreases |dirs|
  {
    var i := Find(m, dirs[0]);
    var folder := m[i];
    assert chain + dirs == chain + [dirs[0]] + dirs[1..];
    if |dirs| == 1 {
      var added := folder.(children := folder.children + [file]);
      CountAppend(folder.children, [file], chain + [dirs[0]], x);
      CountUpdate(m, i, added, chain, x);
      MapUpdateOk(m, i, added, chain);
    } else {
      AddFileAdds(MapOf(folder), dirs[1..], file, chain + [dirs[0]], x);
      var added := folder.(childMap := ChildMap(AddFile(MapOf(folder), dirs[1..], file)));
      CountUpdate(m, i, added, chain, x);
      MapUpdateOk(m, i, added, chain);
    }
  }

  // ----- Flattening and sorting keep it too -----

  /** How many folders of this level go by `name`. */
  function FolderCount(nodes: seq<Node>, name: string): nat {
    if nodes == [] then 0
    else (if nodes[0].Folder? && nodes[0].name == name then 1 else 0) + FolderCount(nodes[1..], name)
  }

  /**
   A finished level: no two sibling folders share a name, no temporary map is
   left anywhere, and every folder carries the path of its place.
   */
  ghost predicate Finished(nodes: seq<Node>, chain: seq<string>)
    decreases nodes, 1
  {
    && (forall name :: FolderCount(nodes, name) <= 1)
    && (forall node :: node in nodes ==> NodeFinished(node, chain))
  }

  ghost predicate NodeFinished(node: Node, chain: seq<string>)
    decreases node, 0
  {
    node.Folder? ==>
      && '/' !in node.name && node.path == PathOf(chain + [node.name])
      && node.childMap.NoMap? && Finished(node.children, chain + [node.name])
  }

  lemma {:induction false} FolderCountAppend(a: seq<Node>, b: seq<Node>, name: string)
    ensures FolderCount(a + b, name) == FolderCount(a, name) + FolderCount(b, name)
  {
    if a == [] {
      assert a + b == b;
    } else {
      FolderCountAppend(a[1..], b, name);
      assert (a + b)[0] == a[0] && (a + b)[1..] == a[1..] + b;
    }
  }

  lemma {:induction false} FilesAreNoFolders(files: seq<Node>, name: string)
    requires forall i :: 0 <= i < |files| ==> files[i].File?
    ensures FolderCount(files, name) == 0
  {
    if files != [] {
      FilesAreNoFolders(files[1..], name);
    }
  }

  lemma FilesThenFolders(files: seq<Node>, folders: seq<Node>, chain: seq<string>)
    requires forall i :: 0 <= i < |files| ==> files[i].File?
    requires Finished(folders, chain)
    ensures Finished(files + folders, chain) && Finished(folders + files, chain)
  {
    forall name ensures FolderCount(files + folders, name) <= 1 && FolderCount(folders + files, name) <= 1 {
      FilesAreNoFolders(files, name);
      FolderCountAppend(files, folders, name);
      FolderCountAppend(folders, files, name);
    }
  }

  lemma {:induction false} FlattenNames(m: seq<Node>, name: string)
    requires forall i, j :: 0 <= i < j < |m| ==> m[i].name != m[j].name
    ensures FolderCount(Flatten(m), name) <= 1
    ensures name !in (set i | 0 <= i < |m| :: m[i].name) ==> FolderCount(Flatten(m), name) == 0
  {
    if m != [] {
      FlattenNames(m[1..], name);
      assert forall i :: 0 <= i < |m[1..]| ==> m[1..][i] == m[i + 1];
    }
  }

  /** Flattening moves no file and leaves every level finished. */
  lemma {:induction false} FlattenKeeps(m: seq<Node>, chain: seq<string>, x: Leaf)
    requires MapOk(m, chain)
    ensures Finished(Flatten(m), chain) && Count(Flatten(m), chain, x) == Count(m, chain, x)
    decreases m
  {
    if m != [] {
      var node := m[0];
      assert FolderOk(node, chain);
      FlattenKeeps(m[1..], chain, x);
      if node.childMap.ChildMap? {
        FlattenKeeps(node.childMap.folders, chain + [node.name], x);
        FilesThenFolders(node.children, Flatten(node.childMap.folders), chain + [node.name]);
        CountAppend(node.children, Flatten(node.childMap.folders), chain + [node.name], x);
      } else {
        FilesThenFolders(node.children, [], chain + [node.name]);
        assert node.children + [] == node.children;
      }
      forall name ensures FolderCount(Flatten(m), name) <= 1 {
        FlattenNames(m, name);
      }
    }
  }

  lemma {:induction false} InsertCounts(le: (Node, Node) -> bool, node: Node, nodes: seq<Node>, chain: seq<string>,
                                        x: Leaf, name: string)
    ensures Count(Sorting.Insert(le, node, nodes), chain, x) == CountOf(node, chain, x) + Count(nodes, chain, x)
    ensures FolderCount(Sorting.Insert(le, node, nodes), name) == FolderCount([node] + nodes, name)
  {
    assert ([node] + nodes)[1..] == nodes;
    if nodes != [] && !le(node, nodes[0]) {
      InsertCounts(le, node, nodes[1..], chain, x, name);
      assert ([node] + nodes[1..])[1..] == nodes[1..];
      var r := Sorting.Insert(le, node, nodes[1..]);
      assert ([nodes[0]] + r)[1..] == r;
    }
  }

  lemma {:induction false} SortCounts(le: (Node, Node) -> bool, nodes: seq<Node>, chain: seq<string>, x: Leaf,
                                      name: string)
    ensures Count(Sorting.Sort(le, nodes), chain, x) == Count(nodes, chain, x)
    ensures FolderCount(Sorting.Sort(le, nodes), name) == FolderCount(nodes, name)
  {
    if nodes != [] {
      var r := Sorting.Sort(le, nodes[1..]);
      SortCounts(le, nodes[1..], chain, x, name);
      InsertCounts(le, nodes[0], r, chain, x, name);
      assert ([nodes[0]] + r)[1..] == r;
    }
  }

  /** Every level is in order: folders before files, each kind by name. */
  ghost predicate LevelsSorted(nameLe: (string, string) -> bool, nodes: seq<Node>)
    decreases nodes, 1
  {
    && (forall i, j :: 0 <= i < j < |nodes| && nodes[j].Folder? ==> nodes[i].Folder?)
    && (forall i, j :: 0 <= i < j < |nodes| && (nodes[i].Folder? <==> nodes[j].Folder?) ==>
          nameLe(nodes[i].name, nodes[j].name))
    && (forall node :: node in nodes ==> ChildrenSorted(nameLe, node))
  }

  ghost predicate ChildrenSorted(nameLe: (string, string) -> bool, node: Node)
    decreases node, 0
  {
    node.Folder? ==> LevelsSorted(nameLe, node.children)
  }

  /** No folder is empty, so every folder stands above some file. */
  ghost predicate NoneEmpty(nodes: seq<Node>)
    decreases nodes, 1
  {
    forall node :: node in nodes ==> NotEmpty(node)
  }

  ghost predicate NotEmpty(node: Node)
    decreases node, 0
  {
    node.Folder? ==> node.children != [] && NoneEmpty(node.children)
  }

  lemma NodeOrder(nameLe: (string, string) -> bool)
    requires Sorting.TotalPreorder(nameLe)
    ensures Sorting.TotalPreorder(NodeLe(nameLe))
  {
  }

  lemma SortIsOf(le: (Node, Node) -> bool, nodes: seq<Node>)
    ensures |Sorting.Sort(le, nodes)| == |nodes|
    ensures forall node :: node in Sorting.Sort(le, nodes) <==> node in nodes
  {
    Sorting.SortPermutes(le, nodes);
    forall node ensures node in Sorting.Sort(le, nodes) <==> node in nodes {
      assert node in multiset(Sorting.Sort(le, nodes)) <==> node in multiset(nodes);
    }
  }

  lemma {:induction false} SortTreeCounts(nameLe: (string, string) -> bool, nodes: seq<Node>, chain: seq<string>,
                                          x: Leaf, name: string)
    ensures Count(SortTree(nameLe, nodes), chain, x) == Count(nodes, chain, x)
    ensures FolderCount(SortTree(nameLe, nodes), name) == FolderCount(nodes, name)
    decreases nodes, 1
  {
    SortChildrenCounts(nameLe, nodes, chain, x, name);
    SortCounts(NodeLe(nameLe), SortChildren(nameLe, nodes), chain, x, name);
  }

  lemma {:induction false} SortChildrenCounts(nameLe: (string, string) -> bool, nodes: seq<Node>, chain: seq<string>,
                                              x: Leaf, name: string)
    ensures Count(SortChildren(nameLe, nodes), chain, x) == Count(nodes, chain, x)
    ensures FolderCount(SortChildren(nameLe, nodes), name) == FolderCount(nodes, name)
    decreases nodes, 0
  {
    if nodes != [] {
      if nodes[0].Folder? {
        SortTreeCounts(nameLe, nodes[0].children, chain + [nodes[0].name], x, name);
      }
      SortChildrenCounts(nameLe, nodes[1..], chain, x, name);
    }
  }

  /** Sorting keeps a tree finished and without empty folders, and puts every level in order. */
  lemma {:induction false} SortTreeSorts(nameLe: (string, string) -> bool, nodes: seq<Node>, chain: seq<string>)
    requires Sorting.TotalPreorder(nameLe) && Finished(nodes, chain) && NoneEmpty(nodes)
    ensures Finished(SortTree(nameLe, nodes), chain) && NoneEmpty(SortTree(nameLe, nodes))
    ensures LevelsSorted(nameLe, SortTree(nameLe, nodes)) && |SortTree(nameLe, nodes)| == |nodes|
    decreases nodes, 1
  {
    var le, mid := NodeLe(nameLe), SortChildren(nameLe, nodes);
    SortChildrenSorts(nameLe, nodes, chain);
    NodeOrder(nameLe);
    Sorting.SortSorts(le, mid);
    SortIsOf(le, mid);
    forall name ensures FolderCount(SortTree(nameLe, nodes), name) <= 1 {
      SortTreeCounts(nameLe, nodes, chain, Leaf(Artifact("", ""), []), name);
    }
  }

  lemma {:induction false} SortChildrenSorts(nameLe: (string, string) -> bool, nodes: seq<Node>, chain: seq<string>)
    requires Sorting.TotalPreorder(nameLe)
    requires forall node :: node in nodes ==> NodeFinished(node, chain) && NotEmpty(node)
    ensures |SortChildren(nameLe, nodes)| == |nodes|
    ensures forall node :: node in SortChildren(nameLe, nodes) ==>
      NodeFinished(node, chain) && NotEmpty(node) && ChildrenSorted(nameLe, node)
    decreases nodes, 0
  {
    if nodes != [] {
      assert NodeFinished(nodes[0], chain) && NotEmpty(nodes[0]);
      if nodes[0].Folder? {
        SortTreeSorts(nameLe, nodes[0].children, chain + [nodes[0].name]);
      }
      SortChildrenSorts(nameLe, nodes[1..], chain);
    }
  }

  // ----- No folder is made without a file -----

  /** While it is built, every folder has a file or a folder in its map. */
  ghost predicate Used(m: seq<Node>)
    decreases m, 1
  {
    forall i :: 0 <= i < |m| ==> FolderUsed(m[i])
  }

  ghost predicate FolderUsed(node: Node)
    decreases node, 0
  {
    && node.Folder?
    && (node.childMap.ChildMap? ==> Used(node.childMap.folders))
    && (node.children != [] || (node.childMap.ChildMap? && node.childMap.folders != []))
  }

  lemma {:induction false} AddedIsUsed(m: seq<Node>, path: string, dirs: seq<string>, file: Node, chain: seq<string>)
    requires MapOk(m, chain) && Used(m) && dirs != []
    requires FindFolder(MakeDirs(m, path, dirs), dirs).Some?
    requires MapOk(MakeDirs(m, path, dirs), chain)
    ensures var m' := AddFile(MakeDirs(m, path, dirs), dirs, file); m' != [] && Used(m')
    decreases |dirs|
  {
    var cur := Under(path, dirs[0]);
    var i := Find(m, dirs[0]);
    var folder := if i < |m| then m[i] else Folder(dirs[0], cur, [], NoMap);
    var made := folder.(childMap := ChildMap(MakeDirs(MapOf(folder), cur, dirs[1..])));
    var m' := MakeDirs(m, path, dirs);
    assert m'[i] == made;
    FoundAt(m', i, chain);
    assert i < |m| ==> FolderUsed(m[i]) && FolderOk(m[i], chain);
    assert FolderOk(m'[i], chain);
    if |dirs| > 1 {
      AddedIsUsed(MapOf(folder), cur, dirs[1..], file, chain + [dirs[0]]);
    }
    var m'' := AddFile(m', dirs, file);
    forall j | 0 <= j < |m''| ensures FolderUsed(m''[j]) {
      if j != i {
        assert m''[j] == m[j];
      }
    }
  }

  lemma {:induction false} FlattenIsNotEmpty(m: seq<Node>, chain: seq<string>)
    requires MapOk(m, chain) && Used(m)
    ensures NoneEmpty(Flatten(m)) && |Flatten(m)| == |m|
    decreases m
  {
    if m != [] {
      assert FolderUsed(m[0]) && FolderOk(m[0], chain);
      FlattenIsNotEmpty(m[1..], chain);
      if m[0].childMap.ChildMap? {
        FlattenIsNotEmpty(m[0].childMap.folders, chain + [m[0].name]);
      }
      assert NotEmpty(Flatten([m[0]])[0]) by {
        assert forall node :: node in m[0].children ==> NotEmpty(node);
      }
      assert Flatten(m)[0] == Flatten([m[0]])[0];
    }
  }

  // ----- The steps as they are written -----

  method FindByWalking(m: seq<Node>, parts: seq<string>) returns (folder: Option<Node>)
    ensures folder == FindFolder(m, parts)
  {
    var current := m;
    folder := None;
    var i := 0;
    while i < |parts|
      invariant 0 <= i <= |parts|
      invariant FindFolder(m, parts) == if i < |parts| then FindFolder(current, parts[i..]) else folder
    {
      var at := Find(current, parts[i]);
      assert parts[i..][1..] == parts[i + 1..];
      if at == |current| {
        return None;
      }
      folder := Some(current[at]);
      current := MapOf(current[at]);
      i := i + 1;
    }
  }

  lemma {:induction false} FlattenAppend(a: seq<Node>, b: seq<Node>)
    ensures Flatten(a + b) == Flatten(a) + Flatten(b)
  {
    if a == [] {
      assert a + b == b;
    } else {
      FlattenAppend(a[1..], b);
      assert (a + b)[0] == a[0] && (a + b)[1..] == a[1..] + b;
    }
  }

  method FlattenMap(m: seq<Node>) returns (result: seq<Node>)
    ensures result == Flatten(m)
    decreases m
  {
    result := [];
    for i := 0 to |m|
      invariant result == Flatten(m[..i])
    {
      var folder := m[i];
      FlattenAppend(m[..i], [m[i]]);
      assert m[..i + 1] == m[..i] + [m[i]];
      if folder.Folder? && folder.childMap.ChildMap? {
        var below := FlattenMap(folder.childMap.folders);
        folder := folder.(children := folder.children + below, childMap := NoMap);
      }
      result := result + [folder];
    }
    assert m[..|m|] == m;
  }

  function WithSortedChildren(nameLe: (string, string) -> bool, node: Node): Node {
    if node.Folder? then node.(children := SortTree(nameLe, node.children)) else node
  }

  lemma {:induction false} InsertCommutes(nameLe: (string, string) -> bool, node: Node, nodes: seq<Node>)
    ensures SortChildren(nameLe, Sorting.Insert(NodeLe(nameLe), node, nodes))
         == Sorting.Insert(NodeLe(nameLe), WithSortedChildren(nameLe, node), SortChildren(nameLe, nodes))
  {
    var le := NodeLe(nameLe);
    if nodes == [] || le(node, nodes[0]) {
      assert ([node] + nodes)[1..] == nodes;
    } else {
      InsertCommutes(nameLe, node, nodes[1..]);
      var rest := Sorting.Insert(le, node, nodes[1..]);
      assert ([nodes[0]] + rest)[1..] == rest;
      assert SortChildren(nameLe, nodes)[1..] == SortChildren(nameLe, nodes[1..]);
    }
  }

  /** Sorting a level and then the levels below it is sorting them in the other order. */
  lemma {:induction false} SortCommutes(nameLe: (string, string) -> bool, nodes: seq<Node>)
    ensures SortChildren(nameLe, Sorting.Sort(NodeLe(nameLe), nodes)) == SortTree(nameLe, nodes)
  {
    if nodes != [] {
      var le := NodeLe(nameLe);
      SortCommutes(nameLe, nodes[1..]);
      InsertCommutes(nameLe, nodes[0], Sorting.Sort(le, nodes[1..]));
      assert SortChildren(nameLe, nodes)[1..] == SortChildren(nameLe, nodes[1..]);
    }
  }

  lemma {:induction false} SortChildrenAppend(nameLe: (string, string) -> bool, a: seq<Node>, node: Node)
    ensures SortChildren(nameLe, a + [node]) == SortChildren(nameLe, a) + [WithSortedChildren(nameLe, node)]
  {
    if a == [] {
      assert a + [node] == [node];
    } else {
      SortChildrenAppend(nameLe, a[1..], node);
      assert (a + [node])[0] == a[0] && (a + [node])[1..] == a[1..] + [node];
    }
  }

  /** The level first, then each folder's own. */
  method SortFromTop(nameLe: (string, string) -> bool, nodes: seq<Node>) returns (sorted: seq<Node>)
    ensures sorted == SortTree(nameLe, nodes)
    decreases nodes
  {
    var level := Sorting.Sort(NodeLe(nameLe), nodes);
    SortIsOf(NodeLe(nameLe), nodes);
    sorted := [];
    for i := 0 to |level|
      invariant sorted == SortChildren(nameLe, level[..i])
    {
      var node := level[i];
      assert node in nodes;
      SortChildrenAppend(nameLe, level[..i], node);
      assert level[..i + 1] == level[..i] + [node];
      if node.Folder? {
        var children := SortFromTop(nameLe, node.children);
        node := node.(children := children);
      }
      sorted := sorted + [node];
    }
    assert level[..|level|] == level;
    SortCommutes(nameLe, nodes);
  }

  // ----- The whole builder -----

  /** How many files the titles call for at `x`: as many as the artifact is listed, at its own title's parts. */
  function Due(artifacts: seq<Artifact>, x: Leaf): nat {
    if x.at == Split('/', x.artifact.title) then multiset(artifacts)[x.artifact] else 0
  }

  lemma DueNext(artifacts: seq<Artifact>, i: nat, x: Leaf)
    requires i < |artifacts|
    ensures Due(artifacts[..i + 1], x)
         == Due(artifacts[..i], x) + (if Leaf(artifacts[i], Split('/', artifacts[i].title)) == x then 1 else 0)
  {
    assert artifacts[..i + 1] == artifacts[..i] + [artifacts[i]];
  }

  /** What one pass of the loop keeps: the map so far and the root's files hold what the titles so far call for. */
  ghost predicate Built(root: seq<Node>, files: seq<Node>, artifacts: seq<Artifact>) {
    && MapOk(root, []) && Used(root)
    && (forall i :: 0 <= i < |files| ==> files[i].File?)
    && (forall x :: Count(root, [], x) + Count(files, [], x) == Due(artifacts, x))
  }

  lemma RootFile(root: seq<Node>, files: seq<Node>, artifacts: seq<Artifact>, i: nat)
    requires i < |artifacts| && Built(root, files, artifacts[..i]) && |Split('/', artifacts[i].title)| == 1
    ensures Built(root, files + [File(artifacts[i], artifacts[i].title)], artifacts[..i + 1])
  {
    var a := artifacts[i];
    JoinSplit('/', a.title);
    assert Split('/', a.title) == [a.title];
    forall x ensures Count(root, [], x) + Count(files + [File(a, a.title)], [], x) == Due(artifacts[..i + 1], x) {
      CountAppend(files, [File(a, a.title)], [], x);
      DueNext(artifacts, i, x);
    }
  }

  /** Adding a file at the root of all chains. */
  lemma AddedAtTop(made: seq<Node>, dirs: seq<string>, file: Node, x: Leaf)
    requires MapOk(made, []) && FindFolder(made, dirs).Some? && file.File?
    ensures Count(AddFile(made, dirs, file), [], x)
         == Count(made, [], x) + (if Leaf(file.artifact, dirs + [file.name]) == x then 1 else 0)
    ensures MapOk(AddFile(made, dirs, file), [])
  {
    AddFileAdds(made, dirs, file, [], x);
    assert [] + dirs == dirs;
  }

  lemma FolderFileCounts(root: seq<Node>, dirs: seq<string>, file: Node, x: Leaf)
    requires MapOk(root, []) && MapOk(MakeDirs(root, "", dirs), []) && file.File?
    requires FindFolder(MakeDirs(root, "", dirs), dirs).Some?
    ensures Count(AddFile(MakeDirs(root, "", dirs), dirs, file), [], x)
         == Count(root, [], x) + (if Leaf(file.artifact, dirs + [file.name]) == x then 1 else 0)
    ensures MapOk(AddFile(MakeDirs(root, "", dirs), dirs, file), [])
  {
    MakeDirsCounts(root, "", dirs, [], x);
    AddedAtTop(MakeDirs(root, "", dirs), dirs, file, x);
  }

  lemma FolderIsMade(root: seq<Node>, title: string, dirs: seq<string>, name: string)
    requires MapOk(root, []) && dirs != [] && dirs + [name] == Split('/', title)
    ensures MapOk(MakeDirs(root, "", dirs), []) && FindFolder(MakeDirs(root, "", dirs), dirs).Some?
  {
    assert forall k :: 0 <= k < |dirs| ==> dirs[k] == Split('/', title)[k];
    MakeDirsOk(root, "", dirs, []);
    MakeDirsFinds(root, "", dirs);
  }

  lemma FolderFile(root: seq<Node>, files: seq<Node>, artifacts: seq<Artifact>, i: nat, dirs: seq<string>, name: string)
    requires i < |artifacts| && Built(root, files, artifacts[..i])
    requires dirs != [] && dirs + [name] == Split('/', artifacts[i].title)
    ensures FindFolder(MakeDirs(root, "", dirs), dirs).Some?
    ensures Built(AddFile(MakeDirs(root, "", dirs), dirs, File(artifacts[i], name)), files, artifacts[..i + 1])
  {
    var file := File(artifacts[i], name);
    FolderIsMade(root, artifacts[i].title, dirs, name);
    AddedIsUsed(root, "", dirs, file, []);
    var root' := AddFile(MakeDirs(root, "", dirs), dirs, file);
    FolderFileCounts(root, dirs, file, Leaf(artifacts[i], []));
    forall x ensures Count(root', [], x) + Count(files, [], x) == Due(artifacts[..i + 1], x) {
      FolderFileCounts(root, dirs, file, x);
      DueNext(artifacts, i, x);
    }
  }

  /**
   What `buildTree` promises of `tree`: exactly the artifacts, each at its
   title's place, in finished sorted levels.
   */
  ghost predicate TreeOf(nameLe: (string, string) -> bool, artifacts: seq<Artifact>, tree: seq<Node>) {
    && (forall x :: Count(tree, [], x) == Due(artifacts, x))
    && Finished(tree, []) && NoneEmpty(tree) && LevelsSorted(nameLe, tree)
  }

  lemma FinishTree(nameLe: (string, string) -> bool, root: seq<Node>, files: seq<Node>, artifacts: seq<Artifact>)
    requires Sorting.TotalPreorder(nameLe) && Built(root, files, artifacts)
    ensures TreeOf(nameLe, artifacts, SortTree(nameLe, Flatten(root) + files))
  {
    var flat := Flatten(root) + files;
    FlattenKeeps(root, [], Leaf(Artifact("", ""), []));
    FilesThenFolders(files, Flatten(root), []);
    FlattenIsNotEmpty(root, []);
    SortTreeSorts(nameLe, flat, []);
    forall x ensures Count(SortTree(nameLe, flat), [], x) == Due(artifacts, x) {
      FlattenKeeps(root, [], x);
      CountAppend(Flatten(root), files, [], x);
      SortTreeCounts(nameLe, flat, [], x, "");
    }
  }

  method BuildTree(nameLe: (string, string) -> bool, artifacts: seq<Artifact>) returns (tree: seq<Node>)
    requires Sorting.TotalPreorder(nameLe)
    ensures TreeOf(nameLe, artifacts, tree)
  {
    var root, rootFiles: seq<Node> := [], [];
    for i := 0 to |artifacts|
      invariant Built(root, rootFiles, artifacts[..i])
    {
      var artifact := artifacts[i];
      var parts := Split('/', artifact.title);
      if |parts| == 1 {
        RootFile(root, rootFiles, artifacts, i);
        rootFiles := rootFiles + [File(artifact, artifact.title)];
      } else {
        var fileName, dirs := parts[|parts| - 1], parts[..|parts| - 1];
        FolderFile(root, rootFiles, artifacts, i, dirs, fileName);
        root := MakeDirs(root, "", dirs);
        var deepest := FindByWalking(root, dirs);
        if deepest.Some? {
          root := AddFile(root, dirs, File(artifact, fileName));
        }
      }
    }
    assert artifacts[..|artifacts|] == artifacts;
    FinishTree(nameLe, root, rootFiles, artifacts);
    var result := FlattenMap(root);
    result := result + rootFiles;
    tree := SortFromTop(nameLe, result);
  }

  // ----- Which folders there are, and what their paths say -----

  /** `folder` is reached from `nodes` through the folders named by `at`, itself the last. */
  ghost predicate FolderIn(nodes: seq<Node>, at: seq<string>, folder: Node)
    decreases |at|
  {
    at != [] && exists node :: (node in nodes && node.Folder? && node.name == at[0]
      && (if |at| == 1 then node == folder else FolderIn(node.children, at[1..], folder)))
  }

  /** `title` puts its file somewhere below the folder at `at`. */
  predicate Passes(title: string, at: seq<string>) {
    |at| < |Split('/', title)| && at <= Split('/', title)
  }

  /** A file counted in `nodes` stands below `chain`, in a node named by the next part of its place. */
  lemma {:induction false} CountedNode(nodes: seq<Node>, chain: seq<string>, x: Leaf) returns (node: Node)
    requires Count(nodes, chain, x) > 0
    ensures node in nodes && CountOf(node, chain, x) > 0 && chain + [node.name] <= x.at
    decreases nodes
  {
    if CountOf(nodes[0], chain, x) == 0 {
      node := CountedNode(nodes[1..], chain, x);
    } else {
      node := nodes[0];
      if node.Folder? {
        var inner := if Count(node.children, chain + [node.name], x) > 0 then node.children else node.childMap.folders;
        var below := CountedNode(inner, chain + [node.name], x);
      }
    }
  }

  lemma {:induction false} FolderOfLeaf(nodes: seq<Node>, chain: seq<string>, x: Leaf, at: seq<string>)
    returns (folder: Node)
    requires Finished(nodes, chain) && Count(nodes, chain, x) > 0 && at != []
    requires chain + at <= x.at && |chain + at| < |x.at|
    ensures FolderIn(nodes, at, folder)
    decreases |at|
  {
    var node := CountedNode(nodes, chain, x);
    assert NodeFinished(node, chain);
    assert node.name == x.at[|chain|] == at[0];
    if |at| == 1 {
      folder := node;
    } else {
      assert chain + [at[0]] + at[1..] == chain + at;
      folder := FolderOfLeaf(node.children, chain + [at[0]], x, at[1..]);
    }
  }

  lemma {:induction false} CountMember(nodes: seq<Node>, node: Node, chain: seq<string>, x: Leaf)
    requires node in nodes
    ensures Count(nodes, chain, x) >= CountOf(node, chain, x)
  {
    if nodes[0] != node {
      CountMember(nodes[1..], node, chain, x);
    }
  }

  lemma {:induction false} SomeLeaf(nodes: seq<Node>, chain: seq<string>) returns (x: Leaf)
    requires NoneEmpty(nodes) && nodes != []
    ensures Count(nodes, chain, x) > 0 && chain <= x.at && |chain| < |x.at|
    decreases nodes
  {
    var node := nodes[0];
    assert NotEmpty(node);
    if node.File? {
      x := Leaf(node.artifact, chain + [node.name]);
    } else {
      x := SomeLeaf(node.children, chain + [node.name]);
    }
  }

  lemma {:induction false} LeafOfFolder(nodes: seq<Node>, chain: seq<string>, at: seq<string>, folder: Node)
    returns (x: Leaf)
    requires NoneEmpty(nodes) && FolderIn(nodes, at, folder)
    ensures Count(nodes, chain, x) > 0 && chain + at <= x.at && |chain + at| < |x.at|
    decreases |at|
  {
    var node :| node in nodes && node.Folder? && node.name == at[0]
      && (if |at| == 1 then node == folder else FolderIn(node.children, at[1..], folder));
    assert NotEmpty(node);
    assert chain + [at[0]] + at[1..] == chain + at;
    if |at| == 1 {
      x := SomeLeaf(node.children, chain + [at[0]]);
    } else {
      x := LeafOfFolder(node.children, chain + [at[0]], at[1..], folder);
    }
    CountMember(nodes, node, chain, x);
  }

  lemma TitleOfFolder(nameLe: (string, string) -> bool, artifacts: seq<Artifact>, tree: seq<Node>, at: seq<string>,
                      folder: Node) returns (a: Artifact)
    requires TreeOf(nameLe, artifacts, tree) && FolderIn(tree, at, folder)
    ensures a in artifacts && Passes(a.title, at)
  {
    var x := LeafOfFolder(tree, [], at, folder);
    assert [] + at == at;
    assert Count(tree, [], x) == Due(artifacts, x);
    a := x.artifact;
  }

  lemma FolderOfTitle(nameLe: (string, string) -> bool, artifacts: seq<Artifact>, tree: seq<Node>, at: seq<string>,
                      a: Artifact) returns (folder: Node)
    requires TreeOf(nameLe, artifacts, tree) && at != [] && a in artifacts && Passes(a.title, at)
    ensures FolderIn(tree, at, folder)
  {
    var x := Leaf(a, Split('/', a.title));
    assert a in multiset(artifacts);
    assert Count(tree, [], x) == Due(artifacts, x);
    assert [] + at == at;
    folder := FolderOfLeaf(tree, [], x, at);
  }

  ghost predicate HasFolder(tree: seq<Node>, at: seq<string>, folder: Node) {
    folder.Folder? && FolderIn(tree, at, folder)
  }

  /** Some title puts its file below the folders `at`. */
  predicate NamesFolder(artifacts: seq<Artifact>, at: seq<string>) {
    at != [] && exists a :: a in artifacts && Passes(a.title, at)
  }

  /** The tree has exactly the folders the titles name: one for every proper prefix of a title's parts. */
  lemma FoldersAreTitles(nameLe: (string, string) -> bool, artifacts: seq<Artifact>, tree: seq<Node>, at: seq<string>)
    requires TreeOf(nameLe, artifacts, tree) && at != []
    ensures (exists folder :: HasFolder(tree, at, folder)) <==> NamesFolder(artifacts, at)
  {
    if folder :| HasFolder(tree, at, folder) {
      var a := TitleOfFolder(nameLe, artifacts, tree, at, folder);
    }
    if NamesFolder(artifacts, at) {
      var a :| a in artifacts && Passes(a.title, at);
      var folder := FolderOfTitle(nameLe, artifacts, tree, at, a);
      FolderHasPath(tree, [], at, folder);
      assert HasFolder(tree, at, folder);
    }
  }

  /** Leading empty names, which a path does not show. */
  function Shown(at: seq<string>): seq<string> {
    if at != [] && at[0] == "" then Shown(at[1..]) else at
  }

  lemma {:induction false} ShownNext(at: seq<string>, dir: string)
    ensures Shown(at + [dir]) == if Shown(at) == [] then Shown([dir]) else Shown(at) + [dir]
  {
    if at == [] {
      assert at + [dir] == [dir];
    } else if at[0] == "" {
      ShownNext(at[1..], dir);
      assert (at + [dir])[1..] == at[1..] + [dir];
    }
  }

  /** A folder's path is the join of its names, less the leading empty ones. */
  lemma {:induction false} PathIsJoin(at: seq<string>)
    ensures PathOf(at) == Join('/', Shown(at))
    ensures PathOf(at) == "" <==> Shown(at) == []
    decreases |at|
  {
    if at != [] {
      var dirs, dir := at[..|at| - 1], at[|at| - 1];
      PathIsJoin(dirs);
      ShownNext(dirs, dir);
      assert at == dirs + [dir];
      if Shown(dirs) != [] {
        JoinAppend('/', Shown(dirs), [dir]);
      }
    }
  }

  lemma {:induction false} FolderHasPath(nodes: seq<Node>, chain: seq<string>, at: seq<string>, folder: Node)
    requires Finished(nodes, chain) && FolderIn(nodes, at, folder)
    ensures folder.Folder? && folder.path == PathOf(chain + at)
    ensures forall i :: 0 <= i < |at| ==> '/' !in at[i]
    decreases |at|
  {
    var node :| node in nodes && node.Folder? && node.name == at[0]
      && (if |at| == 1 then node == folder else FolderIn(node.children, at[1..], folder));
    assert NodeFinished(node, chain);
    assert chain + [at[0]] + at[1..] == chain + at;
    if |at| > 1 {
      FolderHasPath(node.children, chain + [at[0]], at[1..], folder);
      assert forall i :: 1 <= i < |at| ==> at[i] == at[1..][i - 1];
    }
  }

  lemma {:induction false} ShownIsPart(at: seq<string>)
    requires forall i :: 0 <= i < |at| ==> '/' !in at[i]
    ensures forall i :: 0 <= i < |Shown(at)| ==> '/' !in Shown(at)[i]
  {
    if at != [] {
      ShownIsPart(at[1..]);
    }
  }

  /** Two folders show the same path exactly when their places agree past leading empty names. */
  lemma SamePath(tree: seq<Node>, at: seq<string>, folder: Node, at': seq<string>, folder': Node)
    requires Finished(tree, []) && FolderIn(tree, at, folder) && FolderIn(tree, at', folder')
    ensures folder.Folder? && folder'.Folder?
    ensures folder.path == folder'.path <==> Shown(at) == Shown(at')
  {
    FolderHasPath(tree, [], at, folder);
    FolderHasPath(tree, [], at', folder');
    assert [] + at == at && [] + at' == at';
    PathIsJoin(at);
    PathIsJoin(at');
    ShownIsPart(at);
    ShownIsPart(at');
    if folder.path == folder'.path && Shown(at) != [] {
      SplitJoin('/', Shown(at));
      SplitJoin('/', Shown(at'));
    }
  }

  /** No two folders of the tree show one path. */
  ghost predicate UniquePaths(tree: seq<Node>) {
    forall at, at', folder, folder' ::
      HasFolder(tree, at, folder) && HasFolder(tree, at', folder') && folder.path == folder'.path ==> at == at'
  }

  /** No two places the titles name differ in leading empty names alone. */
  ghost predicate ShownApart(artifacts: seq<Artifact>) {
    forall at, at' :: NamesFolder(artifacts, at) && NamesFolder(artifacts, at') && Shown(at) == Shown(at') ==> at == at'
  }

  lemma UniqueIsApart(nameLe: (string, string) -> bool, artifacts: seq<Artifact>, tree: seq<Node>, at: seq<string>,
                      at': seq<string>)
    requires TreeOf(nameLe, artifacts, tree) && UniquePaths(tree)
    requires NamesFolder(artifacts, at) && NamesFolder(artifacts, at') && Shown(at) == Shown(at')
    ensures at == at'
  {
    var a :| a in artifacts && Passes(a.title, at);
    var a' :| a' in artifacts && Passes(a'.title, at');
    var folder := FolderOfTitle(nameLe, artifacts, tree, at, a);
    var folder' := FolderOfTitle(nameLe, artifacts, tree, at', a');
    SamePath(tree, at, folder, at', folder');
    assert HasFolder(tree, at, folder) && HasFolder(tree, at', folder');
  }

  lemma ApartIsUnique(nameLe: (string, string) -> bool, artifacts: seq<Artifact>, tree: seq<Node>,
                      at: seq<string>, folder: Node, at': seq<string>, folder': Node)
    requires TreeOf(nameLe, artifacts, tree) && ShownApart(artifacts)
    requires HasFolder(tree, at, folder) && HasFolder(tree, at', folder') && folder.path == folder'.path
    ensures at == at'
  {
    var a := TitleOfFolder(nameLe, artifacts, tree, at, folder);
    var a' := TitleOfFolder(nameLe, artifacts, tree, at', folder');
    SamePath(tree, at, folder, at', folder');
    assert NamesFolder(artifacts, at) && NamesFolder(artifacts, at');
  }

  /**
   A tree's folder paths are unique exactly when no two places its titles name
   differ in leading empty names alone.
   */
  lemma UniqueExactly(nameLe: (string, string) -> bool, artifacts: seq<Artifact>, tree: seq<Node>)
    requires TreeOf(nameLe, artifacts, tree)
    ensures UniquePaths(tree) <==> ShownApart(artifacts)
  {
    if UniquePaths(tree) {
      forall at, at' | NamesFolder(artifacts, at) && NamesFolder(artifacts, at') && Shown(at) == Shown(at')
        ensures at == at' {
        UniqueIsApart(nameLe, artifacts, tree, at, at');
      }
    }
    if ShownApart(artifacts) {
      forall at, at', folder, folder' |
          HasFolder(tree, at, folder) && HasFolder(tree, at', folder') && folder.path == folder'.path
        ensures at == at' {
        ApartIsUnique(nameLe, artifacts, tree, at, folder, at', folder');
      }
    }
  }

  /** When no title starts with a slash, a path is the plain join of the names and belongs to one place. */
  lemma PathsAreUnique(nameLe: (string, string) -> bool, artifacts: seq<Artifact>, tree: seq<Node>,
                       at: seq<string>, folder: Node, at': seq<string>, folder': Node)
    requires TreeOf(nameLe, artifacts, tree)
    requires forall a :: a in artifacts ==> !("/" <= a.title)
    requires FolderIn(tree, at, folder) && FolderIn(tree, at', folder')
    ensures folder.Folder? && folder'.Folder? && folder.path == Join('/', at)
    ensures folder.path == folder'.path ==> at == at'
  {
    StartsNamed(nameLe, artifacts, tree, at, folder);
    StartsNamed(nameLe, artifacts, tree, at', folder');
    SamePath(tree, at, folder, at', folder');
    FolderHasPath(tree, [], at, folder);
    assert [] + at == at;
    PathIsJoin(at);
  }

  lemma StartsNamed(nameLe: (string, string) -> bool, artifacts: seq<Artifact>, tree: seq<Node>, at: seq<string>,
                    folder: Node)
    requires TreeOf(nameLe, artifacts, tree)
    requires forall a :: a in artifacts ==> !("/" <= a.title)
    requires FolderIn(tree, at, folder)
    ensures Shown(at) == at
  {
    var a := TitleOfFolder(nameLe, artifacts, tree, at, folder);
    assert at[0] == Split('/', a.title)[0];
    assert a.title != [] && a.title[0] == '/' ==> "/" <= a.title;
  }

  /** Leading slashes can break it: `/a/x` and `a/y` put two folders of path `a` in one tree. */
  lemma LeadingSlashCollides(nameLe: (string, string) -> bool, tree: seq<Node>)
    requires TreeOf(nameLe, [Artifact("1", "/a/x"), Artifact("2", "a/y")], tree)
    ensures exists folder, folder' :: (FolderIn(tree, ["", "a"], folder) && FolderIn(tree, ["a"], folder')
      && folder.Folder? && folder'.Folder? && folder.path == folder'.path)
  {
    var one, two := Artifact("1", "/a/x"), Artifact("2", "a/y");
    SplitJoin('/', ["", "a", "x"]);
    SplitJoin('/', ["a", "y"]);
    assert Join('/', ["", "a", "x"]) == "/a/x" by {
      assert ["", "a", "x"][1..] == ["a", "x"] && ["a", "x"][1..] == ["x"];
    }
    assert Join('/', ["a", "y"]) == "a/y" by {
      assert ["a", "y"][1..] == ["y"];
    }
    assert one in [one, two] && two in [one, two];
    var folder := FolderOfTitle(nameLe, [one, two], tree, ["", "a"], one);
    var folder' := FolderOfTitle(nameLe, [one, two], tree, ["a"], two);
    assert ["", "a"][1..] == ["a"];
    SamePath(tree, ["", "a"], folder, ["a"], folder');
  }
}
