/** `computeEmptyFolders`: the folders that need a directory entry of their own. */
module EmptyFolders {
  import opened Model
  import opened Paths
  import opened Naming

  /** Some file path lies under `folder`, however deep. */
  predicate HasFileUnder(paths: seq<string>, folder: string) {
    exists i :: 0 <= i < |paths| && Under(paths[i], folder)
  }

  /** The simple form: the folders, in order, under which no file path lies. */
  function WithoutFiles(folders: seq<ArchiveFolder>, paths: seq<string>): seq<ArchiveFolder> {
    if folders == [] then []
    else
      var rest := WithoutFiles(folders[1..], paths);
      if HasFileUnder(paths, folders[0].path) then rest else [folders[0]] + rest
  }

  function PathsOf(files: seq<ArchiveFile>): (paths: seq<string>)
    ensures |paths| == |files| && forall i :: 0 <= i < |files| ==> paths[i] == files[i].path
  {
    seq(|files|, i requires 0 <= i < |files| => files[i].path)
  }

  // ----- sort.Strings and sort.SearchStrings -----

  predicate Sorted(paths: seq<string>) {
    forall i, j :: 0 <= i < j < |paths| ==> AtMost(paths[i], paths[j])
  }

  function Inserted(paths: seq<string>, p: string): seq<string> {
    if paths == [] then [p]
    else if AtMost(p, paths[0]) then [p] + paths
    else [paths[0]] + Inserted(paths[1..], p)
  }

  lemma {:induction false} InsertedSame(paths: seq<string>, p: string)
    ensures multiset(Inserted(paths, p)) == multiset(paths) + multiset{p}
  {
    if paths != [] && !AtMost(p, paths[0]) {
      InsertedSame(paths[1..], p);
      assert paths == [paths[0]] + paths[1..];
    }
  }

  predicate Below(p: string, paths: seq<string>) {
    forall j :: 0 <= j < |paths| ==> AtMost(p, paths[j])
  }

  lemma {:induction false} SortedCons(p: string, rest: seq<string>)
    requires Sorted(rest) && Below(p, rest)
    ensures Sorted([p] + rest)
  {
  }

  lemma {:induction false} InsertedBelow(paths: seq<string>, p: string, q: string)
    requires Below(q, paths) && AtMost(q, p)
    ensures Below(q, Inserted(paths, p))
  {
    if paths != [] && !AtMost(p, paths[0]) {
      InsertedBelow(paths[1..], p, q);
    }
  }

  lemma {:induction false} InsertedSorted(paths: seq<string>, p: string)
    requires Sorted(paths)
    ensures Sorted(Inserted(paths, p))
  {
    if paths != [] {
      if AtMost(p, paths[0]) {
        forall j | 0 <= j < |paths| ensures AtMost(p, paths[j]) {
          if j > 0 {
            AtMostTransitive(p, paths[0], paths[j]);
          }
        }
        SortedCons(p, paths);
      } else {
        AtMostTotal(p, paths[0]);
        InsertedSorted(paths[1..], p);
        InsertedBelow(paths[1..], p, paths[0]);
        SortedCons(paths[0], Inserted(paths[1..], p));
      }
    }
  }

  /** `sort.Strings`: the sorted permutation. */
  function SortStrings(paths: seq<string>): (r: seq<string>)
    ensures Sorted(r) && multiset(r) == multiset(paths)
  {
    if paths == [] then []
    else
      var rest := SortStrings(paths[1..]);
      InsertedSorted(rest, paths[0]);
      InsertedSame(rest, paths[0]);
      assert paths == [paths[0]] + paths[1..];
      Inserted(rest, paths[0])
  }

  /** `sort.SearchStrings`: the first index whose string is not below `target`. */
  method SearchStrings(paths: seq<string>, target: string) returns (idx: nat)
    requires Sorted(paths)
    ensures idx <= |paths|
    ensures forall i :: 0 <= i < idx ==> !AtMost(target, paths[i])
    ensures forall i :: idx <= i < |paths| ==> AtMost(target, paths[i])
  {
    idx := 0;
    var high := |paths|;
    while idx < high
      invariant 0 <= idx <= high <= |paths|
      invariant forall i :: 0 <= i < idx ==> !AtMost(target, paths[i])
      invariant forall i :: high <= i < |paths| ==> AtMost(target, paths[i])
    {
      var mid := (idx + high) / 2;
      if AtMost(target, paths[mid]) {
        forall i | mid <= i < |paths| ensures AtMost(target, paths[i]) {
          if i > mid {
            AtMostTransitive(target, paths[mid], paths[i]);
          }
        }
        high := mid;
      } else {
        forall i | 0 <= i <= mid ensures !AtMost(target, paths[i]) {
          if i < mid && AtMost(target, paths[i]) {
            AtMostTransitive(target, paths[i], paths[mid]);
          }
        }
        idx := mid + 1;
      }
    }
  }

  /** Looking at the one string found by the search decides whether any path lies under the
      folder: the extensions of `target` follow it without a gap. */
  lemma {:induction false} SearchDecides(paths: seq<string>, folder: string, idx: nat)
    requires idx <= |paths| && Sorted(paths)
    requires forall i :: 0 <= i < idx ==> !AtMost(folder + "/", paths[i])
    requires forall i :: idx <= i < |paths| ==> AtMost(folder + "/", paths[i])
    ensures HasFileUnder(paths, folder) <==> idx < |paths| && folder + "/" <= paths[idx]
  {
    var target := folder + "/";
    if HasFileUnder(paths, folder) {
      var i :| 0 <= i < |paths| && Under(paths[i], folder);
      PrefixAtMost(target, paths[i]);
      if i == idx {
      } else {
        PrefixBlock(target, paths[idx], paths[i]);
      }
    }
  }

  lemma {:induction false} SameFiles(a: seq<string>, b: seq<string>, folder: string)
    requires multiset(a) == multiset(b)
    ensures HasFileUnder(a, folder) <==> HasFileUnder(b, folder)
  {
    if HasFileUnder(a, folder) {
      var i :| 0 <= i < |a| && Under(a[i], folder);
      assert a[i] in multiset(b);
    }
    if HasFileUnder(b, folder) {
      var i :| 0 <= i < |b| && Under(b[i], folder);
      assert b[i] in multiset(a);
    }
  }

  lemma {:induction false} WithoutFilesNext(folders: seq<ArchiveFolder>, k: nat, paths: seq<string>)
    requires k < |folders|
    ensures WithoutFiles(folders[..k + 1], paths) ==
            WithoutFiles(folders[..k], paths) +
            if HasFileUnder(paths, folders[k].path) then [] else [folders[k]]
  {
    var a, b := folders[..k], folders[..k + 1];
    if k == 0 {
      assert b == [folders[0]] && b[1..] == [];
    } else {
      WithoutFilesNext(folders[1..], k - 1, paths);
      assert a[1..] == folders[1..][..k - 1] && b[1..] == folders[1..][..k];
    }
  }

  /** The sort-and-search form computes the simple form, for every folder and file list. */
  method ComputeEmptyFolders(folders: seq<ArchiveFolder>, files: seq<ArchiveFile>) returns (empty: seq<ArchiveFolder>)
    ensures empty == WithoutFiles(folders, PathsOf(files))
  {
    if |folders| == 0 {
      return [];
    }
    var paths: seq<string> := [];
    for i := 0 to |files|
      invariant paths == PathsOf(files)[..i]
    {
      paths := paths + [files[i].path];
    }
    assert paths == PathsOf(files);
    paths := SortStrings(paths);
    empty := [];
    for k := 0 to |folders|
      invariant empty == WithoutFiles(folders[..k], PathsOf(files))
    {
      var idx := SearchStrings(paths, folders[k].path + "/");
      SearchDecides(paths, folders[k].path, idx);
      SameFiles(paths, PathsOf(files), folders[k].path);
      WithoutFilesNext(folders, k, PathsOf(files));
      if !(idx < |paths| && folders[k].path + "/" <= paths[idx]) {
        empty := empty + [folders[k]];
      }
    }
    assert folders[..|folders|] == folders;
  }

  // ----- rebasing first or later makes no difference -----

  function RebasedFolders(folders: seq<ArchiveFolder>, root: string): (r: seq<ArchiveFolder>)
    ensures |r| == |folders|
    ensures forall i :: 0 <= i < |folders| ==> r[i] == folders[i].(path := Rebase(folders[i].path, root))
  {
    seq(|folders|, i requires 0 <= i < |folders| => folders[i].(path := Rebase(folders[i].path, root)))
  }

  function RebasedPaths(paths: seq<string>, root: string): (r: seq<string>)
    ensures |r| == |paths| && forall i :: 0 <= i < |paths| ==> r[i] == Rebase(paths[i], root)
  {
    seq(|paths|, i requires 0 <= i < |paths| => Rebase(paths[i], root))
  }

  /** Every path starts with segment `top`. */
  predicate SharedTop(folders: seq<ArchiveFolder>, paths: seq<string>, top: string) {
    && (forall i :: 0 <= i < |folders| ==> Split(folders[i].path)[0] == top)
    && (forall i :: 0 <= i < |paths| ==> Split(paths[i])[0] == top)
  }

  lemma {:induction false} RebaseKeepsFiles(paths: seq<string>, folder: string, root: string)
    requires SlashFree(root)
    requires forall i :: 0 <= i < |paths| ==> Split(paths[i])[0] == Split(folder)[0]
    ensures HasFileUnder(RebasedPaths(paths, root), Rebase(folder, root)) <==> HasFileUnder(paths, folder)
  {
    forall i | 0 <= i < |paths|
      ensures Under(RebasedPaths(paths, root)[i], Rebase(folder, root)) <==> Under(paths[i], folder)
    {
      RebaseKeepsTree(paths[i], folder, root);
    }
  }

  /** The same folders come out empty before and after rebasing. */
  lemma {:induction false} RebaseKeepsEmpty(folders: seq<ArchiveFolder>, paths: seq<string>, root: string, top: string)
    requires SlashFree(root) && SharedTop(folders, paths, top)
    ensures WithoutFiles(RebasedFolders(folders, root), RebasedPaths(paths, root)) ==
            RebasedFolders(WithoutFiles(folders, paths), root)
  {
    if folders != [] {
      RebaseKeepsFiles(paths, folders[0].path, root);
      assert RebasedFolders(folders, root)[1..] == RebasedFolders(folders[1..], root);
      RebaseKeepsEmpty(folders[1..], paths, root, top);
      if !HasFileUnder(paths, folders[0].path) {
        var rest := WithoutFiles(folders[1..], paths);
        assert RebasedFolders([folders[0]] + rest, root) ==
               [RebasedFolders(folders, root)[0]] + RebasedFolders(rest, root);
      }
    }
  }
}
