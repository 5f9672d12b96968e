/**
 The project scaffolder as it runs: a filesystem object whose directory set
 and file table the walk updates one `os.makedirs` or `open(...).close()` at
 a time, with the same loops and the same recursion as the script. Each
 method is proved to leave the filesystem exactly as the matching function
 of `ScaffoldSpec` says, so every property proved there holds of it.

 A raised exception is modelled as a `false` result that every caller passes
 straight up, leaving the filesystem as far as the walk got.
 */
module Scaffold {
  import opened ScaffoldSpec

  class FileSystem {
    var dirs: set<Path>
    var files: map<Path, string>

    /** The filesystem as a value. */
    function State(): Fs
      reads this
    {
      Fs(dirs, files)
    }

    /** A filesystem holding only the working directory and its ancestors. */
    constructor (cwd: Path)
      ensures State() == Fs(Prefixes(cwd), map[])
      ensures WellFormed(State())
    {
      dirs := Prefixes(cwd);
      files := map[];
      new;
      assert cwd[..0] == [];
      forall p | p in dirs && p != [] ensures ParentOf(p) in dirs {
        var i :| 0 <= i <= |cwd| && p == cwd[..i];
        assert ParentOf(p) == cwd[..i - 1];
      }
    }

    /** `ensure_dir(path)`, that is `os.makedirs(path, exist_ok=True)`: look
        for a regular file at `path` or above it, then make every missing
        directory down to `path`. */
    method EnsureDir(path: Path) returns (ok: bool)
      modifies this
      ensures Run(State(), ok) == MakeDirs(old(State()), path)
    {
      var i := 0;
      while i <= |path|
        invariant 0 <= i <= |path| + 1
        invariant forall j :: 0 <= j < i ==> path[..j] !in files
      {
        if path[..i] in files {
          return false;
        }
        i := i + 1;
      }
      dirs := dirs + Prefixes(path);
      return true;
    }

    /** `create_from_list(base, items)`. */
    method CreateFromList(base: Path, items: seq<Node>) returns (ok: bool)
      modifies this
      ensures Run(State(), ok) == FromList(old(State()), base, items)
      decreases ListSize(items), 1
    {
      for i := 0 to |items|
        invariant FromList(State(), base, items[i..]) == FromList(old(State()), base, items)
      {
        ItemSmaller(items, i);
        assert items[i..][0] == items[i] && items[i..][1..] == items[i + 1..];
        match items[i] {
          case Str(name) =>
            var target := base + [name];
            if !Exists(State(), target) {
              var parent := ParentOf(target);
              if parent != [] && !Exists(State(), parent) {
                ok := EnsureDir(parent);
                if !ok {
                  return;
                }
              }
              if parent !in dirs {
                // `open` raises: the parent is not a directory
                return false;
              }
              files := files[target := ""];
            }
          case Dict(entries) =>
            ok := CreateFolders(base, entries);
            if !ok {
              return;
            }
          case _ =>
        }
      }
      return true;
    }

    /** The loop over one dict's entries, in `create_from_list` and in the
        dict branch of `create_structure`: each key becomes a folder under
        `base`, whose contents are walked only when they are a list. */
    method CreateFolders(base: Path, entries: seq<Entry>) returns (ok: bool)
      modifies this
      ensures Run(State(), ok) == FromEntries(old(State()), base, entries)
      decreases EntriesSize(entries), 0
    {
      for i := 0 to |entries|
        invariant FromEntries(State(), base, entries[i..]) == FromEntries(old(State()), base, entries)
      {
        EntrySmaller(entries, i);
        assert entries[i..][0] == entries[i] && entries[i..][1..] == entries[i + 1..];
        var folder := base + [entries[i].key];
        ok := EnsureDir(folder);
        if !ok {
          return;
        }
        if entries[i].value.List? {
          ok := CreateFromList(folder, entries[i].value.items);
          if !ok {
            return;
          }
        }
      }
      return true;
    }

    /** `create_structure(root, tree)`. */
    method CreateStructure(root: Path, tree: seq<Entry>) returns (ok: bool)
      modifies this
      ensures Run(State(), ok) == Structure(old(State()), root, tree)
    {
      for i := 0 to |tree|
        invariant Structure(State(), root, tree[i..]) == Structure(old(State()), root, tree)
      {
        assert tree[i..][0] == tree[i] && tree[i..][1..] == tree[i + 1..];
        var folder := FolderPath(root, tree[i].key);
        ok := EnsureDir(folder);
        if !ok {
          return;
        }
        ghost var made := State();
        match tree[i].value {
          case List(items) =>
            ok := CreateFromList(folder, items);
          case Dict(entries) =>
            ok := CreateFolders(folder, entries);
          case _ =>
        }
        assert Run(State(), ok) == FillFolder(made, folder, tree[i].value);
        if !ok {
          return;
        }
      }
      return true;
    }

    /** The script's `__main__` block run in working directory `cwd`: build
        the tree there and exit with 1 if that raised, 0 otherwise. */
    method RunScript(cwd: Path, tree: seq<Entry>) returns (exitStatus: int)
      modifies this
      ensures State() == Structure(old(State()), cwd, tree).fs
      ensures exitStatus == ExitStatus(Structure(old(State()), cwd, tree))
      ensures Extends(old(State()), State())
      ensures old(WellFormed(State())) ==> WellFormed(State())
    {
      StructureGrows(State(), cwd, tree);
      if WellFormed(State()) {
        StructurePreservesWellFormed(State(), cwd, tree);
      }
      var ok := CreateStructure(cwd, tree);
      exitStatus := if ok then 0 else 1;
    }
  }
}
