/**
 * The file system engine: the root directory, the current directory, the
 * current path string and the single open-file handle, with the operations
 * that create, delete, rename, navigate and edit through the handle.
 */
module FileSystems {
  import opened Outcomes
  import opened PyStr
  import opened FileObjects
  import opened Tree

  // ---------------------------------------------------------------- path strings

  /** The names _getDirFromPath walks for a path string: `path.strip("/").split("/")`. */
  function PathNames(path: string): (names: seq<string>)
    ensures |names| >= 1
  {
    SplitOn(StripChar(path, '/'), '/')
  }

  /** chDir(".."): `"/".join(path.strip("/").split("/")[:-1])`. */
  function ParentPath(path: string): string {
    var names := PathNames(path);
    Join(names[..|names| - 1], '/')
  }

  /** Names a descent can append to current_path and walk back: non-empty and free of '/'. */
  predicate PlainNames(names: seq<string>) {
    forall i :: 0 <= i < |names| ==> names[i] != [] && '/' !in names[i]
  }

  /** The current_path that descending from "/" through `names`, one chDir at a time, builds. */
  function Canonical(names: seq<string>): (p: string)
    ensures p != [] && p[0] == '/' && p[|p| - 1] == '/'
  {
    if names == [] then "/" else Canonical(names[..|names| - 1]) + names[|names| - 1] + "/"
  }

  lemma {:induction false} CanonicalJoin(names: seq<string>)
    requires |names| >= 1
    ensures Canonical(names) == "/" + Join(names, '/') + "/"
  {
    var n := |names|;
    if n == 1 {
      assert names[..0] == [];
    } else {
      CanonicalJoin(names[..n - 1]);
      JoinSnoc(names[..n - 1], names[n - 1], '/');
      assert names[..n - 1] + [names[n - 1]] == names;
    }
  }

  /** The walk of a join of plain names, framed by '/' or bare, is those names. */
  lemma {:induction false} PathNamesOfJoin(names: seq<string>)
    requires |names| >= 1 && PlainNames(names)
    ensures PathNames("/" + Join(names, '/') + "/") == names
    ensures PathNames(Join(names, '/')) == names
    ensures Join(names, '/') != ""
  {
    var j := Join(names, '/');
    JoinEnds(names, '/');
    assert names[0][0] in names[0];
    var last := names[|names| - 1];
    assert last[|last| - 1] in last;
    StripFramed("/", j, "/", x => x == '/');
    StripUnpadded(j, x => x == '/');
    forall p | p in names ensures '/' !in p {
      var i :| 0 <= i < |names| && names[i] == p;
    }
    SplitOnJoin(names, '/');
  }

  /** While current_path is the canonical path of the directories descended into, _getDirFromPath walks exactly those names. */
  lemma {:induction false} CanonicalWalk(names: seq<string>)
    requires |names| >= 1 && PlainNames(names)
    ensures PathNames(Canonical(names)) == names
  {
    CanonicalJoin(names);
    PathNamesOfJoin(names);
  }

  /** chDir("..") from a canonical path joins all names but the last. */
  lemma {:induction false} ParentPathOfCanonical(names: seq<string>)
    requires |names| >= 1 && PlainNames(names)
    ensures ParentPath(Canonical(names)) == Join(names[..|names| - 1], '/')
  {
    CanonicalWalk(names);
  }

  lemma {:induction false} PlainPrefix(names: seq<string>, k: nat)
    requires k <= |names| && PlainNames(names)
    ensures PlainNames(names[..k])
  {
  }

  /**
   * chDir("..") from a canonical path computes the parent's path: "" (hence
   * "/") one level down, and otherwise a path whose walk is the names without
   * the last one.
   */
  lemma {:induction false} ParentOfCanonical(names: seq<string>)
    requires |names| >= 1 && PlainNames(names)
    ensures var p := ParentPath(Canonical(names));
      (|names| == 1 ==> p == "") &&
      (|names| >= 2 ==> p != "" && PathNames(p) == names[..|names| - 1])
  {
    ParentPathOfCanonical(names);
    if |names| == 1 {
      assert names[..0] == [];
    } else {
      DeepParentWalk(names);
    }
  }

  /** Two or more levels down, the parent's path is walked as the names without the last one. */
  lemma {:induction false} DeepParentWalk(names: seq<string>)
    requires |names| >= 2 && PlainNames(names)
    ensures var p := ParentPath(Canonical(names)); p != "" && PathNames(p) == names[..|names| - 1]
  {
    ParentPathOfCanonical(names);
    PlainPrefix(names, |names| - 1);
    PathNamesOfJoin(names[..|names| - 1]);
  }

  /** A walk that succeeds passes through every prefix of its names. */
  lemma {:induction false} LookupPrefix(root: Entry, names: seq<string>, k: nat)
    requires k <= |names| && Lookup(root, names).Ok?
    ensures Lookup(root, names[..k]).Ok?
  {
    LookupAppend(root, names[..k], names[k..]);
    assert names[..k] + names[k..] == names;
  }

  /**
   * chDir("..") from a canonical path: a directory one level below the root
   * goes back to the root, a deeper one to the directory it was entered from,
   * and the walk there cannot fail.
   */
  lemma {:induction false} ChDirUpGoesToParent(root: Entry, cwd: seq<string>)
    requires |cwd| >= 1 && PlainNames(cwd) && Lookup(root, cwd).Ok?
    ensures var p := ParentPath(Canonical(cwd));
      (|cwd| == 1 <==> p == "") &&
      (|cwd| >= 2 ==> PathNames(p) == cwd[..|cwd| - 1] && Lookup(root, PathNames(p)).Ok?)
  {
    ParentOfCanonical(cwd);
    LookupPrefix(root, cwd, |cwd| - 1);
  }

  /**
   * After ".." the path is no longer canonical once more than one name is left:
   * from "/a/b/" it becomes "a" (see WalkOfUnslashed for what follows).
   */
  lemma {:induction false} ParentPathDropsSlashes()
    ensures ParentPath(Canonical(["a", "b"])) == "a"
  {
    ParentPathOfCanonical(["a", "b"]);
    assert ["a", "b"][..1] == ["a"];
  }

  /**
   * A descent into c from the path "a" makes it "ac/", which walks as the
   * single name "ac"; the next ".." then computes "" and goes to the root
   * instead of back to /a.
   */
  lemma {:induction false} WalkOfUnslashed()
    ensures PathNames("a" + "c" + "/") == ["ac"]
    ensures ParentPath("a" + "c" + "/") == ""
  {
    assert "a" + "c" + "/" == "ac/";
    StripFramed([], "ac", "/", x => x == '/');
    assert [] + "ac" + "/" == "ac/";
    SplitOnJoin(["ac"], '/');
    assert ["ac"][..0] == [];
  }

  // ---------------------------------------------------------------- the engine

  class FileSystem {
    var root: seq<Item>
    /** Where current_dir is: the names walked from the root to reach it. */
    var cwd: seq<string>
    var currentPath: string
    var openFile: FileObject?

    /**
     * Every directory is a dict (unique names), and current_dir is something in
     * the tree: usually a directory, but a walk of a malformed path can leave it
     * at a file.
     */
    ghost predicate Valid()
      reads this
    {
      WellFormed(Dir(root)) && Lookup(Dir(root), cwd).Ok?
    }

    /** An empty root, at "/", nothing open. */
    constructor ()
      ensures Valid()
      ensures root == [] && cwd == [] && currentPath == "/" && openFile == null
    {
      root := [];
      cwd := [];
      currentPath := "/";
      openFile := null;
    }

    /** current_dir. */
    function Current(): Entry
      reads this
      requires Valid()
    {
      Lookup(Dir(root), cwd).value
    }

    /** `name in current_dir`, then `current_dir[name]`; `in` on a file raises TypeError. */
    function Child(name: string): Result<Option<Entry>>
      reads this
      requires Valid()
    {
      match Current()
      case File(_) => Err(NotADirectory)
      case Dir(items) => Ok(Find(items, name))
    }

    /** The file object bound to `name` in current_dir, as a frame: what a named operation opens. */
    function Target(name: string): set<FileObject>
      reads this
      requires Valid()
    {
      match Child(name)
      case Ok(Some(File(f))) => {f}
      case _ => {}
    }

    /** The file objects the engine can reach: those in the tree and the open one. */
    ghost function Held(): set<FileObject>
      reads this
    {
      Objects(Dir(root)) + (if openFile == null then {} else {openFile})
    }

    lemma {:induction false} TargetHeld(name: string)
      requires Valid()
      ensures Target(name) <= Held()
    {
      ObjectsOfLookup(Dir(root), cwd);
      match Child(name)
      case Ok(Some(File(f))) =>
        var items := Current().items;
        var k := Position(items, name).value;
        ObjectsOfChild(items, k);
      case _ =>
    }

    /** The bindings of current_dir, when it is a directory. */
    function Items(): seq<Item>
      reads this
      requires Valid() && Current().Dir?
    {
      Current().items
    }

    /** current_dir's dict replaced by `newItems` in place: the tree changes there and nowhere else. */
    method ReplaceCurrent(newItems: seq<Item>)
      requires Valid() && Current().Dir?
      requires WellFormed(Dir(newItems))
      modifies this`root
      ensures Valid() && Current() == Dir(newItems)
      ensures root == UpdateAt(old(root), cwd, newItems)
    {
      WellFormedUpdated(root, cwd, newItems);
      LookupUpdatedBelow(root, cwd, newItems, []);
      assert cwd + [] == cwd;
      root := UpdateAt(root, cwd, newItems);
    }

    /** _getDirFromPath: walk the names of `path` from the root, one dict index at a time. */
    method GetDirFromPath(path: string) returns (r: Result<seq<string>>)
      ensures r == match Lookup(Dir(root), PathNames(path))
        case Ok(_) => Ok(PathNames(path))
        case Err(e) => Err(e)
    {
      var names := PathNames(path);
      var cur := Dir(root);
      var i := 0;
      while i < |names|
        invariant 0 <= i <= |names|
        invariant Lookup(Dir(root), names) == Lookup(cur, names[i..])
      {
        assert names[i..][0] == names[i] && names[i..][1..] == names[i + 1..];
        match cur
        case File(_) =>
          return Err(NotADirectory);
        case Dir(items) =>
          match Find(items, names[i])
          case None =>
            return Err(MissingKey);
          case Some(child) =>
            cur := child;
        i := i + 1;
      }
      assert names[i..] == [];
      r := Ok(names);
    }

    // ---------------------------------------------------------------- the open handle

    method OpenFile(fname: string, mode: string) returns (r: Outcome)
      requires Valid()
      modifies this`openFile, Target(fname)
      ensures Valid()
      ensures OpenFileEffect(this, fname, mode, r)
    {
      var c := Child(fname);
      match c
      case Err(e) => r := Err(e);
      case Ok(None) => r := Err(NotFound);
      case Ok(Some(Dir(_))) => r := Err(NoAttribute);
      case Ok(Some(File(f))) =>
        r := f.Open(mode);
        if r.Ok? {
          openFile := f;
        }
    }

    method CloseFile() returns (r: Outcome)
      modifies this`openFile
      ensures CloseFileEffect(this, r)
    {
      if openFile == null {
        r := Err(NotPermitted);
      } else {
        openFile := null;
        r := Done;
      }
    }

    method ReadFile(fname: string, start: int, size: Option<int>) returns (r: Result<string>)
      requires Valid()
      modifies this`openFile, Target(fname)
      ensures Valid()
      ensures ReadFileEffect(this, fname, start, size, r)
    {
      var c := Child(fname);
      match c
      case Err(e) => r := Err(e);
      case Ok(None) => r := Err(NotFound);
      case Ok(Some(Dir(_))) => r := Err(NoAttribute);
      case Ok(Some(File(f))) =>
        var opening := f.Open("r");
        openFile := f;
        r := f.ReadText(start, size);
        var closed := CloseFile();
    }

    method WriteFile(text: string, at: int) returns (r: Outcome)
      modifies openFile
      ensures WriteFileEffect(this, text, at, r)
    {
      if openFile == null {
        r := Err(NotPermitted);
      } else {
        r := openFile.WriteText(text, at);
      }
    }

    method AppendFile(text: string) returns (r: Outcome)
      modifies openFile
      ensures AppendFileEffect(this, text, r)
    {
      if openFile == null {
        r := Err(NotPermitted);
      } else {
        r := openFile.AppendText(text);
      }
    }

    method MoveFile(fname: string, start: int, size: int, target: int) returns (r: Outcome)
      requires Valid()
      modifies this`openFile, Target(fname)
      ensures Valid()
      ensures MoveFileEffect(this, fname, start, size, target, r)
    {
      var c := Child(fname);
      match c
      case Err(e) => r := Err(e);
      case Ok(None) => r := Err(NotFound);
      case Ok(Some(Dir(_))) => r := Err(NoAttribute);
      case Ok(Some(File(f))) =>
        var opening := f.Open("w");
        openFile := f;
        r := f.MoveWithin(start, size, target);
        var closed := CloseFile();
    }

    method TruncateFile(fname: string, n: int) returns (r: Outcome)
      requires Valid()
      modifies this`openFile, Target(fname)
      ensures Valid()
      ensures TruncateFileEffect(this, fname, n, r)
    {
      var c := Child(fname);
      match c
      case Err(e) => r := Err(e);
      case Ok(None) => r := Err(NotFound);
      case Ok(Some(Dir(_))) => r := Err(NoAttribute);
      case Ok(Some(File(f))) =>
        var opening := f.Open("w");
        openFile := f;
        r := f.Truncate(n);
        var closed := CloseFile();
    }

    // ---------------------------------------------------------------- the tree

    method Create(fname: string) returns (r: Outcome)
      requires Valid()
      modifies this`root
      ensures Valid()
      ensures CreateEffect(this, fname, r)
    {
      var c := Child(fname);
      match c
      case Err(e) => r := Err(e);
      case Ok(Some(_)) => r := Err(AlreadyExists);
      case Ok(None) =>
        var f := new FileObject(fname);
        var items := Items();
        WellFormedLookup(Dir(root), cwd);
        WellFormedAdded(items, fname, File(f));
        ReplaceCurrent(Added(items, fname, File(f)));
        r := Done;
    }

    method Delete(fname: string) returns (r: Outcome)
      requires Valid()
      modifies this`root
      ensures Valid()
      ensures DeleteEffect(this, fname, r)
    {
      var c := Child(fname);
      match c
      case Err(e) => r := Err(e);
      case Ok(None) => r := Err(NotFound);
      case Ok(Some(_)) =>
        var items := Items();
        WellFormedLookup(Dir(root), cwd);
        WellFormedRemoved(items, fname);
        ReplaceCurrent(Removed(items, fname));
        r := Done;
    }

    method MkDir(name: string) returns (r: Outcome)
      requires Valid()
      modifies this`root
      ensures Valid()
      ensures MkDirEffect(this, name, r)
    {
      var c := Child(name);
      match c
      case Err(e) => r := Err(e);
      case Ok(Some(_)) => r := Err(AlreadyExists);
      case Ok(None) =>
        var items := Items();
        WellFormedLookup(Dir(root), cwd);
        WellFormedAdded(items, name, Dir([]));
        ReplaceCurrent(Added(items, name, Dir([])));
        r := Done;
    }

    /** move: a rename within current_dir; `.keys()` on a file raises AttributeError. */
    method Move(source: string, destination: string) returns (r: Outcome)
      requires Valid()
      modifies this`root
      ensures Valid()
      ensures RenameEffect(this, source, destination, r)
    {
      match Current()
      case File(_) => r := Err(NoAttribute);
      case Dir(items) =>
        if Find(items, source).None? {
          r := Err(NotFound);
        } else if Find(items, destination).Some? {
          r := Err(AlreadyExists);
        } else {
          WellFormedLookup(Dir(root), cwd);
          WellFormedRenamed(items, source, destination);
          ReplaceCurrent(Renamed(items, source, destination));
          r := Done;
        }
    }

    /**
     * chDir. Ok(false) is the "Directory not found." message, which is not an
     * error; the walk for ".." can raise after current_path was already reassigned.
     */
    method ChDir(name: string) returns (r: Result<bool>)
      requires Valid()
      modifies this`cwd, this`currentPath
      ensures Valid()
      ensures ChDirEffect(this, name, r)
    {
      if name == ".." {
        if currentPath != "/" {
          currentPath := ParentPath(currentPath);
          if currentPath == "" {
            currentPath := "/";
            cwd := [];
            r := Ok(true);
          } else {
            var walked := GetDirFromPath(currentPath);
            match walked
            case Err(e) => r := Err(e);
            case Ok(names) => cwd := names; r := Ok(true);
          }
        } else {
          r := Ok(true);
        }
      } else {
        var c := Child(name);
        match c
        case Err(e) => r := Err(e);
        case Ok(Some(Dir(_))) =>
          LookupAppend(Dir(root), cwd, [name]);
          cwd := cwd + [name];
          currentPath := currentPath + name + "/";
          r := Ok(true);
        case Ok(_) => r := Ok(false);
      }
    }

    // ---------------------------------------------------------------- listings

    /** listDir: one line per binding of current_dir; `.items()` on a file raises AttributeError. */
    function ListDir(): (r: Result<seq<string>>)
      reads this, Objects(Dir(root))
      requires Valid()
      ensures r.Ok? <==> Current().Dir?
      ensures r.Ok? ==> |r.value| == |Current().items|
      ensures r.Ok? ==> forall k :: 0 <= k < |r.value| ==> r.value[k] == Line(Current().items[k], "")
    {
      ObjectsOfLookup(Dir(root), cwd);
      match Current()
      case File(_) => Err(NoAttribute)
      case Dir(_) => Ok(ListFrom(Current(), 0))
    }

    /** memoryMap: the whole tree from the root, pre-order, one line per entry. */
    function MemoryMap(): (lines: seq<string>)
      reads this, Objects(Dir(root))
      ensures |lines| == CountFrom(Dir(root), 0)
      ensures forall k :: 0 <= k < |lines| ==> lines[k] != [] && (lines[k][0] == '-' || Indented(lines[k], "    "))
      ensures Unindented(lines) == ListFrom(Dir(root), 0)
    {
      MapLineCount(Dir(root), 0, "");
      MapMargins(Dir(root), 0);
      MapTopLevel(Dir(root), 0);
      MapFrom(Dir(root), 0, "")
    }
  }

  // ---------------------------------------------------------------- effects, as two-state predicates

  /** Nothing about where the engine is or what the tree holds changed. */
  twostate predicate Placed(fs: FileSystem)
    reads fs
  {
    fs.root == old(fs.root) && fs.cwd == old(fs.cwd) && fs.currentPath == old(fs.currentPath)
  }

  /**
   * openFile: the name must be bound in current_dir to a file, and the mode valid;
   * the handle then becomes that file. Any failure leaves the handle as it was.
   */
  twostate predicate OpenFileEffect(fs: FileSystem, fname: string, mode: string, new r: Outcome)
    requires old(fs.Valid())
    reads *
  {
    Placed(fs) &&
    match old(fs.Child(fname))
    case Err(e) => r == Err(e) && fs.openFile == old(fs.openFile)
    case Ok(None) => r == Err(NotFound) && fs.openFile == old(fs.openFile)
    case Ok(Some(Dir(_))) => r == Err(NoAttribute) && fs.openFile == old(fs.openFile)
    case Ok(Some(File(f))) =>
      old(allocated(f)) && OpenEffect(f, mode, r) && fs.openFile == (if r.Ok? then f else old(fs.openFile))
  }

  /** closeFile: fails when nothing is open; afterwards nothing is open. The file's mode stays. */
  twostate predicate CloseFileEffect(fs: FileSystem, new r: Outcome)
    reads fs
  {
    Placed(fs) && fs.openFile == null &&
    r == (if old(fs.openFile) == null then Err(NotPermitted) else Done)
  }

  /**
   * The failures every name-addressed operation shares, checked in the order
   * openFile and readFile check them: current_dir a file, the name unbound, the
   * name bound to a directory.
   * On each the handle is left as it was.
   */
  twostate predicate NamedFailure<T>(fs: FileSystem, fname: string, new r: Result<T>)
    requires old(fs.Valid())
    reads fs
  {
    match old(fs.Child(fname))
    case Err(e) => r == Err(e) && fs.openFile == old(fs.openFile)
    case Ok(None) => r == Err(NotFound) && fs.openFile == old(fs.openFile)
    case Ok(Some(Dir(_))) => r == Err(NoAttribute) && fs.openFile == old(fs.openFile)
    case Ok(Some(File(_))) => true
  }

  /** The file a name-addressed operation reaches, if it reaches one. */
  function NamedFile(c: Result<Option<Entry>>): Option<FileObject> {
    match c
    case Ok(Some(File(f))) => Some(f)
    case _ => None
  }

  /** readFile: the named file is opened for reading, the range returned, and the handle cleared. */
  twostate predicate ReadFileEffect(fs: FileSystem, fname: string, start: int, size: Option<int>, new r: Result<string>)
    requires old(fs.Valid())
    reads *
  {
    Placed(fs) && NamedFailure(fs, fname, r) &&
    match NamedFile(old(fs.Child(fname)))
    case None => true
    case Some(f) =>
      old(allocated(f)) && r == Ok(ReadRange(old(f.content), start, size)) && fs.openFile == null &&
      f.mode == Read && f.content == old(f.content) && f.size == old(f.size) && f.name == old(f.name)
  }

  /** writeFile: acts on the open handle, whatever directory it came from; fails when nothing is open. */
  twostate predicate WriteFileEffect(fs: FileSystem, text: string, at: int, new r: Outcome)
    reads *
  {
    Placed(fs) && fs.openFile == old(fs.openFile) &&
    if fs.openFile == null then r == Err(NotPermitted) else WriteEffect(fs.openFile, text, at, r)
  }

  /** appendFile: acts on the open handle; fails when nothing is open. */
  twostate predicate AppendFileEffect(fs: FileSystem, text: string, new r: Outcome)
    reads *
  {
    Placed(fs) && fs.openFile == old(fs.openFile) &&
    if fs.openFile == null then r == Err(NotPermitted) else AppendEffect(fs.openFile, text, r)
  }

  /** moveFile: the named file is opened for writing, its content moved (size untouched), the handle cleared. */
  twostate predicate MoveFileEffect(fs: FileSystem, fname: string, start: int, size: int, target: int, new r: Outcome)
    requires old(fs.Valid())
    reads *
  {
    Placed(fs) && NamedFailure(fs, fname, r) &&
    match NamedFile(old(fs.Child(fname)))
    case None => true
    case Some(f) =>
      old(allocated(f)) && r == Done && fs.openFile == null && f.mode == Write && f.name == old(f.name) &&
      f.content == Moved(old(f.content), start, size, target) && f.size == old(f.size)
  }

  /** truncateFile: the named file is opened for writing, cut to `content[:n]`, the handle cleared. */
  twostate predicate TruncateFileEffect(fs: FileSystem, fname: string, n: int, new r: Outcome)
    requires old(fs.Valid())
    reads *
  {
    Placed(fs) && NamedFailure(fs, fname, r) &&
    match NamedFile(old(fs.Child(fname)))
    case None => true
    case Some(f) =>
      old(allocated(f)) && r == Done && fs.openFile == null && f.mode == Write && f.name == old(f.name) &&
      f.content == Truncated(old(f.content), n) && f.size == |f.content|
  }

  /** The tree changed only by current_dir's dict becoming `newItems`; nothing else about the engine changed. */
  twostate predicate CurrentBecomes(fs: FileSystem, new newItems: seq<Item>)
    requires old(fs.Valid()) && old(fs.Current()).Dir?
    reads fs
  {
    fs.cwd == old(fs.cwd) && fs.currentPath == old(fs.currentPath) && fs.openFile == old(fs.openFile) &&
    fs.root == UpdateAt(old(fs.root), old(fs.cwd), newItems)
  }

  /** Nothing about the engine changed. */
  twostate predicate Unchanged(fs: FileSystem)
    reads fs
  {
    Placed(fs) && fs.openFile == old(fs.openFile)
  }

  /** create: an unbound name gets a new empty file object, bound last in current_dir. */
  twostate predicate CreateEffect(fs: FileSystem, fname: string, new r: Outcome)
    requires old(fs.Valid())
    reads *
  {
    match old(fs.Child(fname))
    case Err(e) => r == Err(e) && Unchanged(fs)
    case Ok(Some(_)) => r == Err(AlreadyExists) && Unchanged(fs)
    case Ok(None) =>
      var items := old(fs.Current()).items;
      r == Done && fs.Valid() && fs.Current().Dir? && |fs.Current().items| == |items| + 1 &&
      var e := fs.Current().items[|items|].entry;
      e.File? && fresh(e.obj) && CurrentBecomes(fs, Added(items, fname, e)) &&
      e.obj.name == fname && e.obj.content == "" && e.obj.size == 0 && e.obj.mode == Unset
  }

  /** delete: a bound name and everything below it leaves current_dir. */
  twostate predicate DeleteEffect(fs: FileSystem, fname: string, new r: Outcome)
    requires old(fs.Valid())
    reads fs
  {
    match old(fs.Child(fname))
    case Err(e) => r == Err(e) && Unchanged(fs)
    case Ok(None) => r == Err(NotFound) && Unchanged(fs)
    case Ok(Some(_)) => r == Done && CurrentBecomes(fs, Removed(old(fs.Current()).items, fname))
  }

  /** mkDir: an unbound name gets a new empty directory, bound last in current_dir. */
  twostate predicate MkDirEffect(fs: FileSystem, name: string, new r: Outcome)
    requires old(fs.Valid())
    reads fs
  {
    match old(fs.Child(name))
    case Err(e) => r == Err(e) && Unchanged(fs)
    case Ok(Some(_)) => r == Err(AlreadyExists) && Unchanged(fs)
    case Ok(None) => r == Done && CurrentBecomes(fs, Added(old(fs.Current()).items, name, Dir([])))
  }

  /** move: the source's entry is rebound, unchanged, under the unbound destination name. */
  twostate predicate RenameEffect(fs: FileSystem, source: string, destination: string, new r: Outcome)
    requires old(fs.Valid())
    reads fs
  {
    match old(fs.Current())
    case File(_) => r == Err(NoAttribute) && Unchanged(fs)
    case Dir(items) =>
      if Find(items, source).None? then r == Err(NotFound) && Unchanged(fs)
      else if Find(items, destination).Some? then r == Err(AlreadyExists) && Unchanged(fs)
      else r == Done && CurrentBecomes(fs, Renamed(items, source, destination))
  }

  /**
   * chDir: ".." re-derives current_dir from the shortened path string (at "/"
   * nothing happens); a bound directory name is descended into and appended to
   * the path; any other name changes nothing and yields the not-found message.
   */
  twostate predicate ChDirEffect(fs: FileSystem, name: string, new r: Result<bool>)
    requires old(fs.Valid())
    reads fs
  {
    fs.root == old(fs.root) && fs.openFile == old(fs.openFile) &&
    if name == ".." then
      if old(fs.currentPath) == "/" then r == Ok(true) && Unchanged(fs)
      else
        var p := ParentPath(old(fs.currentPath));
        if p == "" then r == Ok(true) && fs.currentPath == "/" && fs.cwd == []
        else
          fs.currentPath == p &&
          match Lookup(Dir(fs.root), PathNames(p))
          case Err(e) => r == Err(e) && fs.cwd == old(fs.cwd)
          case Ok(_) => r == Ok(true) && fs.cwd == PathNames(p)
    else
      match old(fs.Child(name))
      case Err(e) => r == Err(e) && Unchanged(fs)
      case Ok(Some(Dir(_))) =>
        r == Ok(true) && fs.cwd == old(fs.cwd) + [name] && fs.currentPath == old(fs.currentPath) + name + "/"
      case Ok(_) => r == Ok(false) && Unchanged(fs)
  }
}
