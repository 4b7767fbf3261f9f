/**
 * The directory tree. A directory is a Python dict from names to entries; it is
 * modelled as its bindings in insertion order, because listings follow that
 * order and a rename re-inserts the binding at the end. File entries hold the
 * file objects by reference, so an open handle and the tree share them.
 */
module Tree {
  import opened Outcomes
  import opened PyStr
  import opened FileObjects

  datatype Entry = File(obj: FileObject) | Dir(items: seq<Item>)

  /** One binding of a directory dict. */
  datatype Item = Item(name: string, entry: Entry)

  // ---------------------------------------------------------------- one directory as a dict

  /** The position of the binding for `name`, if there is one (the first, were there several). */
  function Position(items: seq<Item>, name: string): (r: Option<nat>)
    ensures r.Some? ==> r.value < |items| && items[r.value].name == name
    ensures r.Some? ==> forall i :: 0 <= i < r.value ==> items[i].name != name
    ensures r.None? <==> forall i :: 0 <= i < |items| ==> items[i].name != name
  {
    if items == [] then None
    else if items[0].name == name then Some(0)
    else match Position(items[1..], name)
      case None => None
      case Some(k) => Some(k + 1)
  }

  /** `d[name]` if `name in d`, else None. */
  function Find(items: seq<Item>, name: string): Option<Entry>
  {
    match Position(items, name)
    case None => None
    case Some(k) => Some(items[k].entry)
  }

  /** No two bindings share a name, as in every Python dict. */
  predicate Unique(items: seq<Item>) {
    forall i, j :: 0 <= i < j < |items| ==> items[i].name != items[j].name
  }

  /** Every directory of the tree has unique names. */
  predicate WellFormed(e: Entry)
    decreases e
  {
    match e
    case File(_) => true
    case Dir(items) => Unique(items) && forall i :: 0 <= i < |items| ==> WellFormed(items[i].entry)
  }

  /** In a dict, the binding at position j is what its name finds. */
  lemma {:induction false} FindAt(items: seq<Item>, j: nat)
    requires Unique(items) && j < |items|
    ensures Find(items, items[j].name) == Some(items[j].entry)
  {
  }

  /** `d[name] = e` for a name not yet bound: the new binding goes last. */
  function Added(items: seq<Item>, name: string, e: Entry): (r: seq<Item>)
    requires Find(items, name).None?
    ensures |r| == |items| + 1 && r[..|items|] == items && r[|items|] == Item(name, e)
    ensures Unique(items) ==> Unique(r)
    ensures forall n :: Find(r, n) == if n == name then Some(e) else Find(items, n)
  {
    var r := items + [Item(name, e)];
    FindAdded(items, name, e, r);
    r
  }

  lemma {:induction false} FindAdded(items: seq<Item>, name: string, e: Entry, r: seq<Item>)
    requires Find(items, name).None? && r == items + [Item(name, e)]
    ensures forall n :: Find(r, n) == if n == name then Some(e) else Find(items, n)
  {
    assert forall i :: 0 <= i < |items| ==> r[i] == items[i];
    assert r[|items|].name == name;
    forall n ensures Find(r, n) == if n == name then Some(e) else Find(items, n) {
      var p := Position(items, n);
      if p.Some? {
        assert r[p.value] == items[p.value];
      }
    }
  }

  /** `del d[name]` for a bound name: its binding goes, the others keep their order. */
  function Removed(items: seq<Item>, name: string): (r: seq<Item>)
    requires Find(items, name).Some?
    ensures |r| == |items| - 1
    ensures var k := Position(items, name).value; r == items[..k] + items[k + 1..]
    ensures Unique(items) ==> Unique(r)
    ensures Unique(items) ==> forall n :: Find(r, n) == if n == name then None else Find(items, n)
  {
    var k := Position(items, name).value;
    var r := items[..k] + items[k + 1..];
    assert forall j :: 0 <= j < |r| ==> r[j] == if j < k then items[j] else items[j + 1];
    if Unique(items) then
      FindRemoved(items, name, k, r);
      r
    else r
  }

  lemma {:induction false} FindRemoved(items: seq<Item>, name: string, k: nat, r: seq<Item>)
    requires Unique(items) && Unique(r)
    requires Position(items, name) == Some(k) && r == items[..k] + items[k + 1..]
    ensures forall n :: Find(r, n) == if n == name then None else Find(items, n)
  {
    forall n ensures Find(r, n) == if n == name then None else Find(items, n) {
      FindRemovedAt(items, name, k, r, n);
    }
  }

  lemma {:induction false} FindRemovedAt(items: seq<Item>, name: string, k: nat, r: seq<Item>, n: string)
    requires Unique(items) && Unique(r)
    requires Position(items, name) == Some(k) && r == items[..k] + items[k + 1..]
    ensures Find(r, n) == if n == name then None else Find(items, n)
  {
    assert forall j :: 0 <= j < |r| ==> r[j] == if j < k then items[j] else items[j + 1];
    var p := Position(items, n);
    if n == name {
      assert Position(r, n).None?;
    } else if p.Some? {
      var j := p.value;
      var j' := if j < k then j else j - 1;
      assert r[j'] == items[j];
      FindAt(r, j');
    } else {
      assert Position(r, n).None?;
    }
  }

  /**
   * `d[dst] = d[src]; del d[src]` for a bound src and an unbound dst: the same
   * entry under the new name, re-inserted last; the source name is unbound.
   */
  function Renamed(items: seq<Item>, src: string, dst: string): (r: seq<Item>)
    requires Find(items, src).Some? && Find(items, dst).None?
    ensures |r| == |items| && r[|r| - 1] == Item(dst, Find(items, src).value)
    ensures Unique(items) ==> Unique(r)
    ensures Unique(items) ==> Find(r, dst) == Find(items, src) && Find(r, src).None?
    ensures Unique(items) ==> forall n :: n != src && n != dst ==> Find(r, n) == Find(items, n)
  {
    var e := Find(items, src).value;
    var added := Added(items, dst, e);
    assert Position(added, src) == Position(items, src);
    Removed(added, src)
  }

  lemma {:induction false} WellFormedAdded(items: seq<Item>, name: string, e: Entry)
    requires WellFormed(Dir(items)) && WellFormed(e) && Find(items, name).None?
    ensures WellFormed(Dir(Added(items, name, e)))
  {
    var r := Added(items, name, e);
    assert forall i :: 0 <= i < |items| ==> r[i] == items[i];
  }

  lemma {:induction false} WellFormedRemoved(items: seq<Item>, name: string)
    requires WellFormed(Dir(items)) && Find(items, name).Some?
    ensures WellFormed(Dir(Removed(items, name)))
  {
    var k := Position(items, name).value;
    var r := Removed(items, name);
    assert forall j :: 0 <= j < |r| ==> r[j] == if j < k then items[j] else items[j + 1];
  }

  lemma {:induction false} WellFormedRenamed(items: seq<Item>, src: string, dst: string)
    requires WellFormed(Dir(items)) && Find(items, src).Some? && Find(items, dst).None?
    ensures WellFormed(Dir(Renamed(items, src, dst)))
  {
    var e := Find(items, src).value;
    assert WellFormed(e) by {
      var k := Position(items, src).value;
      assert e == items[k].entry;
    }
    WellFormedAdded(items, dst, e);
    var added := Added(items, dst, e);
    assert Position(added, src) == Position(items, src);
    WellFormedRemoved(added, src);
  }

  /** The binding at the position of `name` given a new entry; the name and every other binding stay. */
  function Replaced(items: seq<Item>, name: string, e: Entry): (r: seq<Item>)
    requires Find(items, name).Some?
    ensures |r| == |items|
    ensures forall i :: 0 <= i < |r| ==> r[i].name == items[i].name
    ensures Find(r, name) == Some(e)
    ensures forall n :: n != name ==> Find(r, n) == Find(items, n)
  {
    var k := Position(items, name).value;
    var r := items[k := Item(name, e)];
    FindReplaced(items, name, k, e, r);
    r
  }

  lemma {:induction false} FindReplaced(items: seq<Item>, name: string, k: nat, e: Entry, r: seq<Item>)
    requires Position(items, name) == Some(k) && r == items[k := Item(name, e)]
    ensures forall n :: n != name ==> Find(r, n) == Find(items, n)
  {
    forall n | n != name ensures Find(r, n) == Find(items, n) {
      var p := Position(items, n);
      if p.Some? {
        assert r[p.value] == items[p.value];
      }
    }
  }

  // ---------------------------------------------------------------- paths

  /**
   * The entry reached by indexing with each name of `path` in turn: a file
   * cannot be indexed (TypeError), and a missing name raises KeyError.
   */
  function Lookup(e: Entry, path: seq<string>): Result<Entry>
    decreases path
  {
    if path == [] then Ok(e)
    else match e
      case File(_) => Err(NotADirectory)
      case Dir(items) =>
        match Find(items, path[0])
        case None => Err(MissingKey)
        case Some(child) => Lookup(child, path[1..])
  }

  /** Looking up p + q is looking up q from where p leads. */
  lemma {:induction false} LookupAppend(e: Entry, p: seq<string>, q: seq<string>)
    ensures Lookup(e, p + q) == match Lookup(e, p) case Ok(x) => Lookup(x, q) case Err(err) => Err(err)
    decreases p
  {
    if p != [] {
      assert (p + q)[0] == p[0] && (p + q)[1..] == p[1..] + q;
      match e
      case File(_) =>
      case Dir(items) =>
        match Find(items, p[0])
        case None =>
        case Some(child) =>
          assert Lookup(e, p) == Lookup(child, p[1..]);
          assert Lookup(e, p + q) == Lookup(child, p[1..] + q);
          LookupAppend(child, p[1..], q);
    } else {
      assert p + q == q;
    }
  }

  /** Where a path leads in a well-formed tree is well-formed. */
  lemma {:induction false} WellFormedLookup(e: Entry, p: seq<string>)
    requires WellFormed(e) && Lookup(e, p).Ok?
    ensures WellFormed(Lookup(e, p).value)
    decreases p
  {
    if p != [] {
      var k := Position(e.items, p[0]).value;
      WellFormedLookup(e.items[k].entry, p[1..]);
    }
  }

  /** The path names a directory. */
  predicate IsDirAt(items: seq<Item>, path: seq<string>) {
    Lookup(Dir(items), path).Ok? && Lookup(Dir(items), path).value.Dir?
  }

  /** On a path to a directory, the first name binds a directory, and the rest of the path leads on from it. */
  lemma {:induction false} ChildOnPath(items: seq<Item>, path: seq<string>)
    requires IsDirAt(items, path) && path != []
    ensures Find(items, path[0]).Some?
    ensures var child := Find(items, path[0]).value;
      child.Dir? && IsDirAt(child.items, path[1..]) &&
      Lookup(Dir(items), path) == Lookup(child, path[1..])
  {
    assert Lookup(Dir(items), path) ==
      match Find(items, path[0]) case None => Err(MissingKey) case Some(c) => Lookup(c, path[1..]);
  }

  /** The tree with the directory at `path` given the bindings `newItems`: a dict changed in place. */
  function UpdateAt(items: seq<Item>, path: seq<string>, newItems: seq<Item>): (r: seq<Item>)
    requires IsDirAt(items, path)
    decreases path
  {
    if path == [] then newItems
    else
      ChildOnPath(items, path);
      var child := Find(items, path[0]).value;
      Replaced(items, path[0], Dir(UpdateAt(child.items, path[1..], newItems)))
  }

  /** Below the updated directory the tree is the new one. */
  lemma {:induction false} LookupUpdatedBelow(items: seq<Item>, p: seq<string>, newItems: seq<Item>, q: seq<string>)
    requires IsDirAt(items, p)
    ensures Lookup(Dir(UpdateAt(items, p, newItems)), p + q) == Lookup(Dir(newItems), q)
    decreases p
  {
    if p != [] {
      ChildOnPath(items, p);
      var child := Find(items, p[0]).value;
      assert (p + q)[0] == p[0] && (p + q)[1..] == p[1..] + q;
      LookupUpdatedBelow(child.items, p[1..], newItems, q);
    } else {
      assert p + q == q;
    }
  }

  /** Away from the updated directory (neither path extends the other) nothing changes. */
  lemma {:induction false} LookupUpdatedApart(items: seq<Item>, p: seq<string>, newItems: seq<Item>, q: seq<string>)
    requires IsDirAt(items, p)
    requires !(p <= q) && !(q <= p)
    ensures Lookup(Dir(UpdateAt(items, p, newItems)), q) == Lookup(Dir(items), q)
    decreases p
  {
    ChildOnPath(items, p);
    var child := Find(items, p[0]).value;
    if p[0] == q[0] {
      assert !(p[1..] <= q[1..]) && !(q[1..] <= p[1..]) by {
        assert p == [p[0]] + p[1..] && q == [q[0]] + q[1..];
      }
      LookupUpdatedApart(child.items, p[1..], newItems, q[1..]);
    }
  }

  /** Replacing a directory's bindings by unique ones keeps every directory's names unique. */
  lemma {:induction false} WellFormedUpdated(items: seq<Item>, p: seq<string>, newItems: seq<Item>)
    requires IsDirAt(items, p)
    requires WellFormed(Dir(items)) && WellFormed(Dir(newItems))
    ensures WellFormed(Dir(UpdateAt(items, p, newItems)))
    decreases p
  {
    if p != [] {
      ChildOnPath(items, p);
      var k := Position(items, p[0]).value;
      var child := items[k].entry;
      WellFormedUpdated(child.items, p[1..], newItems);
      var r := UpdateAt(items, p, newItems);
      assert r == items[k := Item(p[0], Dir(UpdateAt(child.items, p[1..], newItems)))];
      forall i | 0 <= i < |r| ensures WellFormed(r[i].entry) {
        if i != k {
          assert r[i] == items[i];
        }
      }
    }
  }

  // ---------------------------------------------------------------- listings

  /** The file objects held anywhere in the tree. */
  ghost function Objects(e: Entry): set<FileObject>
    decreases e
  {
    match e
    case File(f) => {f}
    case Dir(items) => set i, o | 0 <= i < |items| && o in Objects(items[i].entry) :: o
  }

  lemma {:induction false} ObjectsOfChild(items: seq<Item>, i: nat)
    requires i < |items|
    ensures Objects(items[i].entry) <= Objects(Dir(items))
  {
  }

  /** The objects reachable from where a path leads are objects of the tree. */
  lemma {:induction false} ObjectsOfLookup(e: Entry, p: seq<string>)
    requires Lookup(e, p).Ok?
    ensures Objects(Lookup(e, p).value) <= Objects(e)
    decreases p
  {
    if p != [] {
      var k := Position(e.items, p[0]).value;
      ObjectsOfChild(e.items, k);
      ObjectsOfLookup(e.items[k].entry, p[1..]);
    }
  }

  /** One printed line: `- name (N bytes)` for a file, `- name/` for a directory. */
  function Line(it: Item, indent: string): string
    reads Objects(it.entry)
  {
    match it.entry
    case File(f) => indent + "- " + it.name + " (" + NatToString(f.size) + " bytes)"
    case Dir(_) => indent + "- " + it.name + "/"
  }

  /** listDir: the lines for the bindings of d from position i on, one per binding. */
  function ListFrom(d: Entry, i: nat): (lines: seq<string>)
    requires d.Dir? && i <= |d.items|
    reads Objects(d)
    ensures |lines| == |d.items| - i
    ensures forall k :: 0 <= k < |lines| ==> lines[k] == Line(d.items[i + k], "")
    decreases |d.items| - i
  {
    if i == |d.items| then []
    else
      ObjectsOfChild(d.items, i);
      [Line(d.items[i], "")] + ListFrom(d, i + 1)
  }

  /**
   * _printMemoryMap: the lines for the bindings of d from position i on, each
   * directory's line followed by its own entries, four spaces further in.
   */
  function MapFrom(d: Entry, i: nat, indent: string): seq<string>
    requires d.Dir? && i <= |d.items|
    reads Objects(d)
    decreases d, |d.items| - i
  {
    if i == |d.items| then []
    else
      var it := d.items[i];
      ObjectsOfChild(d.items, i);
      var own := match it.entry
        case File(_) => [Line(it, indent)]
        case Dir(_) => [Line(it, indent)] + MapFrom(it.entry, 0, indent + "    ");
      own + MapFrom(d, i + 1, indent)
  }

  /** How many entries lie below d from position i on, counting every nested one. */
  function CountFrom(d: Entry, i: nat): nat
    requires d.Dir? && i <= |d.items|
    decreases d, |d.items| - i
  {
    if i == |d.items| then 0
    else
      var e := d.items[i].entry;
      1 + (if e.Dir? then CountFrom(e, 0) else 0) + CountFrom(d, i + 1)
  }

  /** The memory map prints exactly one line per entry of the tree. */
  lemma {:induction false} MapLineCount(d: Entry, i: nat, indent: string)
    requires d.Dir? && i <= |d.items|
    ensures |MapFrom(d, i, indent)| == CountFrom(d, i)
    decreases d, |d.items| - i
  {
    if i < |d.items| {
      var e := d.items[i].entry;
      if e.Dir? {
        MapLineCount(e, 0, indent + "    ");
      }
      MapLineCount(d, i + 1, indent);
    }
  }

  /** The line begins with `indent` and has more after it. */
  predicate Indented(line: string, indent: string) {
    |indent| < |line| && line[..|indent|] == indent
  }

  /** Every line of the map from d begins with the indent of d's level; deeper levels add to it. */
  lemma {:induction false} MapIndented(d: Entry, i: nat, indent: string)
    requires d.Dir? && i <= |d.items|
    ensures forall k :: 0 <= k < |MapFrom(d, i, indent)| ==> Indented(MapFrom(d, i, indent)[k], indent)
    decreases d, |d.items| - i
  {
    if i < |d.items| {
      var it := d.items[i];
      var own := Line(it, indent);
      assert own[..|indent|] == indent;
      var rest := MapFrom(d, i + 1, indent);
      MapIndented(d, i + 1, indent);
      if it.entry.Dir? {
        var deeper := indent + "    ";
        var sub := MapFrom(it.entry, 0, deeper);
        MapIndented(it.entry, 0, deeper);
        forall k | 0 <= k < |sub| ensures Indented(sub[k], indent) {
          assert sub[k][..|indent|] == sub[k][..|deeper|][..|indent|];
        }
        assert MapFrom(d, i, indent) == [own] + sub + rest;
      } else {
        assert MapFrom(d, i, indent) == [own] + rest;
      }
    }
  }

  /** The lines that start at the left margin, in order: a line of the top level. */
  function Unindented(lines: seq<string>): (top: seq<string>)
    ensures forall k :: 0 <= k < |top| ==> top[k] in lines && top[k] != [] && top[k][0] == '-'
  {
    if lines == [] then []
    else (if lines[0] != [] && lines[0][0] == '-' then [lines[0]] else []) + Unindented(lines[1..])
  }

  lemma {:induction false} UnindentedAppend(a: seq<string>, b: seq<string>)
    ensures Unindented(a + b) == Unindented(a) + Unindented(b)
  {
    if a != [] {
      assert (a + b)[0] == a[0] && (a + b)[1..] == a[1..] + b;
      UnindentedAppend(a[1..], b);
    } else {
      assert a + b == b;
    }
  }

  lemma {:induction false} UnindentedNone(lines: seq<string>)
    requires forall k :: 0 <= k < |lines| ==> Indented(lines[k], "    ")
    ensures Unindented(lines) == []
  {
    if lines != [] {
      assert lines[0][..4][0] == ' ';
      UnindentedNone(lines[1..]);
    }
  }

  /**
   * The memory map is the listing with each directory's own map inserted after
   * its line: the lines at the left margin are exactly the listing's, in order.
   */
  lemma {:induction false} MapTopLevel(d: Entry, i: nat)
    requires d.Dir? && i <= |d.items|
    ensures Unindented(MapFrom(d, i, "")) == ListFrom(d, i)
    decreases |d.items| - i
  {
    if i < |d.items| {
      var it := d.items[i];
      var own := Line(it, "");
      assert own[0] == '-';
      var rest := MapFrom(d, i + 1, "");
      MapTopLevel(d, i + 1);
      assert Unindented([own]) == [own];
      if it.entry.Dir? {
        var sub := MapFrom(it.entry, 0, "    ");
        assert "" + "    " == "    ";
        MapIndented(it.entry, 0, "    ");
        UnindentedNone(sub);
        assert MapFrom(d, i, "") == [own] + sub + rest;
        UnindentedAppend([own] + sub, rest);
        UnindentedAppend([own], sub);
      } else {
        assert MapFrom(d, i, "") == [own] + rest;
        UnindentedAppend([own], rest);
      }
    }
  }

  /** Each line of the map from the root is a top-level line or begins four spaces in. */
  lemma {:induction false} MapMargins(d: Entry, i: nat)
    requires d.Dir? && i <= |d.items|
    ensures forall k :: 0 <= k < |MapFrom(d, i, "")| ==>
      MapFrom(d, i, "")[k] != [] && (MapFrom(d, i, "")[k][0] == '-' || Indented(MapFrom(d, i, "")[k], "    "))
    decreases |d.items| - i
  {
    if i < |d.items| {
      var it := d.items[i];
      var own := Line(it, "");
      assert own[0] == '-';
      var rest := MapFrom(d, i + 1, "");
      MapMargins(d, i + 1);
      if it.entry.Dir? {
        var sub := MapFrom(it.entry, 0, "    ");
        assert "" + "    " == "    ";
        MapIndented(it.entry, 0, "    ");
        assert MapFrom(d, i, "") == [own] + sub + rest;
      } else {
        assert MapFrom(d, i, "") == [own] + rest;
      }
    }
  }

  /** Over a directory holding only files, the memory map and the listing print the same lines. */
  lemma {:induction false} MapOfFlatDirectory(d: Entry, i: nat)
    requires d.Dir? && i <= |d.items|
    requires forall k :: 0 <= k < |d.items| ==> d.items[k].entry.File?
    ensures MapFrom(d, i, "") == ListFrom(d, i)
    decreases |d.items| - i
  {
    if i < |d.items| {
      MapOfFlatDirectory(d, i + 1);
    }
  }
}
