/**
 * One file of the in-memory file system: its name, content, recorded size
 * and the mode it was last opened in, with the mode-guarded content edits.
 */
module FileObjects {
  import opened Outcomes
  import opened PyStr

  /**
   * The `mode` attribute. `Unset` is a file never opened (the attribute does
   * not exist yet, so reading it raises); `Closed` is the None that close stores.
   */
  datatype Mode = Unset | Closed | Read | Write | Append

  /** The modes `open` accepts: exactly "r", "w" and "a". */
  function ModeOf(m: string): (r: Option<Mode>)
    ensures r.None? <==> m != "r" && m != "w" && m != "a"
    ensures m == "r" ==> r == Some(Read)
    ensures m == "w" ==> r == Some(Write)
    ensures m == "a" ==> r == Some(Append)
  {
    if m == "r" then Some(Read)
    else if m == "w" then Some(Write)
    else if m == "a" then Some(Append)
    else None
  }

  // ---------------------------------------------------------------- content edits as functions

  /** write_to_file: `text` inserted before index `at` (Python slice bounds). */
  function Inserted(s: string, at: int, text: string): (r: string)
    ensures |r| == |s| + |text|
    ensures var k := Bound(at, |s|);
      r[k..k + |text|] == text && r[..k] + r[k + |text|..] == s
    ensures 0 <= at <= |s| ==> r[..at] == s[..at]
  {
    var k := Bound(at, |s|);
    SliceAround(s, at);
    var r := s[..k] + text + s[k..];
    assert r[..k] == s[..k] && r[k..k + |text|] == text && r[k + |text|..] == s[k..];
    assert s[..k] + s[k..] == s;
    Slice(s, 0, at) + text + Slice(s, at, |s|)
  }

  /** read_from_file: `s[start:]` without a size, `s[start:start+size]` with one. */
  function ReadRange(s: string, start: int, size: Option<int>): (r: string)
    ensures var lo := Bound(start, |s|); lo + |r| <= |s| && r == s[lo..lo + |r|]
    ensures size.None? ==> r == s[Bound(start, |s|)..]
    ensures 0 <= start && size.Some? && 0 <= size.value ==>
      |r| == (if start + size.value <= |s| then size.value else if start <= |s| then |s| - start else 0)
    ensures size.Some? ==> var lo, hi := Bound(start, |s|), Bound(start + size.value, |s|);
      |r| == if lo <= hi then hi - lo else 0
  {
    match size
    case None => Slice(s, start, |s|)
    case Some(n) => Slice(s, start, start + n)
  }

  /**
   * move_within_file. The piece `s[start:start+size]` is cut out and put at the
   * end when `target` exceeds the length of s before the cut; otherwise a copy is
   * inserted before `target` and the original stays where it was.
   */
  function Moved(s: string, start: int, size: int, target: int): (r: string)
  {
    var piece := Slice(s, start, start + size);
    if target > |s| then Slice(s, 0, start) + Slice(s, start + size, |s|) + piece
    else Slice(s, 0, target) + piece + Slice(s, target, |s|)
  }

  /** truncate_file: `s[:n]`. */
  function Truncated(s: string, n: int): (r: string)
    ensures |r| <= |s| && r == s[..|r|]
    ensures 0 <= n ==> |r| == if n < |s| then n else |s|
    ensures |r| == Bound(n, |s|)
    ensures r == s <==> (n >= |s| || s == [])
  {
    Slice(s, 0, n)
  }

  lemma {:induction false} MultisetRotate(x: string, y: string, z: string)
    ensures multiset(x + z + y) == multiset(x + y + z)
  {
    calc {
      multiset(x + z + y);
      multiset(x) + multiset(z) + multiset(y);
      multiset(x) + multiset(y) + multiset(z);
      multiset(x + y + z);
    }
  }

  /** With a far target and a forward range, moving only reorders: the piece is cut out and appended. */
  lemma {:induction false} MovedToEnd(s: string, start: int, size: int, target: int)
    requires target > |s| && 0 <= start && 0 <= size
    ensures var a := if start < |s| then start else |s|;
      var b := if start + size < |s| then start + size else |s|;
      Moved(s, start, size, target) == s[..a] + s[b..] + s[a..b]
    ensures |Moved(s, start, size, target)| == |s|
    ensures multiset(Moved(s, start, size, target)) == multiset(s)
  {
    var a := if start < |s| then start else |s|;
    var b := if start + size < |s| then start + size else |s|;
    SliceAround(s, start);
    SliceAround(s, start + size);
    assert Bound(start, |s|) == a && Bound(start + size, |s|) == b;
    assert Slice(s, start, start + size) == s[a..b];
    assert s == s[..a] + s[a..b] + s[b..];
    MultisetRotate(s[..a], s[a..b], s[b..]);
  }

  /** With a target within the content, the move is a write of a copy of the piece at the target. */
  lemma {:induction false} MovedCopies(s: string, start: int, size: int, target: int)
    requires target <= |s|
    ensures Moved(s, start, size, target) == Inserted(s, target, Slice(s, start, start + size))
    ensures |Moved(s, start, size, target)| == |s| + |Slice(s, start, start + size)|
  {
  }

  /** The two worked examples: a target past the end, and a target inside the content. */
  lemma {:induction false} MovedExamples()
    ensures Moved("ABCDEFGH", 2, 3, 100) == "ABFGHCDE"
    ensures Moved("ABCDEFGH", 2, 3, 1) == "ACDEBCDEFGH"
  {
    assert Slice("ABCDEFGH", 2, 5) == "CDE";
    assert Slice("ABCDEFGH", 0, 2) == "AB";
    assert Slice("ABCDEFGH", 5, 8) == "FGH";
    assert Slice("ABCDEFGH", 0, 1) == "A";
    assert Slice("ABCDEFGH", 1, 8) == "BCDEFGH";
  }

  /**
   * With a negative start the far-target branch is no longer a rearrangement:
   * `s[-1:2]` is empty while `s[:-1] + s[2:]` repeats "CD", so the content grows.
   */
  lemma {:induction false} MovedNegativeStart()
    ensures Moved("ABCDE", -1, 3, 100) == "ABCDCDE"
    ensures |Moved("ABCDE", -1, 3, 100)| > |"ABCDE"|
  {
    assert Slice("ABCDE", -1, 2) == "";
    assert Slice("ABCDE", 0, -1) == "ABCD";
    assert Slice("ABCDE", 2, 5) == "CDE";
  }

  // ---------------------------------------------------------------- the object

  class FileObject {
    var name: string
    var size: nat
    var content: string
    var mode: Mode

    /** A new empty file: size 0, no content, never opened. */
    constructor (name: string)
      ensures this.name == name && size == 0 && content == "" && mode == Unset
    {
      this.name := name;
      size := 0;
      content := "";
      mode := Unset;
    }

    /** The guard every content edit starts with: the attribute must exist and equal `wanted`. */
    function Check(wanted: Mode): (r: Outcome)
      reads this
      ensures r.Ok? <==> mode == wanted && wanted != Unset
    {
      if mode == Unset then Err(NoAttribute)
      else if mode != wanted then Err(NotPermitted)
      else Done
    }

    method Open(m: string) returns (r: Outcome)
      modifies this`mode
      ensures OpenEffect(this, m, r)
    {
      match ModeOf(m)
      case None => r := Err(BadMode);
      case Some(md) => mode := md; r := Done;
    }

    method Close()
      modifies this`mode
      ensures mode == Closed
    {
      mode := Closed;
    }

    method AppendText(text: string) returns (r: Outcome)
      modifies this`content, this`size
      ensures AppendEffect(this, text, r)
    {
      r := Check(Append);
      if r.Ok? {
        content := content + text;
        size := |content|;
      }
    }

    method WriteText(text: string, at: int) returns (r: Outcome)
      modifies this`content, this`size
      ensures WriteEffect(this, text, at, r)
    {
      r := Check(Write);
      if r.Ok? {
        content := Inserted(content, at, text);
        size := |content|;
      }
    }

    method ReadText(start: int, size: Option<int>) returns (r: Result<string>)
      ensures r.Ok? <==> mode == Read
      ensures r.Ok? ==> r.value == ReadRange(content, start, size)
      ensures r.Err? ==> r.error == (if mode == Unset then NoAttribute else NotPermitted)
    {
      var guard := Check(Read);
      if guard.Ok? {
        r := Ok(ReadRange(content, start, size));
      } else {
        r := Err(guard.error);
      }
    }

    method MoveWithin(start: int, size: int, target: int) returns (r: Outcome)
      modifies this`content
      ensures MoveEffect(this, start, size, target, r)
    {
      r := Check(Write);
      if r.Ok? {
        content := Moved(content, start, size, target);
      }
    }

    method Truncate(n: int) returns (r: Outcome)
      modifies this`content, this`size
      ensures TruncateEffect(this, n, r)
    {
      r := Check(Write);
      if r.Ok? {
        content := Truncated(content, n);
        size := |content|;
      }
    }
  }

  // ---------------------------------------------------------------- effects, as two-state predicates

  /** open(m): a valid mode is stored and returned; any other raises and leaves the mode alone. */
  twostate predicate OpenEffect(f: FileObject, m: string, new r: Outcome)
    reads f
  {
    f.name == old(f.name) && f.content == old(f.content) && f.size == old(f.size) &&
    match ModeOf(m)
    case None => r == Err(BadMode) && f.mode == old(f.mode)
    case Some(md) => r == Done && f.mode == md
  }

  /** The part every guarded edit shares: the guard's verdict is returned, name and mode stay. */
  twostate predicate Guarded(f: FileObject, wanted: Mode, new r: Outcome)
    reads f
  {
    r == old(f.Check(wanted)) && f.name == old(f.name) && f.mode == old(f.mode) &&
    (r.Err? ==> f.content == old(f.content) && f.size == old(f.size))
  }

  /** append_to_file: needs mode "a"; content grows by `text` at the end and size follows. */
  twostate predicate AppendEffect(f: FileObject, text: string, new r: Outcome)
    reads f
  {
    Guarded(f, Append, r) &&
    (r.Ok? ==> f.content == old(f.content) + text && f.size == |f.content|)
  }

  /** write_to_file: needs mode "w"; `text` inserted at `at` and size follows. */
  twostate predicate WriteEffect(f: FileObject, text: string, at: int, new r: Outcome)
    reads f
  {
    Guarded(f, Write, r) &&
    (r.Ok? ==> f.content == Inserted(old(f.content), at, text) && f.size == |f.content|)
  }

  /** move_within_file: needs mode "w"; the content is moved and size is NOT updated. */
  twostate predicate MoveEffect(f: FileObject, start: int, size: int, target: int, new r: Outcome)
    reads f
  {
    Guarded(f, Write, r) && f.size == old(f.size) &&
    (r.Ok? ==> f.content == Moved(old(f.content), start, size, target))
  }

  /** truncate_file: needs mode "w"; keeps `content[:n]` and size follows. */
  twostate predicate TruncateEffect(f: FileObject, n: int, new r: Outcome)
    reads f
  {
    Guarded(f, Write, r) &&
    (r.Ok? ==> f.content == Truncated(old(f.content), n) && f.size == |f.content|)
  }
}
