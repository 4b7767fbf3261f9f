/**
 * The command loop of main.py: one input line is stripped, compared with
 * "exit", cut into arguments, decoded into a command and dispatched to the
 * file system; what the line prints and the exception it ends with, if any,
 * make up its reply.
 */
module Shell {
  import opened Outcomes
  import opened PyStr
  import opened Tree
  import opened FileSystems

  // ---------------------------------------------------------------- arguments

  /**
   * The argument list of a (stripped) command line. With a '"' in it, the
   * list is always three items: the first blank-separated word, the text up to
   * the second '"', and the last blank-separated word. Without one, it is the
   * blank-separated words.
   */
  function Tokenise(line: string): (args: seq<string>)
    ensures '"' in line ==> |args| == 3
    ensures forall i :: 0 <= i < |args| ==> IsWord(args[i]) || (i == 1 && '"' in line)
  {
    if '"' in line then
      WordsNonEmpty(line, '"');
      SecondPiece(line, '"');
      var ws := Words(line);
      [ws[0], SplitOn(line, '"')[1], ws[|ws| - 1]]
    else
      Words(line)
  }

  /** A character that neither the parts nor the separator hold is not in their join. */
  lemma {:induction false} JoinAvoids(parts: seq<string>, sep: char, c: char)
    requires c != sep && forall i :: 0 <= i < |parts| ==> c !in parts[i]
    ensures c !in Join(parts, sep)
    decreases |parts|
  {
    if |parts| > 1 {
      JoinAvoids(parts[1..], sep, c);
      assert c !in parts[0];
    }
  }

  /** Words without quotes, joined by single blanks, are cut back into the same words. */
  lemma {:induction false} TokeniseUnquoted(ws: seq<string>)
    requires forall i :: 0 <= i < |ws| ==> IsWord(ws[i]) && '"' !in ws[i]
    ensures Tokenise(Join(ws, ' ')) == ws
  {
    JoinAvoids(ws, ' ', '"');
    WordsOfJoin(ws);
  }

  /** The piece after the first '"' of a line, when the next '"' closes `text`. */
  lemma {:induction false} QuotedPiece(a: string, text: string, rest: string)
    requires '"' !in a && '"' !in text
    ensures var line := a + ['"'] + text + ['"'] + rest;
      '"' in line && |SplitOn(line, '"')| >= 2 && SplitOn(line, '"')[1] == text
  {
    var line := a + ['"'] + text + ['"'] + rest;
    var b := text + ['"'] + rest;
    assert line == a + ['"'] + b;
    assert line[|a|] == '"';
    SecondPiece(line, '"');
    IndexOfSeparated(a, '"', b);
    assert line[|a| + 1..] == b;
    IndexOfSeparated(text, '"', rest);
    assert b[..|text|] == text;
  }

  /** A word followed by a blank, with no quote in the word, has no quote. */
  lemma {:induction false} QuoteFreeWord(verb: string)
    requires '"' !in verb
    ensures '"' !in verb + [' ']
  {
    var a := verb + [' '];
    forall i | 0 <= i < |a| ensures a[i] != '"' {
      if i < |verb| { assert a[i] == verb[i]; }
    }
  }

  /** The words of a quoted line: the verb first and the trailing word last. */
  lemma {:induction false} QuotedWords(verb: string, text: string, last: string)
    requires IsWord(verb) && IsWord(last)
    ensures var ws := Words(verb + [' ', '"'] + text + ['"', ' '] + last);
      |ws| >= 2 && ws[0] == verb && ws[|ws| - 1] == last
  {
    var q := ['"'] + text + ['"'];
    var x := verb + [' '] + q;
    assert verb + [' ', '"'] + text + ['"', ' '] + last == x + [' '] + last;
    WordsOfWordThen(verb, ' ', q);
    WordsSnoc(x, ' ', last);
  }

  /** A line with a quote is cut into its first word, its first quoted piece and its last word. */
  lemma {:induction false} TokeniseOfParts(line: string, first: string, piece: string, last: string)
    requires '"' in line
    requires |Words(line)| >= 1 && Words(line)[0] == first && Words(line)[|Words(line)| - 1] == last
    requires |SplitOn(line, '"')| >= 2 && SplitOn(line, '"')[1] == piece
    ensures Tokenise(line) == [first, piece, last]
  {
  }

  /**
   * A quoted text between a leading and a trailing word comes out as one
   * argument, blanks and all, between the two words.
   */
  lemma {:induction false} TokeniseQuoted(verb: string, text: string, last: string)
    requires IsWord(verb) && IsWord(last) && '"' !in verb && '"' !in text && '"' !in last
    ensures Tokenise(verb + [' ', '"'] + text + ['"', ' '] + last) == [verb, text, last]
  {
    var line := verb + [' ', '"'] + text + ['"', ' '] + last;
    QuotedWords(verb, text, last);
    QuoteFreeWord(verb);
    assert line == (verb + [' ']) + ['"'] + text + ['"'] + ([' '] + last);
    QuotedPiece(verb + [' '], text, [' '] + last);
    TokeniseOfParts(line, verb, text, last);
  }

  /** A quoted text after a verb, with nothing after the closing quote. */
  lemma {:induction false} TokeniseQuotedTail(verb: string, text: string)
    requires IsWord(verb) && '"' !in verb && '"' !in text
    ensures var args := Tokenise(verb + [' ', '"'] + text + ['"']);
      args[0] == verb && args[1] == text
  {
    var line := verb + [' ', '"'] + text + ['"'];
    var q := ['"'] + text + ['"'];
    assert line == verb + [' '] + q;
    WordsOfWordThen(verb, ' ', q);
    QuoteFreeWord(verb);
    assert line == (verb + [' ']) + ['"'] + text + ['"'] + [];
    QuotedPiece(verb + [' '], text, []);
    TokeniseFront(line, verb, text);
  }

  lemma {:induction false} TokeniseFront(line: string, first: string, piece: string)
    requires '"' in line
    requires |Words(line)| >= 1 && Words(line)[0] == first
    requires |SplitOn(line, '"')| >= 2 && SplitOn(line, '"')[1] == piece
    ensures var args := Tokenise(line); args[0] == first && args[1] == piece
  {
  }

  // ---------------------------------------------------------------- commands

  /** What a line asks for, once its arguments have been read and converted. */
  datatype Command =
    | Create(name: string)
    | Delete(name: string)
    | MkDir(name: string)
    | ChDir(name: string)
    | List
    | Move(source: string, destination: string)
    | Open(name: string, mode: string)
    | Close
    | Read(name: string, start: int, size: Option<int>)
    | Write(text: string, at: int)
    | Append(text: string)
    | MoveFile(name: string, start: int, length: int, target: int)
    | Truncate(name: string, n: int)
    | Memory
    | Invalid

  /** The verbs the dispatch knows, and Unknown for every other first argument. */
  datatype Verb =
    | CreateVerb | DeleteVerb | MkDirVerb | ChDirVerb | ListVerb | MoveVerb | OpenVerb
    | CloseVerb | ReadVerb | WriteVerb | AppendVerb | MoveFileVerb | TruncateVerb | MemoryVerb
    | Unknown

  const Verbs: set<string> := {
    "create", "delete", "mkDir", "chDir", "list", "move", "open", "close",
    "read", "write", "append", "moveFile", "truncate", "memory"}

  /** How a known verb is typed. */
  function Spelling(v: Verb): string {
    match v
    case CreateVerb => "create"
    case DeleteVerb => "delete"
    case MkDirVerb => "mkDir"
    case ChDirVerb => "chDir"
    case ListVerb => "list"
    case MoveVerb => "move"
    case OpenVerb => "open"
    case CloseVerb => "close"
    case ReadVerb => "read"
    case WriteVerb => "write"
    case AppendVerb => "append"
    case MoveFileVerb => "moveFile"
    case TruncateVerb => "truncate"
    case MemoryVerb => "memory"
    case Unknown => ""
  }

  /** The comparisons of `args[0]` with each verb, in the order the dispatch makes them. */
  function VerbOf(s: string): (v: Verb)
    ensures v != Unknown ==> Spelling(v) == s
  {
    if s == "create" then CreateVerb
    else if s == "delete" then DeleteVerb
    else if s == "mkDir" then MkDirVerb
    else if s == "chDir" then ChDirVerb
    else if s == "list" then ListVerb
    else if s == "move" then MoveVerb
    else if s == "open" then OpenVerb
    else if s == "close" then CloseVerb
    else if s == "read" then ReadVerb
    else if s == "write" then WriteVerb
    else if s == "append" then AppendVerb
    else if s == "moveFile" then MoveFileVerb
    else if s == "truncate" then TruncateVerb
    else if s == "memory" then MemoryVerb
    else Unknown
  }

  /** Exactly the strings in Verbs are recognised. */
  lemma {:induction false} VerbOfKnown(s: string)
    ensures VerbOf(s) == Unknown <==> s !in Verbs
  {
  }

  /** Each known verb is recognised from its spelling. */
  lemma {:induction false} VerbOfSpelling(v: Verb)
    requires v != Unknown
    ensures VerbOf(Spelling(v)) == v
  {
    var s := Spelling(v);
    assert Spelling(VerbOf(s)) == s;
  }

  /** `args[i]`: an IndexError past the end. */
  function Arg(args: seq<string>, i: nat): (r: Result<string>)
    ensures r.Ok? <==> i < |args|
    ensures r.Ok? ==> r.value == args[i]
    ensures r.Err? ==> r.error == MissingArgument
  {
    if i < |args| then Ok(args[i]) else Err(MissingArgument)
  }

  /** `int(args[i])`: the index is evaluated first, then the conversion. */
  function Number(args: seq<string>, i: nat, toInt: string -> Option<int>): (r: Result<int>)
    ensures r.Ok? <==> i < |args| && toInt(args[i]).Some?
    ensures r.Ok? ==> Some(r.value) == toInt(args[i])
    ensures r.Err? ==> r.error == (if i < |args| then NotAnInteger else MissingArgument)
  {
    if i >= |args| then Err(MissingArgument)
    else match toInt(args[i])
      case None => Err(NotAnInteger)
      case Some(v) => Ok(v)
  }

  /**
   * The dispatch on `args[0]`: arguments are read left to right, so the first
   * one missing or not a number decides the exception. Arguments past those a
   * verb reads are ignored; an unknown verb is Invalid.
   */
  function Decode(args: seq<string>, toInt: string -> Option<int>): Result<Command> {
    if |args| == 0 then Err(MissingArgument)
    else match VerbOf(args[0])
      case CreateVerb => var n :- Arg(args, 1); Ok(Create(n))
      case DeleteVerb => var n :- Arg(args, 1); Ok(Delete(n))
      case MkDirVerb => var n :- Arg(args, 1); Ok(MkDir(n))
      case ChDirVerb => var n :- Arg(args, 1); Ok(ChDir(n))
      case ListVerb => Ok(List)
      case MoveVerb => var s :- Arg(args, 1); var d :- Arg(args, 2); Ok(Move(s, d))
      case OpenVerb => var n :- Arg(args, 1); var m :- Arg(args, 2); Ok(Open(n, m))
      case CloseVerb => Ok(Close)
      case ReadVerb =>
        if |args| == 2 then Ok(Read(args[1], 0, None))
        else
          var n :- Arg(args, 1); var s :- Number(args, 2, toInt); var z :- Number(args, 3, toInt);
          Ok(Read(n, s, Some(z)))
      case WriteVerb => var t :- Arg(args, 1); var at :- Number(args, 2, toInt); Ok(Write(t, at))
      case AppendVerb => var t :- Arg(args, 1); Ok(Append(t))
      case MoveFileVerb =>
        var n :- Arg(args, 1); var s :- Number(args, 2, toInt); var z :- Number(args, 3, toInt);
        var t :- Number(args, 4, toInt);
        Ok(MoveFile(n, s, z, t))
      case TruncateVerb => var n :- Arg(args, 1); var k :- Number(args, 2, toInt); Ok(Truncate(n, k))
      case MemoryVerb => Ok(Memory)
      case Unknown => Ok(Invalid)
  }

  // ---------------------------------------------------------------- what Decode accepts

  /** How many items (the verb included) a verb reads, given how many there are. */
  function Arity(v: Verb, count: nat): nat {
    match v
    case ListVerb | CloseVerb | MemoryVerb | Unknown => 1
    case CreateVerb | DeleteVerb | MkDirVerb | ChDirVerb | AppendVerb => 2
    case MoveVerb | OpenVerb | WriteVerb | TruncateVerb => 3
    case ReadVerb => if count == 2 then 2 else 4
    case MoveFileVerb => 5
  }

  /** Whether item i of a line with that verb goes through int(). */
  predicate Numeric(v: Verb, count: nat, i: nat) {
    match v
    case WriteVerb | TruncateVerb => i == 2
    case ReadVerb => count != 2 && 2 <= i <= 3
    case MoveFileVerb => 2 <= i <= 4
    case _ => false
  }

  /** Some item the verb reads as a number is present and is not one. */
  predicate BadNumber(args: seq<string>, toInt: string -> Option<int>)
    requires |args| >= 1
  {
    var v := VerbOf(args[0]);
    exists i :: 1 <= i < Arity(v, |args|) && i < |args| && Numeric(v, |args|, i) && toInt(args[i]).None?
  }

  /**
   * Decoding fails exactly when the line is too short for its verb or has a
   * bad number among the items the verb reads; the failure is a ValueError
   * exactly in the second case.
   */
  lemma {:induction false} DecodeFails(args: seq<string>, toInt: string -> Option<int>)
    requires |args| >= 1
    ensures Decode(args, toInt).Err? <==> |args| < Arity(VerbOf(args[0]), |args|) || BadNumber(args, toInt)
    ensures Decode(args, toInt) == Err(NotAnInteger) <==> BadNumber(args, toInt)
  {
    DecodeCharacterised(args, Invalid, toInt);
  }

  /** The two characterisations of Decode, for one argument list and one command. */
  predicate Characterised(args: seq<string>, cmd: Command, toInt: string -> Option<int>)
    requires |args| >= 1
  {
    (Decode(args, toInt) == Ok(cmd) <==> Asks(args, cmd, toInt)) &&
    (Decode(args, toInt).Err? <==> |args| < Arity(VerbOf(args[0]), |args|) || BadNumber(args, toInt)) &&
    (Decode(args, toInt) == Err(NotAnInteger) <==> BadNumber(args, toInt))
  }

  lemma {:induction false} DecodeCharacterised(args: seq<string>, cmd: Command, toInt: string -> Option<int>)
    requires |args| >= 1
    ensures Characterised(args, cmd, toInt)
  {
    match VerbOf(args[0])
    case ListVerb | CloseVerb | MemoryVerb | Unknown => DecodeBare(args, cmd, toInt);
    case CreateVerb | DeleteVerb | MkDirVerb | ChDirVerb | AppendVerb => DecodeNamed(args, cmd, toInt);
    case MoveVerb | OpenVerb => DecodePair(args, cmd, toInt);
    case WriteVerb | TruncateVerb => DecodeNumbered(args, cmd, toInt);
    case ReadVerb => DecodeRead(args, cmd, toInt);
    case MoveFileVerb => DecodeMoveFile(args, cmd, toInt);
  }

  lemma {:induction false} DecodeBare(args: seq<string>, cmd: Command, toInt: string -> Option<int>)
    requires |args| >= 1 && VerbOf(args[0]) in {ListVerb, CloseVerb, MemoryVerb, Unknown}
    ensures Characterised(args, cmd, toInt)
  {
  }

  lemma {:induction false} DecodeNamed(args: seq<string>, cmd: Command, toInt: string -> Option<int>)
    requires |args| >= 1 && VerbOf(args[0]) in {CreateVerb, DeleteVerb, MkDirVerb, ChDirVerb, AppendVerb}
    ensures Characterised(args, cmd, toInt)
  {
  }

  lemma {:induction false} DecodePair(args: seq<string>, cmd: Command, toInt: string -> Option<int>)
    requires |args| >= 1 && VerbOf(args[0]) in {MoveVerb, OpenVerb}
    ensures Characterised(args, cmd, toInt)
  {
  }

  lemma {:induction false} DecodeNumbered(args: seq<string>, cmd: Command, toInt: string -> Option<int>)
    requires |args| >= 1 && VerbOf(args[0]) in {WriteVerb, TruncateVerb}
    ensures Characterised(args, cmd, toInt)
  {
    NumberedAsks(args, cmd, toInt);
    NumberedFails(args, toInt);
  }

  lemma {:induction false} NumberedAsks(args: seq<string>, cmd: Command, toInt: string -> Option<int>)
    requires |args| >= 1 && VerbOf(args[0]) in {WriteVerb, TruncateVerb}
    ensures Decode(args, toInt) == Ok(cmd) <==> Asks(args, cmd, toInt)
  {
  }

  lemma {:induction false} NumberedFails(args: seq<string>, toInt: string -> Option<int>)
    requires |args| >= 1 && VerbOf(args[0]) in {WriteVerb, TruncateVerb}
    ensures Decode(args, toInt).Err? <==> |args| < Arity(VerbOf(args[0]), |args|) || BadNumber(args, toInt)
    ensures Decode(args, toInt) == Err(NotAnInteger) <==> BadNumber(args, toInt)
  {
    if |args| >= 3 && toInt(args[2]).None? {
      assert Numeric(VerbOf(args[0]), |args|, 2);
    }
  }

  lemma {:induction false} DecodeRead(args: seq<string>, cmd: Command, toInt: string -> Option<int>)
    requires |args| >= 1 && VerbOf(args[0]) == ReadVerb
    ensures Characterised(args, cmd, toInt)
  {
    ReadAsks(args, cmd, toInt);
    ReadFails(args, toInt);
  }

  lemma {:induction false} ReadAsks(args: seq<string>, cmd: Command, toInt: string -> Option<int>)
    requires |args| >= 1 && VerbOf(args[0]) == ReadVerb
    ensures Decode(args, toInt) == Ok(cmd) <==> Asks(args, cmd, toInt)
  {
  }

  lemma {:induction false} ReadFails(args: seq<string>, toInt: string -> Option<int>)
    requires |args| >= 1 && VerbOf(args[0]) == ReadVerb
    ensures Decode(args, toInt).Err? <==> |args| < Arity(ReadVerb, |args|) || BadNumber(args, toInt)
    ensures Decode(args, toInt) == Err(NotAnInteger) <==> BadNumber(args, toInt)
  {
    var n := |args|;
    if n != 2 && n >= 3 {
      if toInt(args[2]).None? {
        assert Numeric(ReadVerb, n, 2);
      } else if n >= 4 && toInt(args[3]).None? {
        assert Numeric(ReadVerb, n, 3);
      }
      if BadNumber(args, toInt) {
        var i :| 1 <= i < Arity(ReadVerb, n) && i < n && Numeric(ReadVerb, n, i) && toInt(args[i]).None?;
        assert i == 2 || i == 3;
      }
    }
  }

  lemma {:induction false} DecodeMoveFile(args: seq<string>, cmd: Command, toInt: string -> Option<int>)
    requires |args| >= 1 && VerbOf(args[0]) == MoveFileVerb
    ensures Characterised(args, cmd, toInt)
  {
    MoveFileAsks(args, cmd, toInt);
    MoveFileFails(args, toInt);
  }

  lemma {:induction false} MoveFileAsks(args: seq<string>, cmd: Command, toInt: string -> Option<int>)
    requires |args| >= 1 && VerbOf(args[0]) == MoveFileVerb
    ensures Decode(args, toInt) == Ok(cmd) <==> Asks(args, cmd, toInt)
  {
  }

  lemma {:induction false} MoveFileFails(args: seq<string>, toInt: string -> Option<int>)
    requires |args| >= 1 && VerbOf(args[0]) == MoveFileVerb
    ensures Decode(args, toInt).Err? <==> |args| < Arity(MoveFileVerb, |args|) || BadNumber(args, toInt)
    ensures Decode(args, toInt) == Err(NotAnInteger) <==> BadNumber(args, toInt)
  {
    var n := |args|;
    if n >= 3 {
      if toInt(args[2]).None? {
        assert Numeric(MoveFileVerb, n, 2);
      } else if n >= 4 && toInt(args[3]).None? {
        assert Numeric(MoveFileVerb, n, 3);
      } else if n >= 5 && toInt(args[4]).None? {
        assert Numeric(MoveFileVerb, n, 4);
      }
      if BadNumber(args, toInt) {
        var i :| 1 <= i < 5 && i < n && Numeric(MoveFileVerb, n, i) && toInt(args[i]).None?;
        assert 2 <= i <= 4;
      }
    }
  }

  /** An unknown verb decodes to Invalid whatever follows it, and only an unknown verb does. */
  lemma {:induction false} DecodeInvalid(args: seq<string>, toInt: string -> Option<int>)
    requires |args| >= 1
    ensures Decode(args, toInt) == Ok(Invalid) <==> args[0] !in Verbs
  {
    VerbOfKnown(args[0]);
  }

  /** Whether a command can come out of Decode: not Invalid, and a read without a size starts at 0. */
  predicate Decodable(cmd: Command) {
    !cmd.Invalid? && !(cmd.Read? && cmd.size.None? && cmd.start != 0)
  }

  /** The shortest argument list that asks for `cmd`, numbers written in decimal. */
  function Render(cmd: Command): (args: seq<string>)
    ensures |args| >= 1
  {
    match cmd
    case Create(n) => [Spelling(CreateVerb), n]
    case Delete(n) => [Spelling(DeleteVerb), n]
    case MkDir(n) => [Spelling(MkDirVerb), n]
    case ChDir(n) => [Spelling(ChDirVerb), n]
    case List => [Spelling(ListVerb)]
    case Move(s, d) => [Spelling(MoveVerb), s, d]
    case Open(n, m) => [Spelling(OpenVerb), n, m]
    case Close => [Spelling(CloseVerb)]
    case Read(n, s, z) =>
      (match z
       case None => [Spelling(ReadVerb), n]
       case Some(v) => [Spelling(ReadVerb), n, IntToString(s), IntToString(v)])
    case Write(t, at) => [Spelling(WriteVerb), t, IntToString(at)]
    case Append(t) => [Spelling(AppendVerb), t]
    case MoveFile(n, s, z, t) => [Spelling(MoveFileVerb), n, IntToString(s), IntToString(z), IntToString(t)]
    case Truncate(n, k) => [Spelling(TruncateVerb), n, IntToString(k)]
    case Memory => [Spelling(MemoryVerb)]
    case Invalid => [Spelling(Unknown)]
  }

  /** The verb a command is asked for by. */
  function VerbFor(cmd: Command): Verb {
    match cmd
    case Create(_) => CreateVerb
    case Delete(_) => DeleteVerb
    case MkDir(_) => MkDirVerb
    case ChDir(_) => ChDirVerb
    case List => ListVerb
    case Move(_, _) => MoveVerb
    case Open(_, _) => OpenVerb
    case Close => CloseVerb
    case Read(_, _, _) => ReadVerb
    case Write(_, _) => WriteVerb
    case Append(_) => AppendVerb
    case MoveFile(_, _, _, _) => MoveFileVerb
    case Truncate(_, _) => TruncateVerb
    case Memory => MemoryVerb
    case Invalid => Unknown
  }

  /**
   * What it takes for an argument list to ask for `cmd`: its verb, enough
   * items for that verb, each text item as given, and each numeric item one
   * that int() converts to the value.
   */
  predicate Asks(args: seq<string>, cmd: Command, toInt: string -> Option<int>) {
    |args| >= 1 && VerbOf(args[0]) == VerbFor(cmd) &&
    match cmd
    case Create(n) => |args| >= 2 && args[1] == n
    case Delete(n) => |args| >= 2 && args[1] == n
    case MkDir(n) => |args| >= 2 && args[1] == n
    case ChDir(n) => |args| >= 2 && args[1] == n
    case List => true
    case Move(s, d) => |args| >= 3 && args[1] == s && args[2] == d
    case Open(n, m) => |args| >= 3 && args[1] == n && args[2] == m
    case Close => true
    case Read(n, s, None) => |args| == 2 && args[1] == n && s == 0
    case Read(n, s, Some(z)) =>
      |args| >= 4 && args[1] == n && toInt(args[2]) == Some(s) && toInt(args[3]) == Some(z)
    case Write(t, at) => |args| >= 3 && args[1] == t && toInt(args[2]) == Some(at)
    case Append(t) => |args| >= 2 && args[1] == t
    case MoveFile(n, s, z, t) =>
      |args| >= 5 && args[1] == n &&
      toInt(args[2]) == Some(s) && toInt(args[3]) == Some(z) && toInt(args[4]) == Some(t)
    case Truncate(n, k) => |args| >= 3 && args[1] == n && toInt(args[2]) == Some(k)
    case Memory => true
    case Invalid => true
  }

  /** Decode returns a command exactly when the arguments ask for it. */
  lemma {:induction false} DecodeAsks(args: seq<string>, cmd: Command, toInt: string -> Option<int>)
    ensures Decode(args, toInt) == Ok(cmd) <==> Asks(args, cmd, toInt)
  {
    if |args| >= 1 {
      DecodeCharacterised(args, cmd, toInt);
    }
  }

  /** Every command Decode can produce is read back from its rendering. */
  lemma {:induction false} DecodeRender(cmd: Command)
    requires Decodable(cmd)
    ensures Decode(Render(cmd), ParseInt) == Ok(cmd)
  {
    forall i ensures ParseInt(IntToString(i)) == Some(i) {
      ParseIntToString(i);
    }
    RenderAsks(cmd, ParseInt);
    DecodeAsks(Render(cmd), cmd, ParseInt);
  }

  /**
   * The rendering of a decodable command asks for it, with any conversion
   * that reads decimal renderings back.
   */
  lemma {:induction false} RenderAsks(cmd: Command, toInt: string -> Option<int>)
    requires Decodable(cmd) && forall i :: toInt(IntToString(i)) == Some(i)
    ensures Asks(Render(cmd), cmd, toInt)
  {
    VerbOfSpelling(VerbFor(cmd));
    assert Render(cmd)[0] == Spelling(VerbFor(cmd));
  }

  /** Whether every item of a command's rendering is a word with no quote in it. */
  predicate Plain(cmd: Command) {
    var args := Render(cmd);
    forall i :: 0 <= i < |args| ==> IsWord(args[i]) && '"' !in args[i]
  }

  /**
   * A command whose items are plain words, typed as its rendering joined by
   * blanks, is cut and decoded back into that command.
   */
  lemma {:induction false} TypedRoundTrip(cmd: Command)
    requires Decodable(cmd) && Plain(cmd)
    ensures Decode(Tokenise(Join(Render(cmd), ' ')), ParseInt) == Ok(cmd)
  {
    TokeniseUnquoted(Render(cmd));
    DecodeRender(cmd);
  }

  // ---------------------------------------------------------------- running a command

  /**
   * What one line produces: the end of the loop, or the lines it prints and
   * the exception that interrupted it (printed as "Error: ..." by the loop).
   */
  datatype Reply = Exit | Output(lines: seq<string>, error: Option<Error>)

  /** The exception a result carries, if any. */
  function Raised<T>(r: Result<T>): (e: Option<Error>)
    ensures e.None? <==> r.Ok?
    ensures r.Err? ==> e == Some(r.error)
  {
    match r
    case Ok(_) => None
    case Err(e) => Some(e)
  }

  /** The outcome a reply reports. */
  function Status(out: Reply): (r: Outcome)
    ensures out.Output? && out.error.Some? ==> r == Err(out.error.value)
    ensures out.Exit? || out.error.None? ==> r == Done
  {
    if out.Output? && out.error.Some? then Err(out.error.value) else Done
  }

  /** A report that prints `message` on success and nothing on failure. */
  function Report(r: Outcome, message: string): (out: Reply)
    ensures Status(out) == r
    ensures out.Output? && out.lines == (if r.Ok? then [message] else [])
  {
    assert r.Ok? ==> r.value == () && r == Ok(());
    Output(if r.Ok? then [message] else [], Raised(r))
  }

  /** What the file objects a command may change are: the named file, or the open one. */
  function Touched(fs: FileSystem, cmd: Command): set<object>
    reads fs
    requires fs.Valid()
  {
    match cmd
    case Open(n, _) => fs.Target(n)
    case Read(n, _, _) => fs.Target(n)
    case MoveFile(n, _, _, _) => fs.Target(n)
    case Truncate(n, _) => fs.Target(n)
    case Write(_, _) => if fs.openFile == null then {} else {fs.openFile}
    case Append(_) => if fs.openFile == null then {} else {fs.openFile}
    case _ => {}
  }

  /** The file objects a line may change: those its command touches, if it decodes to one. */
  function Reaches(fs: FileSystem, line: string): set<object>
    reads fs
    requires fs.Valid()
  {
    var command := StripSpace(line);
    if command == "exit" then {}
    else match Decode(Tokenise(command), ParseInt)
      case Err(_) => {}
      case Ok(cmd) => Touched(fs, cmd)
  }

  /** What a reply to a read says the read returned. */
  function ReadStatus(out: Reply): (r: Result<string>)
    requires out.Output?
    ensures out.error.Some? ==> r == Err(out.error.value)
  {
    if out.error.Some? then Err(out.error.value)
    else if |out.lines| == 2 then Ok(out.lines[1])
    else Ok("")
  }

  /** What a reply to chDir says chDir returned: Ok(false) is the not-found message. */
  function ChDirStatus(out: Reply): (r: Result<bool>)
    requires out.Output?
    ensures out.error.Some? ==> r == Err(out.error.value)
  {
    if out.error.Some? then Err(out.error.value) else Ok(out.lines == [])
  }

  /**
   * The effect of running one decoded command: the file system operation the
   * verb names, and what the line prints around it.
   */
  twostate predicate ExecuteEffect(fs: FileSystem, cmd: Command, new out: Reply)
    requires old(fs.Valid())
    reads *
  {
    out.Output? &&
    match cmd
    case Create(n) => CreateEffect(fs, n, Status(out)) &&
      out == Report(Status(out), "File " + n + " created successfully")
    case Delete(n) => DeleteEffect(fs, n, Status(out)) &&
      out == Report(Status(out), "File " + n + " deleted successfully")
    case MkDir(n) => MkDirEffect(fs, n, Status(out)) &&
      out == Report(Status(out), "Directory " + n + " created successfully")
    case ChDir(n) => ChDirEffect(fs, n, ChDirStatus(out)) &&
      (out.error.Some? || out.lines == [] || out.lines == ["Directory not found."]) &&
      (out.error.Some? ==> out.lines == [])
    case List =>
      Unchanged(fs) &&
      out == (match old(fs.ListDir())
        case Ok(lines) => Output(["\nCurrent Directory:"] + lines, None)
        case Err(e) => Output(["\nCurrent Directory:"], Some(e)))
    case Move(s, d) => RenameEffect(fs, s, d, Status(out)) &&
      out == Report(Status(out), "File " + s + " moved to " + d + " successfully")
    case Open(n, m) => OpenFileEffect(fs, n, m, Status(out)) && out.lines == []
    case Close => CloseFileEffect(fs, Status(out)) && out.lines == []
    case Read(n, s, z) => ReadFileEffect(fs, n, s, z, ReadStatus(out)) &&
      (out.error.None? ==> |out.lines| == 2 && out.lines[0] == "Reading file:") &&
      (out.error.Some? ==> out.lines == [])
    case Write(t, at) => WriteFileEffect(fs, t, at, Status(out)) && out.lines == []
    case Append(t) => AppendFileEffect(fs, t, Status(out)) && out.lines == []
    case MoveFile(n, s, z, t) => MoveFileEffect(fs, n, s, z, t, Status(out)) && out.lines == []
    case Truncate(n, k) => TruncateFileEffect(fs, n, k, Status(out)) && out.lines == []
    case Memory => Unchanged(fs) && out == Output(["\nMemory Map:"] + old(fs.MemoryMap()), None)
    case Invalid => Unchanged(fs) && out == Output(["Invalid command"], None)
  }

  /** The dispatch: the operation the command names, run on `fs`, and what it prints. */
  method Execute(fs: FileSystem, cmd: Command) returns (out: Reply)
    requires fs.Valid()
    modifies fs, fs.Held()
    ensures fs.Valid()
    ensures forall o: object :: old(allocated(o)) && o in old(fs.Held()) && o !in old(Touched(fs, cmd)) ==> unchanged(o)
    ensures ExecuteEffect(fs, cmd, out)
  {
    if OnOpenFile(cmd) {
      out := ExecuteOnFile(fs, cmd);
    } else {
      out := ExecuteOnDirectory(fs, cmd);
    }
  }

  /** The commands that name a file or work on the open one, as against those that work on directories. */
  predicate OnOpenFile(cmd: Command)
  {
    cmd.Open? || cmd.Close? || cmd.Read? || cmd.Write? || cmd.Append? || cmd.MoveFile? || cmd.Truncate?
  }

  method ExecuteOnDirectory(fs: FileSystem, cmd: Command) returns (out: Reply)
    requires fs.Valid() && !OnOpenFile(cmd)
    modifies fs, fs.Held()
    ensures fs.Valid()
    ensures forall o: object :: old(allocated(o)) && o in old(fs.Held()) && o !in old(Touched(fs, cmd)) ==> unchanged(o)
    ensures ExecuteEffect(fs, cmd, out)
  {
    match cmd
    case Create(n) =>
      var r := fs.Create(n);
      out := Report(r, "File " + n + " created successfully");
    case Delete(n) =>
      var r := fs.Delete(n);
      out := Report(r, "File " + n + " deleted successfully");
    case MkDir(n) =>
      var r := fs.MkDir(n);
      out := Report(r, "Directory " + n + " created successfully");
    case ChDir(n) =>
      var r := fs.ChDir(n);
      out := match r
        case Ok(true) => Output([], None)
        case Ok(false) => Output(["Directory not found."], None)
        case Err(e) => Output([], Some(e));
    case List =>
      out := match fs.ListDir()
        case Ok(lines) => Output(["\nCurrent Directory:"] + lines, None)
        case Err(e) => Output(["\nCurrent Directory:"], Some(e));
    case Move(s, d) =>
      var r := fs.Move(s, d);
      out := Report(r, "File " + s + " moved to " + d + " successfully");
    case Memory =>
      out := Output(["\nMemory Map:"] + fs.MemoryMap(), None);
    case Invalid =>
      out := Output(["Invalid command"], None);
  }

  method ExecuteOnFile(fs: FileSystem, cmd: Command) returns (out: Reply)
    requires fs.Valid() && OnOpenFile(cmd)
    modifies fs, fs.Held()
    ensures fs.Valid()
    ensures forall o: object :: old(allocated(o)) && o in old(fs.Held()) && o !in old(Touched(fs, cmd)) ==> unchanged(o)
    ensures ExecuteEffect(fs, cmd, out)
  {
    if cmd.Close? || cmd.Write? || cmd.Append? {
      out := ExecuteOnHandle(fs, cmd);
    } else {
      out := ExecuteOnNamedFile(fs, cmd);
    }
  }

  /** close, write and append: they act on the open handle. */
  method ExecuteOnHandle(fs: FileSystem, cmd: Command) returns (out: Reply)
    requires fs.Valid() && (cmd.Close? || cmd.Write? || cmd.Append?)
    modifies fs, fs.Held()
    ensures fs.Valid()
    ensures forall o: object :: old(allocated(o)) && o in old(fs.Held()) && o !in old(Touched(fs, cmd)) ==> unchanged(o)
    ensures ExecuteEffect(fs, cmd, out)
  {
    match cmd
    case Close =>
      var r := fs.CloseFile();
      out := Output([], Raised(r));
    case Write(t, at) =>
      var r := fs.WriteFile(t, at);
      out := Output([], Raised(r));
    case Append(t) =>
      var r := fs.AppendFile(t);
      out := Output([], Raised(r));
  }

  /** open, read, moveFile and truncate: they look up a name in current_dir. */
  method ExecuteOnNamedFile(fs: FileSystem, cmd: Command) returns (out: Reply)
    requires fs.Valid() && (cmd.Open? || cmd.Read? || cmd.MoveFile? || cmd.Truncate?)
    modifies fs, fs.Held()
    ensures fs.Valid()
    ensures forall o: object :: old(allocated(o)) && o in old(fs.Held()) && o !in old(Touched(fs, cmd)) ==> unchanged(o)
    ensures ExecuteEffect(fs, cmd, out)
  {
    match cmd
    case Open(n, m) =>
      fs.TargetHeld(n);
      var r := fs.OpenFile(n, m);
      out := Output([], Raised(r));
    case Read(n, s, z) =>
      fs.TargetHeld(n);
      var r := fs.ReadFile(n, s, z);
      out := match r
        case Ok(text) => Output(["Reading file:", text], None)
        case Err(e) => Output([], Some(e));
    case MoveFile(n, s, z, t) =>
      fs.TargetHeld(n);
      var r := fs.MoveFile(n, s, z, t);
      out := Output([], Raised(r));
    case Truncate(n, k) =>
      fs.TargetHeld(n);
      var r := fs.TruncateFile(n, k);
      out := Output([], Raised(r));
  }

  /**
   * One turn of the loop: the line is stripped; "exit" ends the loop before
   * anything is cut; otherwise a line that does not decode raises before the
   * file system is touched, and one that does is executed.
   */
  method Step(fs: FileSystem, line: string) returns (out: Reply)
    requires fs.Valid()
    modifies fs, fs.Held()
    ensures fs.Valid()
    ensures forall o: object :: old(allocated(o)) && o in old(fs.Held()) && o !in old(Reaches(fs, line)) ==> unchanged(o)
    ensures StripSpace(line) == "exit" ==> out == Exit && unchanged(fs)
    ensures StripSpace(line) != "exit" ==>
      match Decode(Tokenise(StripSpace(line)), ParseInt)
      case Err(e) => out == Output([], Some(e)) && unchanged(fs)
      case Ok(cmd) => ExecuteEffect(fs, cmd, out)
  {
    var command := StripSpace(line);
    if command == "exit" {
      return Exit;
    }
    var args := Tokenise(command);
    match Decode(args, ParseInt)
    case Err(e) =>
      out := Output([], Some(e));
    case Ok(cmd) =>
      out := Execute(fs, cmd);
  }

  /** "exit" is recognised with blanks around it, and it is never a command. */
  lemma {:induction false} ExitIsNotACommand(pre: string, post: string)
    requires forall i :: 0 <= i < |pre| ==> IsSpace(pre[i])
    requires forall i :: 0 <= i < |post| ==> IsSpace(post[i])
    ensures StripSpace(pre + "exit" + post) == "exit"
    ensures "exit" !in Verbs
  {
    StripFramed(pre, "exit", post, IsSpace);
  }
}
