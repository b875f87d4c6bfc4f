/** The command line built for the generic notify script (notify_script_exec). */
module CommandLine {
  import opened NotifyTypes

  /** The label passed to the generic script for a state number; every
      unrecognised state gets the default "{UNKNOWN}". */
  function StateLabel(state: int): (text: string)
    ensures text in {"MASTER", "BACKUP", "FAULT", "{UNKNOWN}"}
    ensures state == MAST <==> text == "MASTER"
    ensures state == BACK <==> text == "BACKUP"
    ensures state == FAULT <==> text == "FAULT"
    ensures ' ' !in text && '"' !in text
  {
    if state == MAST then "MASTER"
    else if state == BACK then "BACKUP"
    else if state == FAULT then "FAULT"
    else "{UNKNOWN}"
  }

  /** The text `"%s" %s "%s" %s` formats to, with script, type, name and state. */
  function Command(script: string, typ: string, name: string, state: string): (cmd: string)
    ensures |cmd| == |script| + |typ| + |name| + |state| + 7
  {
    "\"" + script + "\" " + typ + " \"" + name + "\" " + state
  }

  /** The size notify_script_exec allocates for the command line. */
  function BufferSize(script: string, typ: string, name: string, state: string): (size: nat)
    ensures size == |Command(script, typ, name, state)| + 1
  {
    |script| + |typ| + |state| + |name| + 8
  }

  /** What snprintf(buf, size, ...) leaves in `buf`: at most size - 1
      characters of the formatted text, then the terminator. */
  function Snprintf(size: nat, formatted: string): (written: string)
    ensures written <= formatted
    ensures size > 0 ==> |written| == if |formatted| < size then |formatted| else size - 1
  {
    if size == 0 then [] else if |formatted| < size then formatted else formatted[..size - 1]
  }

  /** The allocated size holds the whole command and its terminator and not
      one byte more: snprintf never truncates, and one byte less would. */
  lemma BufferSizeExact(script: string, typ: string, name: string, state: string)
    ensures |Command(script, typ, name, state)| + 1 == BufferSize(script, typ, name, state)
    ensures Snprintf(BufferSize(script, typ, name, state), Command(script, typ, name, state))
            == Command(script, typ, name, state)
    ensures Snprintf(BufferSize(script, typ, name, state) - 1, Command(script, typ, name, state))
            != Command(script, typ, name, state)
  {
  }

  /** The command line of the MASTER transition of instance VI_1 whose
      generic script is /tmp/s.sh. */
  lemma CommandExample()
    ensures Command("/tmp/s.sh", "INSTANCE", "VI_1", StateLabel(MAST)) == "\"/tmp/s.sh\" INSTANCE \"VI_1\" MASTER"
    ensures |Command("/tmp/s.sh", "INSTANCE", "VI_1", StateLabel(MAST))| + 1 == 8 + 9 + 8 + 4 + 6
  {
  }

  /** The four fields of a generic command line. */
  datatype Fields = Fields(script: string, typ: string, name: string, state: string)

  /** Split `s` at the first occurrence of `c`. */
  function SplitAt(s: string, c: char): (r: Option<(string, string)>)
    ensures r.None? <==> c !in s
    ensures r.Some? ==> c !in r.value.0 && s == r.value.0 + [c] + r.value.1
  {
    if s == [] then None
    else if s[0] == c then Some(([], s[1..]))
    else match SplitAt(s[1..], c)
      case None => None
      case Some((before, after)) => Some(([s[0]] + before, after))
  }

  /** Reads a quoted field at the start of `s`: the text up to the closing
      quote, and what follows that quote. */
  function ParseQuoted(s: string): (r: Option<(string, string)>)
    ensures r.Some? ==> '"' !in r.value.0 && s == ['"'] + r.value.0 + ['"'] + r.value.1
  {
    if |s| == 0 || s[0] != '"' then None else SplitAt(s[1..], '"')
  }

  /** Removes a leading space. */
  function SkipSpace(s: string): (r: Option<string>)
    ensures r.Some? ==> s == [' '] + r.value
  {
    if |s| == 0 || s[0] != ' ' then None else Some(s[1..])
  }

  /** Reads the four fields back from a command line of the form
      `"script" type "name" state`. */
  function ParseCommand(cmd: string): (r: Option<Fields>)
  {
    match ParseQuoted(cmd)
    case None => None
    case Some((script, rest)) =>
      match SkipSpace(rest)
      case None => None
      case Some(rest) =>
        match SplitAt(rest, ' ')
        case None => None
        case Some((typ, rest)) =>
          match ParseQuoted(rest)
          case None => None
          case Some((name, rest)) =>
            match SkipSpace(rest)
            case None => None
            case Some(state) => Some(Fields(script, typ, name, state))
  }

  /** Splitting a concatenation at a separator absent from its left part. */
  lemma {:induction false} SplitAtJoin(x: string, c: char, y: string)
    requires c !in x
    ensures SplitAt(x + [c] + y, c) == Some((x, y))
  {
    var s := x + [c] + y;
    if x == [] {
      assert s[0] == c && s[1..] == y;
    } else {
      assert s[0] == x[0] != c;
      assert s[1..] == x[1..] + [c] + y;
      SplitAtJoin(x[1..], c, y);
      assert [x[0]] + x[1..] == x;
    }
  }

  /** A quoted field is read back when it holds no quote. */
  lemma ParseQuotedJoin(x: string, y: string)
    requires '"' !in x
    ensures ParseQuoted(['"'] + x + ['"'] + y) == Some((x, y))
  {
    assert (['"'] + x + ['"'] + y)[1..] == x + ['"'] + y;
    SplitAtJoin(x, '"', y);
  }

  /** Each field is recovered from the command line as long as the quoted
      fields hold no quote and the type tag holds no space. */
  lemma ParseCommandRoundTrip(script: string, typ: string, name: string, state: string)
    requires '"' !in script && ' ' !in typ && '"' !in name
    ensures ParseCommand(Command(script, typ, name, state)) == Some(Fields(script, typ, name, state))
  {
    var tail := [' '] + state;
    var afterType := ['"'] + name + ['"'] + tail;
    var afterSpace := typ + [' '] + afterType;
    var afterScript := [' '] + afterSpace;
    CommandNested(script, typ, name, state);
    ParseQuotedJoin(script, afterScript);
    assert SkipSpace(afterScript) == Some(afterSpace) by {
      assert afterScript[1..] == afterSpace;
    }
    SplitAtJoin(typ, ' ', afterType);
    ParseQuotedJoin(name, tail);
    assert SkipSpace(tail) == Some(state) by {
      assert tail[1..] == state;
    }
  }

  /** Every command line that parses is the formatting of its fields, and its
      fields are free of the separators that delimit them. */
  lemma ParseCommandSound(cmd: string, f: Fields)
    requires ParseCommand(cmd) == Some(f)
    ensures cmd == Command(f.script, f.typ, f.name, f.state)
    ensures '"' !in f.script && ' ' !in f.typ && '"' !in f.name
  {
    var p1 := ParseQuoted(cmd);
    assert p1.Some?;
    var (script, r1) := p1.value;
    var p2 := SkipSpace(r1);
    assert p2.Some?;
    var r2 := p2.value;
    var p3 := SplitAt(r2, ' ');
    assert p3.Some?;
    var (typ, r3) := p3.value;
    var p4 := ParseQuoted(r3);
    assert p4.Some?;
    var (name, r4) := p4.value;
    var p5 := SkipSpace(r4);
    assert p5.Some?;
    assert f == Fields(script, typ, name, p5.value);
    CommandNested(f.script, f.typ, f.name, f.state);
  }

  /** The command line as its fields and separators, innermost last. */
  lemma CommandNested(script: string, typ: string, name: string, state: string)
    ensures Command(script, typ, name, state)
         == ['"'] + script + ['"'] + ([' '] + (typ + [' '] + (['"'] + name + ['"'] + ([' '] + state))))
  {
  }

  /** notify_script_exec: label the state, size the buffer, and when the
      allocation succeeds format the command into it and request its
      execution, which appends it to `trace`. */
  method NotifyScriptExec(script: string, typ: string, stateNum: int, name: string,
                          allocOk: bool, trace: seq<string>)
    returns (ok: bool, trace': seq<string>)
    ensures ok == allocOk
    ensures trace' == trace + (if allocOk then [Command(script, typ, name, StateLabel(stateNum))] else [])
  {
    var state := StateLabel(stateNum);
    var size := BufferSize(script, typ, name, state);
    if !allocOk {
      return false, trace;
    }
    var commandLine := Snprintf(size, Command(script, typ, name, state));
    BufferSizeExact(script, typ, name, state);
    trace' := trace + [commandLine];
    ok := true;
  }
}
