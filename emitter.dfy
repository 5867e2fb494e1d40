/** The line emitters of `shells/bash.go`: `executeCommand`,
    `executeCommandFormat`, `echoColored` and the `if`/`else`/`fi` writers,
    over a `Writer` that stands for the `bufio.Writer` of a generator.

    Beside the text it writes, each emitter is described by the abstract
    `Line` it emits, so that the structure of a phase (which commands, in
    which order, which words escaped) can be stated without knowing how
    `helpers.ShellEscape` is written. */
module Emitter {
  import opened Common
  import opened GoStrings

  /** One line of generated shell source.
      - Exec: a command and its arguments, every word shell-escaped.
      - Literal: shell source the generator writes as it is (control-flow
        keywords and formatted lines).
      - Verbatim: a line of the user's own command text, written unescaped. */
  datatype Line =
    | Exec(cmd: string, args: seq<string>)
    | Literal(text: string)
    | Verbatim(text: string)

  function EscapeAll(lib: Library, words: seq<string>): (r: seq<string>)
    ensures |r| == |words|
    ensures forall k :: 0 <= k < |words| ==> r[k] == lib.shellEscape(words[k])
  {
    if words == [] then [] else EscapeAll(lib, words[..|words| - 1]) + [lib.shellEscape(words[|words| - 1])]
  }

  /** The text of a line, without its newline. */
  function RenderLine(lib: Library, line: Line): string
  {
    match line
    case Exec(cmd, args) => Join(EscapeAll(lib, [cmd] + args), " ")
    case Literal(text) => text
    case Verbatim(text) => text
  }

  /** The text of a sequence of lines, each followed by a newline. */
  function RenderLines(lib: Library, lines: seq<Line>): string
  {
    if lines == [] then ""
    else RenderLines(lib, lines[..|lines| - 1]) + (RenderLine(lib, lines[|lines| - 1]) + "\n")
  }

  lemma {:induction false} RenderLinesAppend(lib: Library, a: seq<Line>, b: seq<Line>)
    ensures RenderLines(lib, a + b) == RenderLines(lib, a) + RenderLines(lib, b)
  {
    if b == [] {
      assert a + b == a;
    } else {
      var b' := b[..|b| - 1];
      assert (a + b)[..|a + b| - 1] == a + b';
      RenderLinesAppend(lib, a, b');
    }
  }

  lemma RenderOne(lib: Library, line: Line)
    ensures RenderLines(lib, [line]) == RenderLine(lib, line) + "\n"
  {
    assert [line][..0] == [];
  }

  /** The text of lines with one more line behind them. */
  lemma RenderLinesSnoc(lib: Library, lines: seq<Line>, line: Line)
    ensures RenderLines(lib, lines + [line]) == RenderLines(lib, lines) + (RenderLine(lib, line) + "\n")
  {
    assert (lines + [line])[..|lines|] == lines;
  }

  /** The coloured `echo` of `echoColored`. */
  function Echo(lib: Library, text: string): Line
  {
    Exec("echo", [lib.ansiBoldGreen + text + lib.ansiReset])
  }

  function IfDirectory(lib: Library, directory: string): Line
  {
    Literal("if [[ -d " + lib.quote(directory) + " ]]; then")
  }

  function IfFile(lib: Library, file: string): Line
  {
    Literal("if [[ -e " + lib.quote(file) + " ]]; then")
  }

  const Else: Line := Literal("else")
  const EndIf: Line := Literal("fi")

  /** The words of `executeCommand` after the command: each argument,
      escaped, behind a single space. */
  function SpacedWords(lib: Library, arguments: seq<string>): string
  {
    if arguments == [] then "" else " " + lib.shellEscape(arguments[0]) + SpacedWords(lib, arguments[1..])
  }

  lemma {:induction false} JoinEscapedAfter(lib: Library, first: string, arguments: seq<string>)
    ensures Join([first] + EscapeAll(lib, arguments), " ") == first + SpacedWords(lib, arguments)
    decreases arguments
  {
    if arguments != [] {
      var head := lib.shellEscape(arguments[0]);
      var rest := EscapeAll(lib, arguments[1..]);
      EscapeAllCons(lib, arguments);
      var all := [first] + EscapeAll(lib, arguments);
      assert all[1..] == EscapeAll(lib, arguments);
      assert Join(all, " ") == first + " " + Join([head] + rest, " ");
      JoinEscapedAfter(lib, head, arguments[1..]);
      SpacedStep(first, head, SpacedWords(lib, arguments[1..]));
    } else {
      assert [first] + EscapeAll(lib, arguments) == [first];
    }
  }

  lemma EscapeAllCons(lib: Library, arguments: seq<string>)
    requires arguments != []
    ensures EscapeAll(lib, arguments) == [lib.shellEscape(arguments[0])] + EscapeAll(lib, arguments[1..])
  {
  }

  lemma SpacedStep(first: string, head: string, more: string)
    ensures first + " " + (head + more) == first + (" " + head + more)
  {
  }

  /** A command line is the escaped command followed by each escaped
      argument, in order, each behind exactly one space. */
  lemma ExecLineShape(lib: Library, cmd: string, arguments: seq<string>)
    ensures RenderLine(lib, Exec(cmd, arguments)) == lib.shellEscape(cmd) + SpacedWords(lib, arguments)
  {
    assert EscapeAll(lib, [cmd] + arguments) == [lib.shellEscape(cmd)] + EscapeAll(lib, arguments);
    JoinEscapedAfter(lib, lib.shellEscape(cmd), arguments);
  }

  /** When no escaped word holds a newline, a command is one line of text. */
  lemma ExecLineIsOneLine(lib: Library, cmd: string, arguments: seq<string>)
    requires forall k :: 0 <= k < |[cmd] + arguments| ==> '\n' !in lib.shellEscape(([cmd] + arguments)[k])
    ensures '\n' !in RenderLine(lib, Exec(cmd, arguments))
    ensures '\n' !in RenderLines(lib, [Exec(cmd, arguments)])[..|RenderLines(lib, [Exec(cmd, arguments)])| - 1]
  {
    JoinHasNoChar(EscapeAll(lib, [cmd] + arguments), " ", '\n');
    assert RenderLines(lib, [Exec(cmd, arguments)]) == RenderLine(lib, Exec(cmd, arguments)) + "\n";
  }

  /** When no escaped word holds a space, splitting a command line at its
      spaces gives back exactly the escaped words.  This covers only words
      whose escaping adds no space; an argument with a space in it escapes
      to a quoted word that still holds that space, and is not covered. */
  lemma ExecLineWords(lib: Library, cmd: string, arguments: seq<string>)
    requires forall k :: 0 <= k < |[cmd] + arguments| ==> ' ' !in lib.shellEscape(([cmd] + arguments)[k])
    ensures Split(RenderLine(lib, Exec(cmd, arguments)), ' ') == EscapeAll(lib, [cmd] + arguments)
  {
    SplitJoin(EscapeAll(lib, [cmd] + arguments), ' ');
  }

  /** How a line moves the nesting of the generator's own `if`/`fi`
      keywords: +1 for an `if` line it writes, -1 for `fi`.  The user's
      command text is not generator control flow. */
  function Delta(line: Line): int
  {
    match line
    case Literal(t) => if |t| >= 3 && t[..3] == "if " then 1 else if t == "fi" then -1 else 0
    case _ => 0
  }

  /** Read from the top with `depth` blocks open: every `fi` closes an open
      block, every `else` stands inside an open block, and at the end no
      block is left open. */
  predicate NestsFrom(lines: seq<Line>, depth: int)
  {
    if lines == [] then depth == 0
    else
      && (lines[0] == Else ==> depth >= 1)
      && depth + Delta(lines[0]) >= 0
      && NestsFrom(lines[1..], depth + Delta(lines[0]))
  }

  /** The `if`, `else` and `fi` lines of a script are balanced. */
  predicate WellNested(lines: seq<Line>)
  {
    NestsFrom(lines, 0)
  }

  /** Lines that open, close or split no block. */
  predicate Flat(lines: seq<Line>)
  {
    forall k :: 0 <= k < |lines| ==> Delta(lines[k]) == 0 && lines[k] != Else
  }

  lemma {:induction false} FlatThen(lines: seq<Line>, rest: seq<Line>, depth: int)
    requires Flat(lines) && depth >= 0 && NestsFrom(rest, depth)
    ensures NestsFrom(lines + rest, depth)
  {
    if lines != [] {
      var all := lines + rest;
      assert all[0] == lines[0];
      assert Delta(lines[0]) == 0 && lines[0] != Else;
      assert all[1..] == lines[1..] + rest;
      assert Flat(lines[1..]) by {
        forall k | 0 <= k < |lines[1..]| ensures Delta(lines[1..][k]) == 0 && lines[1..][k] != Else {
          assert lines[1..][k] == lines[k + 1];
        }
      }
      FlatThen(lines[1..], rest, depth);
      assert NestsFrom(all[1..], depth + Delta(all[0]));
    } else {
      assert lines + rest == rest;
    }
  }

  lemma {:induction false} NestsThen(lines: seq<Line>, rest: seq<Line>, depth: int)
    requires NestsFrom(lines, depth) && NestsFrom(rest, 0)
    ensures NestsFrom(lines + rest, depth)
  {
    if lines == [] {
      assert lines + rest == rest;
    } else {
      assert (lines + rest)[1..] == lines[1..] + rest;
      NestsThen(lines[1..], rest, depth + Delta(lines[0]));
      assert lines[0] == (lines + rest)[0];
    }
  }

  /** Balanced pieces stay balanced when put one after the other. */
  lemma WellNestedAppend(a: seq<Line>, b: seq<Line>)
    requires WellNested(a) && WellNested(b)
    ensures WellNested(a + b)
  {
    NestsThen(a, b, 0);
  }

  lemma FlatIsWellNested(lines: seq<Line>)
    requires Flat(lines)
    ensures WellNested(lines)
  {
    FlatThen(lines, [], 0);
    assert lines + [] == lines;
  }

  lemma ElseOpensNothing()
    ensures Delta(Else) == 0
  {
    assert Else.text[..3] == "els";
  }

  /** `if`, flat lines, `else`, flat lines, `fi` is balanced. */
  lemma IfElseIsWellNested(open: Line, thenPart: seq<Line>, elsePart: seq<Line>)
    requires Delta(open) == 1 && Flat(thenPart) && Flat(elsePart)
    ensures WellNested([open] + thenPart + [Else] + elsePart + [EndIf])
  {
    var tail := [EndIf];
    assert NestsFrom(tail, 1) by { assert tail[1..] == []; }
    FlatThen(elsePart, tail, 1);
    var afterElse := [Else] + (elsePart + tail);
    ElseOpensNothing();
    assert afterElse[0] == Else;
    assert afterElse[1..] == elsePart + tail;
    assert NestsFrom(afterElse, 1);
    FlatThen(thenPart, afterElse, 1);
    var all := [open] + (thenPart + afterElse);
    assert all[1..] == thenPart + afterElse;
    assert open != Else by { ElseOpensNothing(); }
    assert NestsFrom(all, 0);
    assert all == [open] + thenPart + [Else] + elsePart + [EndIf];
  }

  /** `if`, flat lines, `fi` is balanced. */
  lemma IfIsWellNested(open: Line, body: seq<Line>)
    requires Delta(open) == 1 && Flat(body)
    ensures WellNested([open] + body + [EndIf])
  {
    var tail := [EndIf];
    assert NestsFrom(tail, 1) by { assert tail[1..] == []; }
    FlatThen(body, tail, 1);
    var all := [open] + (body + tail);
    assert all[1..] == body + tail;
    assert open != Else by { ElseOpensNothing(); }
    assert NestsFrom(all, 0);
    assert all == [open] + body + [EndIf];
  }

  /** The concatenation of the written chunks. */
  function Concat(chunks: seq<string>): string
  {
    if chunks == [] then "" else Concat(chunks[..|chunks| - 1]) + chunks[|chunks| - 1]
  }

  /** The chunks that writing `lines` produces: each line rendered and
      ended by a newline. */
  function Rendered(lib: Library, lines: seq<Line>): seq<string>
  {
    seq(|lines|, k requires 0 <= k < |lines| => RenderLine(lib, lines[k]) + "\n")
  }

  lemma RenderedAppend(lib: Library, a: seq<Line>, b: seq<Line>)
    ensures Rendered(lib, a + b) == Rendered(lib, a) + Rendered(lib, b)
  {
  }

  /** Writing `more` after `done` leaves the chunks of `done + more`: the
      step that chains one emitter's contract onto the next. */
  lemma Then(lib: Library, before: seq<string>, done: seq<Line>, more: seq<Line>)
    ensures before + Rendered(lib, done) + Rendered(lib, more) == before + Rendered(lib, done + more)
  {
    RenderedAppend(lib, done, more);
  }

  lemma {:induction false} ConcatAppend(a: seq<string>, b: seq<string>)
    ensures Concat(a + b) == Concat(a) + Concat(b)
  {
    if b == [] {
      assert a + b == a;
    } else {
      var b' := b[..|b| - 1];
      assert (a + b)[..|a + b| - 1] == a + b';
      ConcatAppend(a, b');
    }
  }

  /** The text of the chunks written for `lines` is `RenderLines(lines)`. */
  lemma {:induction false} ConcatRendered(lib: Library, lines: seq<Line>)
    ensures Concat(Rendered(lib, lines)) == RenderLines(lib, lines)
  {
    if lines != [] {
      var n := |lines| - 1;
      assert lines == lines[..n] + [lines[n]];
      RenderedAppend(lib, lines[..n], [lines[n]]);
      ConcatRendered(lib, lines[..n]);
      ConcatAppend(Rendered(lib, lines[..n]), Rendered(lib, [lines[n]]));
    }
  }

  /** The output stream of a generator (its `bytes.Buffer` behind a
      `bufio.Writer`): the chunks written so far, in order, whose
      concatenation is the buffer's content. */
  class Writer {
    var chunks: seq<string>

    /** `buffer.String()`. */
    function String(): string
      reads this
    {
      Concat(chunks)
    }

    constructor ()
      ensures chunks == []
    {
      chunks := [];
    }

    /** `io.WriteString(w, s)`. */
    method WriteString(s: string)
      modifies this
      ensures chunks == old(chunks) + [s]
      ensures String() == old(String()) + s
    {
      ConcatAppend(chunks, [s]);
      assert [s][..0] == [];
      chunks := chunks + [s];
    }
  }

  /** `executeCommand`: the escaped command and arguments, joined by single
      spaces, as one line. */
  method ExecuteCommand(w: Writer, lib: Library, cmd: string, arguments: seq<string>)
    modifies w
    ensures w.chunks == old(w.chunks) + Rendered(lib, [Exec(cmd, arguments)])
  {
    var list := [lib.shellEscape(cmd)];
    var i := 0;
    while i < |arguments|
      invariant 0 <= i <= |arguments|
      invariant list == EscapeAll(lib, [cmd] + arguments[..i])
    {
      assert ([cmd] + arguments[..i + 1])[..i + 1] == [cmd] + arguments[..i];
      list := list + [lib.shellEscape(arguments[i])];
      i := i + 1;
    }
    assert [cmd] + arguments[..i] == [cmd] + arguments;
    w.WriteString(Join(list, " ") + "\n");
  }

  /** `executeCommandFormat`, with the format already applied to its
      arguments: the text is written as it is. */
  method ExecuteCommandFormat(w: Writer, ghost lib: Library, formatted: string)
    modifies w
    ensures w.chunks == old(w.chunks) + Rendered(lib, [Literal(formatted)])
  {
    w.WriteString(formatted + "\n");
  }

  /** `echoColored` (and `echoColoredFormat`, whose format is applied by
      the caller): an `echo` of the text in bold green. */
  method EchoColored(w: Writer, lib: Library, text: string)
    modifies w
    ensures w.chunks == old(w.chunks) + Rendered(lib, [Echo(lib, text)])
  {
    ExecuteCommand(w, lib, "echo", [lib.ansiBoldGreen + text + lib.ansiReset]);
  }

  method WriteIfDirectory(w: Writer, lib: Library, directory: string)
    modifies w
    ensures w.chunks == old(w.chunks) + Rendered(lib, [IfDirectory(lib, directory)])
  {
    ExecuteCommandFormat(w, lib, "if [[ -d " + lib.quote(directory) + " ]]; then");
  }

  method WriteIfFile(w: Writer, lib: Library, file: string)
    modifies w
    ensures w.chunks == old(w.chunks) + Rendered(lib, [IfFile(lib, file)])
  {
    ExecuteCommandFormat(w, lib, "if [[ -e " + lib.quote(file) + " ]]; then");
  }

  method WriteElse(w: Writer, ghost lib: Library)
    modifies w
    ensures w.chunks == old(w.chunks) + Rendered(lib, [Else])
  {
    ExecuteCommandFormat(w, lib, "else");
  }

  method WriteEndIf(w: Writer, ghost lib: Library)
    modifies w
    ensures w.chunks == old(w.chunks) + Rendered(lib, [EndIf])
  {
    ExecuteCommandFormat(w, lib, "fi");
  }
}
