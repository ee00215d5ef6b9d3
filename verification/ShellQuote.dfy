/** Shell quoting (cmd/klew-desktop/terminal.go:321-344, 437-444), against the word rules of the shell. */
module ShellQuote {
  // Sections 2.2.1 to 2.2.3 and 2.3 of the POSIX.1-2017 Shell Command Language.

  const SINGLE := '\''
  const DOUBLE := '"'
  const BACKSLASH := '\\'

  /** A quote inside single quotes: leave them, quote it with double quotes, enter them again. */
  const QUOTED_QUOTE: string := ['\'', '"', '\'', '"', '\'']

  function Escaped(v: string): string {
    if v == "" then ""
    else (if v[0] == SINGLE then QUOTED_QUOTE else [v[0]]) + Escaped(v[1..])
  }

  function Quote(v: string): string {
    if v == "" then [SINGLE, SINGLE] else [SINGLE] + Escaped(v) + [SINGLE]
  }

  // ----- the shell's lexer -----

  datatype Token = Word(text: string) | Semicolon

  datatype Lexed = Tokens(ts: seq<Token>) | Unsupported

  datatype Mode = Between | InWord | InSingle | InDouble

  /** Characters that start an operator, an expansion, a pattern or a comment when they are not quoted. The lexer
      does not go further into those: it only tells that there is one. */
  predicate Special(c: char) {
    c == '|' || c == '&' || c == '<' || c == '>' || c == '(' || c == ')' || c == '$' || c == '`' || c == '\n' ||
    c == '*' || c == '?' || c == '[' || c == '#' || c == '~' || c == '%' || c == '!' || c == '{' || c == '}'
  }

  function Prepend(t: Token, r: Lexed): Lexed {
    if r.Tokens? then Tokens([t] + r.ts) else Unsupported
  }

  /** word is the text so far of the word in progress, if any. */
  function Lex(s: string, mode: Mode, word: string): Lexed
    decreases |s|
  {
    if s == "" then
      match mode
      case Between => Tokens([])
      case InWord => Tokens([Word(word)])
      case _ => Unsupported
    else
      var c, rest := s[0], s[1..];
      match mode
      case InSingle => if c == SINGLE then Lex(rest, InWord, word) else Lex(rest, InSingle, word + [c])
      case InDouble =>
        if c == DOUBLE then Lex(rest, InWord, word)
        else if c == '$' || c == '`' then Unsupported
        else if c == BACKSLASH && rest != "" && rest[0] in "$`\"\\" then Lex(rest[1..], InDouble, word + [rest[0]])
        else if c == BACKSLASH && rest != "" && rest[0] == '\n' then Lex(rest[1..], InDouble, word)
        else Lex(rest, InDouble, word + [c])
      case _ =>
        if c == ' ' || c == '\t' then
          if mode == InWord then Prepend(Word(word), Lex(rest, Between, "")) else Lex(rest, Between, "")
        else if c == ';' then
          if mode == InWord then Prepend(Word(word), Prepend(Semicolon, Lex(rest, Between, "")))
          else Prepend(Semicolon, Lex(rest, Between, ""))
        else if c == SINGLE then Lex(rest, InSingle, word)
        else if c == DOUBLE then Lex(rest, InDouble, word)
        else if c == BACKSLASH then
          if rest == "" then Unsupported
          else if rest[0] == '\n' then Lex(rest[1..], mode, word)
          else Lex(rest[1..], InWord, word + [rest[0]])
        else if Special(c) then Unsupported
        else Lex(rest, InWord, word + [c])
  }

  function Tokenize(s: string): Lexed {
    Lex(s, Between, "")
  }

  // ----- quoting survives lexing -----

  lemma StepSingle(c: char, rest: string, word: string)
    ensures Lex([c] + rest, InSingle, word) ==
            if c == SINGLE then Lex(rest, InWord, word) else Lex(rest, InSingle, word + [c])
  {
    assert ([c] + rest)[1..] == rest;
  }

  lemma StepOpen(rest: string, word: string, mode: Mode)
    requires mode == InWord || mode == Between
    ensures Lex([SINGLE] + rest, mode, word) == Lex(rest, InSingle, word)
    ensures Lex([DOUBLE] + rest, mode, word) == Lex(rest, InDouble, word)
  {
    assert ([SINGLE] + rest)[1..] == rest && ([DOUBLE] + rest)[1..] == rest;
  }

  lemma StepDouble(rest: string, word: string)
    ensures Lex([SINGLE] + rest, InDouble, word) == Lex(rest, InDouble, word + [SINGLE])
    ensures Lex([DOUBLE] + rest, InDouble, word) == Lex(rest, InWord, word)
  {
    assert ([SINGLE] + rest)[1..] == rest && ([DOUBLE] + rest)[1..] == rest;
  }

  /** The five characters that stand for a quote. */
  lemma QuotedQuoteIsQuote(rest: string, word: string)
    ensures Lex(QUOTED_QUOTE + rest, InSingle, word) == Lex(rest, InSingle, word + [SINGLE])
  {
    var r4 := [SINGLE] + rest;
    var r3 := [DOUBLE] + r4;
    var r2 := [SINGLE] + r3;
    var r1 := [DOUBLE] + r2;
    assert QUOTED_QUOTE + rest == [SINGLE] + r1;
    StepSingle(SINGLE, r1, word);
    StepOpen(r2, word, InWord);
    StepDouble(r3, word);
    StepDouble(r4, word + [SINGLE]);
    StepOpen(rest, word + [SINGLE], InWord);
  }

  lemma {:induction false} EscapedIsText(v: string, rest: string, word: string)
    ensures Lex(Escaped(v) + [SINGLE] + rest, InSingle, word) == Lex(rest, InWord, word + v)
    decreases |v|
  {
    if v == "" {
      assert Escaped(v) + [SINGLE] + rest == [SINGLE] + rest;
      assert word + v == word;
      StepSingle(SINGLE, rest, word);
    } else {
      var tail := Escaped(v[1..]) + [SINGLE] + rest;
      EscapedIsText(v[1..], rest, word + [v[0]]);
      assert word + [v[0]] + v[1..] == word + v;
      if v[0] == SINGLE {
        assert Escaped(v) + [SINGLE] + rest == QUOTED_QUOTE + tail;
        QuotedQuoteIsQuote(tail, word);
      } else {
        assert Escaped(v) + [SINGLE] + rest == [v[0]] + tail;
        StepSingle(v[0], tail, word);
      }
    }
  }

  /** A quoted value adds exactly its text to the word in progress. */
  lemma QuoteIsText(v: string, rest: string, mode: Mode, word: string)
    requires mode == InWord || mode == Between
    ensures Lex(Quote(v) + rest, mode, word) == Lex(rest, InWord, word + v)
  {
    assert Quote(v) + rest == [SINGLE] + (Escaped(v) + [SINGLE] + rest);
    StepOpen(Escaped(v) + [SINGLE] + rest, word, mode);
    EscapedIsText(v, rest, word);
  }

  // ----- scripts of quoted arguments -----

  /** A word of a script: plain text, a quoted value, or plain text followed by a quoted value. */
  datatype Arg = Bare(text: string) | Quoted(value: string) | Prefixed(name: string, value: string)

  predicate PlainChar(c: char) {
    !Special(c) && c != ' ' && c != '\t' && c != ';' && c != SINGLE && c != DOUBLE && c != BACKSLASH
  }

  predicate Plain(w: string) {
    w != "" && forall i :: 0 <= i < |w| ==> PlainChar(w[i])
  }

  predicate ArgOk(a: Arg) {
    match a
    case Bare(text) => Plain(text)
    case Quoted(_) => true
    case Prefixed(name, _) => Plain(name)
  }

  function Source(a: Arg): string {
    match a
    case Bare(text) => text
    case Quoted(value) => Quote(value)
    case Prefixed(name, value) => name + Quote(value)
  }

  /** The text that the command receives. */
  function Meaning(a: Arg): string {
    match a
    case Bare(text) => text
    case Quoted(value) => value
    case Prefixed(name, value) => name + value
  }

  /** A command is a non-empty list of words. */
  function CommandSource(args: seq<Arg>): string {
    if args == [] then ""
    else if |args| == 1 then Source(args[0])
    else Source(args[0]) + " " + CommandSource(args[1..])
  }

  function CommandTokens(args: seq<Arg>): seq<Token> {
    if args == [] then [] else [Word(Meaning(args[0]))] + CommandTokens(args[1..])
  }

  function ScriptSource(commands: seq<seq<Arg>>): string {
    if commands == [] then ""
    else if |commands| == 1 then CommandSource(commands[0])
    else CommandSource(commands[0]) + "; " + ScriptSource(commands[1..])
  }

  function ScriptTokens(commands: seq<seq<Arg>>): seq<Token> {
    if commands == [] then []
    else if |commands| == 1 then CommandTokens(commands[0])
    else CommandTokens(commands[0]) + [Semicolon] + ScriptTokens(commands[1..])
  }

  predicate CommandOk(args: seq<Arg>) {
    args != [] && forall i :: 0 <= i < |args| ==> ArgOk(args[i])
  }

  lemma {:induction false} PlainIsText(w: string, rest: string, mode: Mode, word: string)
    requires Plain(w) && (mode == InWord || mode == Between)
    ensures Lex(w + rest, mode, word) == Lex(rest, InWord, word + w)
    decreases |w|
  {
    var tail := w[1..];
    assert w + rest == [w[0]] + (tail + rest);
    assert ([w[0]] + (tail + rest))[1..] == tail + rest;
    assert PlainChar(w[0]);
    if tail == "" {
      assert tail + rest == rest && word + w == word + [w[0]];
    } else {
      PlainIsText(tail, rest, InWord, word + [w[0]]);
      assert word + [w[0]] + tail == word + w;
    }
  }

  /** Any word of a script lexes as the text it stands for. */
  lemma ArgIsText(a: Arg, rest: string)
    requires ArgOk(a)
    ensures Lex(Source(a) + rest, Between, "") == Lex(rest, InWord, Meaning(a))
  {
    match a {
      case Bare(text) =>
        PlainIsText(text, rest, Between, "");
        assert "" + text == text;
      case Quoted(value) =>
        QuoteIsText(value, rest, Between, "");
        assert "" + value == value;
      case Prefixed(name, value) =>
        assert name + Quote(value) + rest == name + (Quote(value) + rest);
        PlainIsText(name, Quote(value) + rest, Between, "");
        assert "" + name == name;
        QuoteIsText(value, rest, InWord, name);
    }
  }

  lemma BlankEndsWord(rest: string, word: string)
    ensures Lex(" " + rest, InWord, word) == Prepend(Word(word), Tokenize(rest))
    ensures Lex("; " + rest, InWord, word) == Prepend(Word(word), Prepend(Semicolon, Tokenize(rest)))
  {
    assert (" " + rest)[1..] == rest;
    assert ("; " + rest)[1..] == " " + rest;
  }

  function PrependAll(ts: seq<Token>, r: Lexed): Lexed {
    if r.Tokens? then Tokens(ts + r.ts) else Unsupported
  }

  /** The last command of a script. */
  lemma {:induction false} CommandLexes(args: seq<Arg>)
    requires CommandOk(args)
    ensures Tokenize(CommandSource(args)) == Tokens(CommandTokens(args))
  {
    var rest := args[1..];
    if rest == [] {
      assert Source(args[0]) + "" == Source(args[0]);
      ArgIsText(args[0], "");
    } else {
      CommandLexes(rest);
      ArgIsText(args[0], " " + CommandSource(rest));
      assert CommandSource(args) == Source(args[0]) + (" " + CommandSource(rest));
      BlankEndsWord(CommandSource(rest), Meaning(args[0]));
    }
  }

  lemma PrependAllCons(t: Token, ts: seq<Token>, r: Lexed)
    ensures Prepend(t, PrependAll(ts, r)) == PrependAll([t] + ts, r)
  {
    if r.Tokens? {
      assert [t] + (ts + r.ts) == [t] + ts + r.ts;
    }
  }

  /** A command in front of the rest of a script. */
  lemma {:induction false} CommandThen(args: seq<Arg>, script: string)
    requires CommandOk(args)
    ensures Tokenize(CommandSource(args) + "; " + script) ==
            PrependAll(CommandTokens(args), Prepend(Semicolon, Tokenize(script)))
  {
    var rest, first := args[1..], Word(Meaning(args[0]));
    var after := Prepend(Semicolon, Tokenize(script));
    if rest == [] {
      SplitTail(Source(args[0]), "; ", script);
      ArgIsText(args[0], "; " + script);
      BlankEndsWord(script, Meaning(args[0]));
      assert CommandTokens(args) == [first];
    } else {
      CommandThen(rest, script);
      var tail := CommandSource(rest) + "; " + script;
      SplitBlank(Source(args[0]), CommandSource(rest), script);
      ArgIsText(args[0], " " + tail);
      BlankEndsWord(tail, Meaning(args[0]));
      PrependAllCons(first, CommandTokens(rest), after);
    }
  }

  lemma SplitTail(a: string, b: string, c: string)
    ensures a + b + c == a + (b + c)
  {
  }

  lemma SplitBlank(a: string, b: string, script: string)
    ensures a + " " + b + "; " + script == a + (" " + (b + "; " + script))
  {
  }

  /** Whatever the quoted values contain, a script lexes as exactly its commands and their arguments. */
  lemma {:induction false} ScriptIsInert(commands: seq<seq<Arg>>)
    requires forall i :: 0 <= i < |commands| ==> CommandOk(commands[i])
    ensures Tokenize(ScriptSource(commands)) == Tokens(ScriptTokens(commands))
  {
    if |commands| == 1 {
      CommandLexes(commands[0]);
    } else if |commands| > 1 {
      ScriptIsInert(commands[1..]);
      CommandThen(commands[0], ScriptSource(commands[1..]));
      var ts := ScriptTokens(commands[1..]);
      assert CommandTokens(commands[0]) + ([Semicolon] + ts) == CommandTokens(commands[0]) + [Semicolon] + ts;
    }
  }

  // ----- lists of values -----

  function QuotedArgs(vs: seq<string>): seq<Arg> {
    seq(|vs|, i requires 0 <= i < |vs| => Quoted(vs[i]))
  }

  /** The values of a list of words. */
  function Texts(ts: seq<Token>): seq<string> {
    if ts == [] then []
    else if ts[0].Word? then [ts[0].text] + Texts(ts[1..])
    else Texts(ts[1..])
  }

  lemma {:induction false} TextsOfQuoted(vs: seq<string>)
    ensures Texts(CommandTokens(QuotedArgs(vs))) == vs
    ensures |CommandTokens(QuotedArgs(vs))| == |vs|
  {
    if vs != [] {
      TextsOfQuoted(vs[1..]);
      assert QuotedArgs(vs)[1..] == QuotedArgs(vs[1..]);
      var ts := CommandTokens(QuotedArgs(vs));
      assert ts[1..] == CommandTokens(QuotedArgs(vs[1..]));
    }
  }

  /** Any list of values, quoted and joined with spaces, lexes as exactly these values: nothing is split, joined,
      lost or expanded. */
  lemma QuotingRoundTrip(vs: seq<string>)
    ensures var r := Tokenize(CommandSource(QuotedArgs(vs))); r.Tokens? && |r.ts| == |vs| && Texts(r.ts) == vs
  {
    TextsOfQuoted(vs);
    if vs != [] {
      CommandLexes(QuotedArgs(vs));
    }
  }

  /** Different lists never look the same once quoted and joined. */
  lemma QuotingIsInjective(vs: seq<string>, ws: seq<string>)
    requires CommandSource(QuotedArgs(vs)) == CommandSource(QuotedArgs(ws))
    ensures vs == ws
  {
    QuotingRoundTrip(vs);
    QuotingRoundTrip(ws);
  }

  // ----- the terminal's start script -----

  datatype TerminalKube = TerminalKube(kubeconfigPath: string, context: string, namespace: string, notice: string)

  function ScopeLabel(tk: TerminalKube): string {
    if tk.context == "" then "no cluster context"
    else "context: " + tk.context + " \U{00B7} namespace: " + tk.namespace
  }

  /** The printf formats that the script spells out between single quotes: texts without a single quote. */
  datatype Formats = Formats(banner: string, notice: string, newline: string)

  predicate Literal(format: string) {
    format != "" && forall i :: 0 <= i < |format| ==> format[i] != SINGLE
  }

  predicate FormatsOk(f: Formats) {
    Literal(f.banner) && Literal(f.notice) && Literal(f.newline)
  }

  function ExportCommand(path: string): seq<Arg> {
    [Bare("export"), Prefixed("KUBECONFIG=", path)]
  }

  function PrintfCommand(format: string, args: seq<string>): seq<Arg> {
    [Bare("printf"), Quoted(format)] + QuotedArgs(args)
  }

  function ExecCommand(shell: string): seq<Arg> {
    [Bare("exec"), Quoted(shell), Bare("-l")]
  }

  /** The commands before the last one; base is the last element of the shell's path. */
  function Preamble(f: Formats, base: string, tk: TerminalKube): seq<seq<Arg>> {
    (if tk.kubeconfigPath != "" then [ExportCommand(tk.kubeconfigPath)] else []) +
    [PrintfCommand(f.banner, [base, ScopeLabel(tk)])] +
    (if tk.notice != "" then [PrintfCommand(f.notice, [tk.notice])] else []) +
    [PrintfCommand(f.newline, [])]
  }

  function Joined(pieces: seq<string>): string {
    if pieces == [] then "" else Joined(pieces[..|pieces| - 1]) + pieces[|pieces| - 1]
  }

  lemma JoinedOfSnoc(pieces: seq<string>, p: string)
    ensures Joined(pieces + [p]) == Joined(pieces) + p
  {
    assert (pieces + [p])[..|pieces|] == pieces;
  }

  lemma {:induction false} JoinedOfCons(p: string, pieces: seq<string>)
    ensures Joined([p] + pieces) == p + Joined(pieces)
  {
    if pieces == [] {
      assert [p] + pieces == [] + [p];
      JoinedOfSnoc([], p);
    } else {
      var init, last := pieces[..|pieces| - 1], pieces[|pieces| - 1];
      assert [p] + pieces == ([p] + init) + [last];
      JoinedOfSnoc([p] + init, last);
      JoinedOfCons(p, init);
      SplitTail(p, Joined(init), last);
    }
  }

  function Separated(c: seq<Arg>): string {
    CommandSource(c) + "; "
  }

  function Separator(): seq<Arg> -> string {
    (c: seq<Arg>) => Separated(c)
  }

  function Mapped<A, B>(f: A -> B, xs: seq<A>): seq<B> {
    seq(|xs|, i requires 0 <= i < |xs| => f(xs[i]))
  }

  lemma MappedOfCons<A, B>(f: A -> B, x: A, xs: seq<A>)
    ensures Mapped(f, [x] + xs) == [f(x)] + Mapped(f, xs)
  {
  }

  lemma MappedOfSnoc<A, B>(f: A -> B, xs: seq<A>, x: A)
    ensures Mapped(f, xs + [x]) == Mapped(f, xs) + [f(x)]
  {
  }

  function Pieces(commands: seq<seq<Arg>>): seq<string> {
    Mapped(Separator(), commands)
  }

  /** Commands, each followed by a separator. */
  function Front(commands: seq<seq<Arg>>): string {
    if commands == [] then "" else Front(commands[..|commands| - 1]) + Separated(commands[|commands| - 1])
  }

  lemma FrontOfSnoc(commands: seq<seq<Arg>>, c: seq<Arg>)
    ensures Front(commands + [c]) == Front(commands) + Separated(c)
  {
    assert (commands + [c])[..|commands|] == commands;
  }

  lemma {:induction false} FrontIsJoined(commands: seq<seq<Arg>>)
    ensures Front(commands) == Joined(Pieces(commands))
  {
    if commands != [] {
      var init, last := commands[..|commands| - 1], commands[|commands| - 1];
      FrontIsJoined(init);
      assert commands == init + [last];
      MappedOfSnoc(Separator(), init, last);
      JoinedOfSnoc(Pieces(init), Separated(last));
    }
  }

  lemma FrontOfCons(c: seq<Arg>, commands: seq<seq<Arg>>)
    ensures Front([c] + commands) == Separated(c) + Front(commands)
  {
    FrontIsJoined(commands);
    FrontIsJoined([c] + commands);
    PiecesOfCons(c, commands);
  }

  lemma PiecesOfCons(c: seq<Arg>, commands: seq<seq<Arg>>)
    ensures Joined(Pieces([c] + commands)) == Separated(c) + Joined(Pieces(commands))
  {
    MappedOfCons(Separator(), c, commands);
    JoinedOfCons(Separated(c), Pieces(commands));
  }

  lemma {:induction false} FrontAndLast(commands: seq<seq<Arg>>, last: seq<Arg>)
    ensures ScriptSource(commands + [last]) == Front(commands) + CommandSource(last)
  {
    if commands == [] {
      assert commands + [last] == [last];
    } else {
      var c, rest := commands[0], commands[1..];
      assert commands == [c] + rest && (commands + [last])[1..] == rest + [last];
      FrontAndLast(rest, last);
      FrontOfCons(c, rest);
      SplitTail(Separated(c), Front(rest), CommandSource(last));
    }
  }

  lemma FrontMore(b: string, commands: seq<seq<Arg>>, c: seq<Arg>, piece: string)
    requires b == Front(commands) && piece == CommandSource(c) + "; "
    ensures b + piece == Front(commands + [c])
  {
    FrontOfSnoc(commands, c);
  }

  lemma ExportSource(path: string)
    ensures "export KUBECONFIG=" + Quote(path) == CommandSource(ExportCommand(path))
  {
    var args := ExportCommand(path);
    assert args[1..] == [Prefixed("KUBECONFIG=", path)];
    SplitTail("export" + " ", "KUBECONFIG=", Quote(path));
    assert "export" + " " + "KUBECONFIG=" == "export KUBECONFIG=";
  }

  lemma {:induction false} EscapedWithoutQuotes(v: string)
    requires forall i :: 0 <= i < |v| ==> v[i] != SINGLE
    ensures Escaped(v) == v
  {
    if v != "" {
      EscapedWithoutQuotes(v[1..]);
    }
  }

  /** A text without single quotes, put between single quotes, is quoted. */
  lemma LiteralIsQuoted(v: string)
    requires v != "" && forall i :: 0 <= i < |v| ==> v[i] != SINGLE
    ensures "'" + v + "'" == Quote(v)
  {
    EscapedWithoutQuotes(v);
  }

  lemma {:induction false} CommandSnoc(args: seq<Arg>, a: Arg)
    requires args != []
    ensures CommandSource(args + [a]) == CommandSource(args) + " " + Source(a)
  {
    if |args| == 1 {
      assert (args + [a])[1..] == [a];
    } else {
      assert (args + [a])[1..] == args[1..] + [a];
      CommandSnoc(args[1..], a);
      ThreeWords(Source(args[0]), CommandSource(args[1..]), Source(a));
    }
  }

  lemma ThreeWords(p: string, q: string, r: string)
    ensures p + " " + q + " " + r == p + " " + (q + " " + r)
  {
  }

  lemma ExecSource(shell: string)
    ensures "exec " + Quote(shell) + " -l" == CommandSource(ExecCommand(shell))
  {
    CommandSnoc([Bare("exec")], Quoted(shell));
    CommandSnoc([Bare("exec"), Quoted(shell)], Bare("-l"));
    assert [Bare("exec")] + [Quoted(shell)] == [Bare("exec"), Quoted(shell)];
    assert [Bare("exec"), Quoted(shell)] + [Bare("-l")] == ExecCommand(shell);
    assert "exec" + " " == "exec " && " " + "-l" == " -l";
    SplitTail("exec " + Quote(shell), " ", "-l");
  }

  lemma PlainWords()
    ensures Plain("export") && Plain("KUBECONFIG=") && Plain("printf") && Plain("exec") && Plain("-l")
  {
  }

  lemma InitCommandsOk(f: Formats, shell: string, base: string, tk: TerminalKube)
    ensures forall i :: 0 <= i < |Preamble(f, base, tk) + [ExecCommand(shell)]| ==>
                          CommandOk((Preamble(f, base, tk) + [ExecCommand(shell)])[i])
  {
    PlainWords();
    PrintfOk(f.banner, [base, ScopeLabel(tk)]);
    PrintfOk(f.notice, [tk.notice]);
    PrintfOk(f.newline, []);
    assert CommandOk(ExportCommand(tk.kubeconfigPath)) && CommandOk(ExecCommand(shell));
  }

  lemma PrintfOk(format: string, args: seq<string>)
    requires Plain("printf")
    ensures CommandOk(PrintfCommand(format, args))
  {
  }

  lemma PrintfStart(format: string)
    requires Literal(format)
    ensures "printf " + ("'" + format + "'") == CommandSource(PrintfCommand(format, []))
  {
    LiteralIsQuoted(format);
    CommandSnoc([Bare("printf")], Quoted(format));
    assert PrintfCommand(format, []) == [Bare("printf")] + [Quoted(format)];
    assert "printf" + " " == "printf ";
  }

  lemma PrintfMore(format: string, args: seq<string>, i: nat)
    requires i < |args|
    ensures CommandSource(PrintfCommand(format, args[..i + 1])) ==
            CommandSource(PrintfCommand(format, args[..i])) + " " + Quote(args[i])
  {
    var head := [Bare("printf"), Quoted(format)];
    var before, after := QuotedArgs(args[..i]), QuotedArgs(args[..i + 1]);
    assert after == before + [Quoted(args[i])];
    assert head + after == (head + before) + [Quoted(args[i])];
    CommandSnoc(head + before, Quoted(args[i]));
  }

  /** One printf of the script: a literal format between single quotes, and quoted arguments. */
  method PrintfPiece(format: string, args: seq<string>) returns (piece: string)
    requires Literal(format)
    ensures piece == CommandSource(PrintfCommand(format, args)) + "; "
  {
    PrintfStart(format);
    piece := "printf " + ("'" + format + "'");
    for i := 0 to |args|
      invariant piece == CommandSource(PrintfCommand(format, args[..i]))
    {
      PrintfMore(format, args, i);
      piece := piece + " " + Quote(args[i]);
    }
    assert args[..|args|] == args;
    piece := piece + "; ";
  }

  /** Whatever the path, the context, the namespace and the notice contain, the script runs exactly its own commands,
      with these values as inert arguments. */
  method BuildUnixInitScript(f: Formats, shell: string, base: string, tk: TerminalKube) returns (script: string)
    requires FormatsOk(f)
    ensures Tokenize(script) == Tokens(ScriptTokens(Preamble(f, base, tk) + [ExecCommand(shell)]))
  {
    var b := BuildPreamble(f, base, tk);
    ExecSource(shell);
    FrontAndLast(Preamble(f, base, tk), ExecCommand(shell));
    script := b + ("exec " + Quote(shell) + " -l");
    InitCommandsOk(f, shell, base, tk);
    ScriptIsInert(Preamble(f, base, tk) + [ExecCommand(shell)]);
  }

  method BuildPreamble(f: Formats, base: string, tk: TerminalKube) returns (b: string)
    requires FormatsOk(f)
    ensures b == Front(Preamble(f, base, tk))
  {
    b := "";
    ghost var done: seq<seq<Arg>> := [];
    if tk.kubeconfigPath != "" {
      var piece := "export KUBECONFIG=" + Quote(tk.kubeconfigPath) + "; ";
      ExportSource(tk.kubeconfigPath);
      FrontMore(b, done, ExportCommand(tk.kubeconfigPath), piece);
      b, done := b + piece, done + [ExportCommand(tk.kubeconfigPath)];
    }
    var banner := PrintfPiece(f.banner, [base, ScopeLabel(tk)]);
    FrontMore(b, done, PrintfCommand(f.banner, [base, ScopeLabel(tk)]), banner);
    b, done := b + banner, done + [PrintfCommand(f.banner, [base, ScopeLabel(tk)])];
    if tk.notice != "" {
      var notice := PrintfPiece(f.notice, [tk.notice]);
      FrontMore(b, done, PrintfCommand(f.notice, [tk.notice]), notice);
      b, done := b + notice, done + [PrintfCommand(f.notice, [tk.notice])];
    }
    var newline := PrintfPiece(f.newline, []);
    FrontMore(b, done, PrintfCommand(f.newline, []), newline);
    b, done := b + newline, done + [PrintfCommand(f.newline, [])];
    assert done == Preamble(f, base, tk);
  }
}
