/** Service command lines: arguments quoted for ExecStart and parsed back. */
module Systemd {
  import opened Basics

  // ---------- Quoting ----------

  function EscapeChar(c: char): string {
    match c
    case '\\' => "\\\\"
    case '\"' => "\\\""
    case '\n' => "\\n"
    case '\r' => "\\r"
    case '\t' => "\\t"
    case '%' => "%%"
    case '$' => "$$"
    case _ => [c]
  }

  function Escape(arg: string): string {
    if arg == "" then "" else EscapeChar(arg[0]) + Escape(arg[1..])
  }

  const SPECIAL := " \t\r\n\"'\\$"

  predicate Plain(c: char) { c !in SPECIAL }

  predicate NeedsQuotes(arg: string) { arg == "" || exists c :: c in arg && !Plain(c) }

  function QuoteArg(arg: string): string {
    if NeedsQuotes(arg) then "\"" + Escape(arg) + "\"" else Escape(arg)
  }

  function Spaced(words: seq<string>): string {
    if words == [] then "" else if |words| == 1 then words[0]
    else Spaced(words[..|words| - 1]) + " " + words[|words| - 1]
  }

  function Quoted(args: seq<string>): seq<string> {
    seq(|args|, i requires 0 <= i < |args| => QuoteArg(args[i]))
  }

  method JoinArgs(args: seq<string>) returns (line: string)
    ensures line == Spaced(Quoted(args))
  {
    var quoted := [];
    var k := 0;
    while k < |args|
      invariant 0 <= k <= |args| && quoted == Quoted(args[..k])
    {
      quoted := quoted + [QuoteArg(args[k])];
      k := k + 1;
    }
    assert args[..k] == args;
    line := Spaced(quoted);
  }

  // ---------- Parsing ----------

  /** strings.ReplaceAll of a doubled character by a single one. */
  function Undouble(s: string, c: char): string {
    if |s| < 2 then s
    else if s[0] == c && s[1] == c then [c] + Undouble(s[2..], c)
    else [s[0]] + Undouble(s[1..], c)
  }

  datatype Parser = Parser(args: seq<string>, word: string, inQuote: bool, escaped: bool)

  const START := Parser([], "", false, false)

  function Flush(p: Parser): Parser {
    if p.word == "" then p else p.(args := p.args + [Undouble(Undouble(p.word, '%'), '$')], word := "")
  }

  function Unescaped(c: char): char {
    match c
    case 'n' => '\n'
    case 'r' => '\r'
    case 't' => '\t'
    case _ => c
  }

  function Next(p: Parser, c: char): Parser {
    if p.escaped then p.(word := p.word + [Unescaped(c)], escaped := false)
    else if c == '\\' then p.(escaped := true)
    else if c == '\"' then p.(inQuote := !p.inQuote)
    else if !p.inQuote && (c == ' ' || c == '\t') then Flush(p)
    else p.(word := p.word + [c])
  }

  function Run(p: Parser, s: string): Parser {
    if s == "" then p else Next(Run(p, s[..|s| - 1]), s[|s| - 1])
  }

  function Finish(p: Parser): Result<seq<string>> {
    var q := if p.escaped then p.(word := p.word + "\\") else p;
    if q.inQuote then Err("unterminated quote") else Ok(Flush(q).args)
  }

  method ParseCommandLine(line: string) returns (r: Result<seq<string>>)
    ensures r == Finish(Run(START, line))
  {
    hide Undouble;
    var args: seq<string>, word, inQuote, escaped := [], "", false, false;
    var k := 0;
    while k < |line|
      invariant 0 <= k <= |line| && Parser(args, word, inQuote, escaped) == Run(START, line[..k])
    {
      assert line[..k + 1][..k] == line[..k];
      var c := line[k];
      if escaped {
        word := word + match c case 'n' => "\n" case 'r' => "\r" case 't' => "\t" case _ => [c];
        escaped := false;
      } else if c == '\\' {
        escaped := true;
      } else if c == '\"' {
        inQuote := !inQuote;
      } else if !inQuote && (c == ' ' || c == '\t') {
        if |word| > 0 {
          args, word := args + [Undouble(Undouble(word, '%'), '$')], "";
        }
      } else {
        word := word + [c];
      }
      k := k + 1;
    }
    assert line[..k] == line;
    if escaped { word := word + "\\"; }
    if inQuote { return Err("unterminated quote"); }
    if |word| > 0 { args := args + [Undouble(Undouble(word, '%'), '$')]; }
    r := Ok(args);
  }

  // ---------- Doubling and back ----------

  function Doubled(s: string, cs: set<char>): string {
    if s == "" then "" else (if s[0] in cs then [s[0], s[0]] else [s[0]]) + Doubled(s[1..], cs)
  }

  /** Undoubling one character leaves the other doubled ones alone. */
  lemma {:induction false} UndoubleDoubled(s: string, cs: set<char>, c: char)
    requires c in cs
    ensures Undouble(Doubled(s, cs), c) == Doubled(s, cs - {c})
  {
    hide Undouble;
    if s == "" {
      assert Undouble("", c) == "" by { UndoubleNothing(c); }
    } else {
      UndoubleDoubled(s[1..], cs, c);
      var a, rest := s[0], Doubled(s[1..], cs);
      UndoubleStep(a, c, rest);
      UndoubleStep(a, c, [a] + rest);
      assert [a, a] + rest == [a] + ([a] + rest);
      assert [a] + ([a] + Undouble(rest, c)) == [a, a] + Undouble(rest, c);
    }
  }

  lemma UndoubleNothing(c: char)
    ensures Undouble("", c) == ""
  {
  }

  lemma UndoubleStep(a: char, c: char, rest: string)
    ensures a != c ==> Undouble([a] + rest, c) == [a] + Undouble(rest, c)
    ensures Undouble([c, c] + rest, c) == [c] + Undouble(rest, c)
  {
    assert ([a] + rest)[1..] == rest && ([c, c] + rest)[2..] == rest;
  }

  lemma {:induction false} NothingDoubled(s: string)
    ensures Doubled(s, {}) == s
  {
    if s != "" { NothingDoubled(s[1..]); }
  }

  lemma UndoubleBoth(s: string)
    ensures Undouble(Undouble(Doubled(s, {'%', '$'}), '%'), '$') == s
  {
    UndoubleDoubled(s, {'%', '$'}, '%');
    assert {'%', '$'} - {'%'} == {'$'} && {'$'} - {'$'} == {};
    UndoubleDoubled(s, {'$'}, '$');
    NothingDoubled(s);
  }

  // ---------- The parser reads what was quoted ----------

  lemma {:induction false} RunConcat(p: Parser, a: string, b: string)
    ensures Run(p, a + b) == Run(Run(p, a), b)
  {
    if b == "" {
      assert a + b == a;
    } else {
      assert (a + b)[..|a + b| - 1] == a + b[..|b| - 1];
      RunConcat(p, a, b[..|b| - 1]);
    }
  }

  lemma RunOne(p: Parser, c: char)
    ensures Run(p, [c]) == Next(p, c)
  {
    assert [c][..0] == "";
  }

  lemma RunTwo(p: Parser, c: char, d: char)
    ensures Run(p, [c, d]) == Next(Next(p, c), d)
  {
    assert [c, d] == [c] + [d];
    RunConcat(p, [c], [d]);
    RunOne(p, c);
    RunOne(Next(p, c), d);
  }

  function DoubledChar(c: char): string { if c == '%' || c == '$' then [c, c] else [c] }

  /** An escaped character adds itself to the word, a doubled one twice. Outside quotes this
      holds of characters that need no quotes. */
  lemma RunChar(p: Parser, c: char)
    requires !p.escaped && (p.inQuote || Plain(c))
    ensures Run(p, EscapeChar(c)) == p.(word := p.word + DoubledChar(c))
  {
    var e := EscapeChar(c);
    if |e| == 1 {
      RunOne(p, e[0]);
      assert e == [e[0]];
    } else {
      RunTwo(p, e[0], e[1]);
      assert e == [e[0], e[1]];
      assert p.word + [c] + [c] == p.word + [c, c];
    }
  }

  lemma {:induction false} RunEscaped(p: Parser, arg: string)
    requires !p.escaped && (p.inQuote || forall c :: c in arg ==> Plain(c))
    ensures Run(p, Escape(arg)) == p.(word := p.word + Doubled(arg, {'%', '$'}))
    decreases |arg|
  {
    hide Run, Next, EscapeChar, Plain, Doubled, DoubledChar;
    if arg == "" {
      RunNothing(p);
      DoubledHead(arg);
      assert p.word + "" == p.word;
    } else {
      var first, rest := arg[0], arg[1..];
      assert first in arg && forall c :: c in rest ==> c in arg;
      RunConcat(p, EscapeChar(first), Escape(rest));
      RunChar(p, first);
      DoubledHead(arg);
      RunEscaped(p.(word := p.word + DoubledChar(first)), rest);
      assert p.word + DoubledChar(first) + Doubled(rest, {'%', '$'}) ==
               p.word + (DoubledChar(first) + Doubled(rest, {'%', '$'}));
    }
  }

  lemma DoubledHead(arg: string)
    ensures Doubled(arg, {'%', '$'}) == if arg == "" then "" else DoubledChar(arg[0]) + Doubled(arg[1..], {'%', '$'})
  {
  }

  lemma RunQuoted(args: seq<string>, arg: string)
    ensures Run(Parser(args, "", false, false), QuoteArg(arg)) == Parser(args, Doubled(arg, {'%', '$'}), false, false)
  {
    hide Next, Plain, Doubled, Escape;
    var p := Parser(args, "", false, false);
    assert "" + Doubled(arg, {'%', '$'}) == Doubled(arg, {'%', '$'});
    if NeedsQuotes(arg) {
      var q := p.(inQuote := true);
      RunEscaped(q, arg);
      QuoteToggles(p);
      QuoteToggles(q.(word := Doubled(arg, {'%', '$'})));
      RunOne(p, '\"');
      RunConcat(p, "\"", Escape(arg));
      RunConcat(p, "\"" + Escape(arg), "\"");
      RunOne(q.(word := Doubled(arg, {'%', '$'})), '\"');
    } else {
      RunEscaped(p, arg);
    }
  }

  lemma QuoteToggles(p: Parser)
    requires !p.escaped
    ensures Next(p, '\"') == p.(inQuote := !p.inQuote)
  {
  }

  // ---------- The shape of a quoted argument ----------

  predicate Verbatim(c: char) { c !in "\\\"\n\r\t%$" }

  predicate LineBreak(c: char) { c == '\n' || c == '\r' }

  lemma EscapeCharGrows(c: char)
    ensures if Verbatim(c) then EscapeChar(c) == [c] else |EscapeChar(c)| == 2
    ensures forall d :: d in EscapeChar(c) ==> !LineBreak(d)
  {
  }

  lemma {:induction false} EscapeGrows(arg: string)
    ensures |Escape(arg)| >= |arg|
    ensures if forall c :: c in arg ==> Verbatim(c) then Escape(arg) == arg else |Escape(arg)| > |arg|
    ensures forall d :: d in Escape(arg) ==> !LineBreak(d)
  {
    hide EscapeChar, Verbatim, LineBreak;
    if arg != "" {
      var first, rest := arg[0], arg[1..];
      EscapeGrows(rest);
      EscapeCharGrows(first);
      assert arg == [first] + rest;
      assert forall c :: c in arg <==> c == first || c in rest;
    }
  }

  /** An argument is written as it is exactly when nothing in it is special. */
  lemma VerbatimIff(arg: string)
    ensures QuoteArg(arg) == arg <==> arg != "" && forall c :: c in arg ==> c !in " \t\r\n\"'\\$%"
  {
    hide Escape;
    EscapeGrows(arg);
  }

  /** Quotes stand around an argument exactly when it is empty or holds white space, a quote,
      a backslash or a dollar sign; a percent sign alone asks for none. */
  lemma QuotesIff(arg: string)
    ensures (QuoteArg(arg) != "" && QuoteArg(arg)[0] == '\"') <==>
            arg == "" || exists c :: c in arg && c in " \t\r\n\"'\\$"
  {
    if !NeedsQuotes(arg) {
      assert Plain(arg[0]);
    }
  }

  /** However the arguments look, the command stays on one line. */
  lemma {:induction false} CommandIsOneLine(args: seq<string>)
    ensures forall c :: c in Spaced(Quoted(args)) ==> !LineBreak(c)
  {
    hide Escape, NeedsQuotes;
    if args != [] {
      var init := args[..|args| - 1];
      assert Quoted(args)[..|args| - 1] == Quoted(init);
      EscapeGrows(args[|args| - 1]);
      CommandIsOneLine(init);
    }
  }

  function NonEmpty(args: seq<string>): seq<string> {
    if args == [] then []
    else NonEmpty(args[..|args| - 1]) + if args[|args| - 1] == "" then [] else [args[|args| - 1]]
  }

  lemma FlushQuoted(args: seq<string>, arg: string)
    ensures Flush(Parser(args, Doubled(arg, {'%', '$'}), false, false)) ==
            Parser(args + if arg == "" then [] else [arg], "", false, false)
  {
    UndoubleBoth(arg);
  }

  /** Every argument list comes back, in order, without its empty arguments. */
  lemma {:induction false} ParsedArguments(args: seq<string>)
    ensures Finish(Run(START, Spaced(Quoted(args)))) == Ok(NonEmpty(args))
  {
    LineParsed(args);
  }

  /** After the line, all but the last argument are finished. */
  lemma {:induction false} LineParsed(args: seq<string>)
    ensures args != [] ==>
              Run(START, Spaced(Quoted(args))) ==
              Parser(NonEmpty(args[..|args| - 1]), Doubled(args[|args| - 1], {'%', '$'}), false, false)
    ensures Finish(Run(START, Spaced(Quoted(args)))) == Ok(NonEmpty(args))
  {
    hide Run, Next, QuoteArg, Undouble, Doubled;
    assert Run(START, "") == START by { RunNothing(START); }
    if args == [] {
      assert Flush(START).args == [];
    } else {
      var init, last := args[..|args| - 1], args[|args| - 1];
      var words := Quoted(args);
      assert words[..|words| - 1] == Quoted(init);
      if init == [] {
        assert Spaced(words) == QuoteArg(last);
        RunQuoted([], last);
      } else {
        LineParsed(init);
        var p := Run(START, Spaced(Quoted(init)));
        RunConcat(START, Spaced(Quoted(init)), " ");
        RunOne(p, ' ');
        SpaceFlushes(p);
        FlushQuoted(NonEmpty(init[..|init| - 1]), init[|init| - 1]);
        RunConcat(START, Spaced(Quoted(init)) + " ", QuoteArg(last));
        RunQuoted(NonEmpty(init), last);
      }
      FlushQuoted(NonEmpty(init), last);
    }
  }

  lemma RunNothing(p: Parser)
    ensures Run(p, "") == p
  {
  }

  lemma SpaceFlushes(p: Parser)
    requires !p.escaped && !p.inQuote
    ensures Next(p, ' ') == Flush(p)
  {
  }

  /** The round trip is exact for the lists without empty arguments, and only for those. */
  lemma {:induction false} RoundTripIff(args: seq<string>)
    ensures Finish(Run(START, Spaced(Quoted(args)))) == Ok(args) <==> "" !in args
  {
    ParsedArguments(args);
    NonEmptyIs(args);
  }

  lemma {:induction false} NonEmptyIs(args: seq<string>)
    ensures |NonEmpty(args)| <= |args| && "" !in NonEmpty(args)
    ensures NonEmpty(args) == args <==> "" !in args
  {
    if args != [] {
      NonEmptyIs(args[..|args| - 1]);
      assert args == args[..|args| - 1] + [args[|args| - 1]];
    }
  }
}
