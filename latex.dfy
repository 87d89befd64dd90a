/** The fallback that renders a LaTeX fragment as readable Unicode text:
    four command substitutions (`\text`, `\mathrm`, `\frac`, `\sqrt`), a
    fixed table of symbol replacements, removal of the remaining braces and
    of the backslash of unknown commands, collapse of runs of spaces, and a
    final strip. */
module Latex {

  import opened Wrappers
  import opened Text

  // ------------------------------------------------------------------
  // Commands with brace arguments
  // ------------------------------------------------------------------

  /** `\s*\{([^}]*)\}` matched at `i`: optional whitespace, an opening brace,
      and everything up to the next closing brace; the argument and the index
      just past the closing brace. */
  function BraceArg(s: String, i: nat): (r: Option<(String, nat)>)
    requires i <= |s|
    ensures r.Some? ==> i < r.value.1 <= |s|
    decreases |s| - i
  {
    if i == |s| then None
    else if IsSpace(s[i]) then BraceArg(s, i + 1)
    else if s[i] != '{' then None
    else match IndexOfFrom(s, "}", i + 1)
      case None => None
      case Some(j) => Some((s[i + 1..j], j + 1))
  }

  datatype Command = TextCommand | MathrmCommand | FracCommand | SqrtCommand

  function CommandName(c: Command): String {
    match c
    case TextCommand => "\\text"
    case MathrmCommand => "\\mathrm"
    case FracCommand => "\\frac"
    case SqrtCommand => "\\sqrt"
  }

  /** The command's pattern matched at the start of `s`: its replacement and
      the length of the text it replaces. */
  function MatchCommand(s: String, c: Command): (r: Option<(String, nat)>)
    ensures r.Some? ==> 0 < r.value.1 <= |s|
  {
    var name := CommandName(c);
    if !(name <= s) then None
    else match BraceArg(s, |name|)
      case None => None
      case Some((a, k)) =>
        if c == FracCommand then
          match BraceArg(s, k)
          case None => None
          case Some((b, m)) => Some(("(" + a + ")/(" + b + ")", m))
        else if c == SqrtCommand then Some(("√(" + a + ")", k))
        else Some((a, k))
  }

  /** `re.sub` of one command over the whole string: left to right, without overlaps. */
  function Substitute(s: String, c: Command): String
    decreases |s|
  {
    if s == [] then []
    else match MatchCommand(s, c)
      case Some((out, n)) => out + Substitute(s[n..], c)
      case None => [s[0]] + Substitute(s[1..], c)
  }

  /** A string without backslashes holds no command. */
  lemma {:induction false} SubstituteNoSlash(s: String, c: Command)
    requires '\\' !in s
    ensures Substitute(s, c) == s
    decreases |s|
  {
    if s != [] {
      assert s[0] != CommandName(c)[0];
      assert !(CommandName(c) <= s);
      SubstituteNoSlash(s[1..], c);
    }
  }

  // ------------------------------------------------------------------
  // Symbol replacements
  // ------------------------------------------------------------------

  /** The `str.replace` calls of the chain, in order. */
  const SYMBOLS: seq<(String, String)> := [
    ("\\sum", "Σ"),
    ("\\pm", "±"),
    ("\\mp", "∓"),
    ("\\times", "×"),
    ("\\cdot", "·"),
    ("\\div", "÷"),
    ("\\approx", "≈"),
    ("\\neq", "≠"),
    ("\\leq", "≤"),
    ("\\geq", "≥"),
    ("\\ll", "≪"),
    ("\\gg", "≫"),
    ("\\infty", "∞"),
    ("\\Delta", "Δ"),
    ("\\delta", "δ"),
    ("\\sigma", "σ"),
    ("\\mu", "μ"),
    ("\\alpha", "α"),
    ("\\beta", "β"),
    ("\\gamma", "γ"),
    ("\\lambda", "λ"),
    ("\\pi", "π"),
    ("\\rho", "ρ"),
    ("\\%", "%"),
    ("\\#", "#"),
    ("\\&", "&"),
    ("\\$", "$"),
    ("\\left", ""),
    ("\\right", ""),
    ("\\quad", "  "),
    ("\\qquad", "    "),
    ("\\,", " "),
    ("\\;", " "),
    ("\\:", " "),
    ("\\ ", " "),
    ("^2", "²"),
    ("^3", "³"),
    ("^{2}", "²"),
    ("^{3}", "³")
  ]

  /** Every pattern of the table begins with a backslash or a caret. */
  predicate TableHeads(table: seq<(String, String)>) {
    forall k :: 0 <= k < |table| ==> table[k].0 != [] && (table[k].0[0] == '\\' || table[k].0[0] == '^')
  }

  lemma SymbolsHeads()
    ensures TableHeads(SYMBOLS)
  {
  }

  /** The replacements applied one after the other. */
  function ReplaceChain(s: String, table: seq<(String, String)>): String
    decreases |table|
  {
    if table == [] then s
    else ReplaceChain(ReplaceAll(s, table[0].0, table[0].1), table[1..])
  }

  /** A pattern whose first character is absent does not occur. */
  lemma AbsentHead(s: String, pat: String)
    requires pat != [] && pat[0] !in s
    ensures !Contains(s, pat)
  {
    ContainsIff(s, pat);
    forall i: nat
      ensures !OccursAt(s, pat, i)
    {
      if i + |pat| <= |s| {
        assert s[i..i + |pat|][0] == s[i] != pat[0];
      }
    }
  }

  /** Text without backslashes or carets goes through the table unchanged. */
  lemma {:induction false} ReplaceChainPlain(s: String, table: seq<(String, String)>)
    requires TableHeads(table)
    requires '\\' !in s && '^' !in s
    ensures ReplaceChain(s, table) == s
    decreases |table|
  {
    if table != [] {
      AbsentHead(s, table[0].0);
      ReplaceAllAbsent(s, table[0].0, table[0].1);
      assert TableHeads(table[1..]) by {
        forall k | 0 <= k < |table[1..]|
          ensures table[1..][k].0 != [] && (table[1..][k].0[0] == '\\' || table[1..][k].0[0] == '^')
        {
          assert table[1..][k] == table[k + 1];
        }
      }
      ReplaceChainPlain(s, table[1..]);
    }
  }

  // ------------------------------------------------------------------
  // Clean-up
  // ------------------------------------------------------------------

  predicate IsAsciiLetter(c: char) {
    'a' <= c <= 'z' || 'A' <= c <= 'Z'
  }

  /** `re.sub(r'\\([a-zA-Z]+)', r'\1', s)`: a backslash before a letter is dropped. */
  function DropCommandSlashes(s: String): (r: String)
    ensures forall c :: c in r ==> c in s
  {
    if s == [] then []
    else if s[0] == '\\' && |s| >= 2 && IsAsciiLetter(s[1]) then DropCommandSlashes(s[1..])
    else [s[0]] + DropCommandSlashes(s[1..])
  }

  /** Text without backslashes is left as it is. */
  lemma {:induction false} DropCommandSlashesPlain(s: String)
    requires '\\' !in s
    ensures DropCommandSlashes(s) == s
  {
    if s != [] {
      DropCommandSlashesPlain(s[1..]);
    }
  }

  /** The characters other than backslashes, in order. */
  function NonSlash(s: String): (r: String) {
    if s == [] then [] else (if s[0] == '\\' then [] else [s[0]]) + NonSlash(s[1..])
  }

  /** Only backslashes are dropped: every other character is kept, in order. */
  lemma {:induction false} DropCommandSlashesKeeps(s: String)
    ensures NonSlash(DropCommandSlashes(s)) == NonSlash(s)
  {
    if s != [] {
      DropCommandSlashesKeeps(s[1..]);
      if !(s[0] == '\\' && |s| >= 2 && IsAsciiLetter(s[1])) {
        var rest := DropCommandSlashes(s[1..]);
        assert DropCommandSlashes(s) == [s[0]] + rest;
        assert ([s[0]] + rest)[1..] == rest;
      }
    }
  }

  /** A backslash before a letter does not survive at the front. */
  lemma DropCommandSlashesFront(s: String)
    requires |s| >= 2 && s[0] == '\\' && IsAsciiLetter(s[1])
    ensures DropCommandSlashes(s) == DropCommandSlashes(s[1..])
    ensures DropCommandSlashes(s)[0] == s[1]
  {
    assert DropCommandSlashes(s[1..]) == [s[1]] + DropCommandSlashes(s[2..]);
  }

  /** No two spaces in a row. */
  predicate NoDoubleSpace(s: String) {
    forall i :: 0 <= i < |s| - 1 ==> !(s[i] == ' ' && s[i + 1] == ' ')
  }

  /** `re.sub(r'  +', ' ', s)`: every run of two or more spaces becomes one. */
  function CollapseSpaces(s: String): (r: String)
    ensures forall c :: c in r ==> c in s
  {
    if s == [] then []
    else if |s| >= 2 && s[0] == ' ' && s[1] == ' ' then CollapseSpaces(s[1..])
    else [s[0]] + CollapseSpaces(s[1..])
  }

  /** After the collapse no two spaces are adjacent, and the result starts
      with a space exactly when the input does. */
  lemma {:induction false} CollapseSpacesSpec(s: String)
    ensures var r := CollapseSpaces(s);
            NoDoubleSpace(r) && (r != [] <==> s != []) && (r != [] ==> (r[0] == ' ' <==> s[0] == ' '))
  {
    if s != [] {
      CollapseSpacesSpec(s[1..]);
      var rest := CollapseSpaces(s[1..]);
      var r := CollapseSpaces(s);
      if !(|s| >= 2 && s[0] == ' ' && s[1] == ' ') {
        assert r == [s[0]] + rest;
        forall i | 0 <= i < |r| - 1
          ensures !(r[i] == ' ' && r[i + 1] == ' ')
        {
          if i > 0 {
            assert r[i] == rest[i - 1] && r[i + 1] == rest[i];
          }
        }
      }
    }
  }

  /** Text without spaces is left as it is. */
  lemma {:induction false} CollapseSpacesPlain(s: String)
    requires ' ' !in s
    ensures CollapseSpaces(s) == s
  {
    if s != [] {
      CollapseSpacesPlain(s[1..]);
    }
  }

  /** Removing every brace. */
  function DropBraces(s: String): String {
    ReplaceAll(ReplaceAll(s, "{", ""), "}", "")
  }

  /** After the braces are dropped, none is left. */
  lemma DropBracesSpec(s: String)
    ensures '{' !in DropBraces(s) && '}' !in DropBraces(s)
  {
    var t := ReplaceAll(s, "{", "");
    ReplaceCharRemoves(s, '{', "");
    ReplaceCharRemoves(t, '}', "");
    ReplaceKeepsAbsent(t, '}', "", '{');
  }

  /** Replacing one character by text without `d` introduces no `d`. */
  lemma {:induction false} ReplaceKeepsAbsent(s: String, c: char, rep: String, d: char)
    requires d !in s && d !in rep
    ensures d !in ReplaceAll(s, [c], rep)
  {
    if |s| >= 1 {
      ReplaceKeepsAbsent(s[1..], c, rep, d);
    }
  }

  // ------------------------------------------------------------------
  // The whole chain
  // ------------------------------------------------------------------

  /** The four command substitutions, in order. */
  function Substitutions(latex: String): String {
    Substitute(Substitute(Substitute(Substitute(latex, TextCommand), MathrmCommand), FracCommand), SqrtCommand)
  }

  /** The clean-up after the symbol table. */
  function Finish(s: String): String {
    Strip(CollapseSpaces(DropCommandSlashes(DropBraces(s))))
  }

  /** `_latex_to_unicode`. */
  function LatexToUnicode(latex: String): String {
    Finish(ReplaceChain(Substitutions(latex), SYMBOLS))
  }

  /** The result holds no brace, no two spaces in a row, and no leading or trailing whitespace. */
  lemma LatexToUnicodeClean(latex: String)
    ensures var r := LatexToUnicode(latex);
            '{' !in r && '}' !in r && NoDoubleSpace(r) &&
            (r == [] || (!IsSpace(r[0]) && !IsSpace(r[|r| - 1])))
  {
    FinishClean(ReplaceChain(Substitutions(latex), SYMBOLS));
  }

  lemma FinishClean(s5: String)
    ensures var r := Finish(s5);
            '{' !in r && '}' !in r && NoDoubleSpace(r) &&
            (r == [] || (!IsSpace(r[0]) && !IsSpace(r[|r| - 1])))
  {
    var s6 := DropBraces(s5);
    var s7 := DropCommandSlashes(s6);
    var s8 := CollapseSpaces(s7);
    DropBracesSpec(s5);
    CollapseSpacesSpec(s7);
    StripKeeps(s8);
    StripSpec(s8);
  }

  /** Stripping keeps only characters of its input, and adds no double space. */
  lemma StripKeeps(s: String)
    ensures forall c :: c in Strip(s) ==> c in s
    ensures NoDoubleSpace(s) ==> NoDoubleSpace(Strip(s))
  {
    StripSpec(s);
    var r := Strip(s);
    var st := StripStart(s);
    forall c | c in r
      ensures c in s
    {
      var k :| 0 <= k < |r| && r[k] == c;
      assert s[st + k] == c;
    }
    if NoDoubleSpace(s) {
      forall i | 0 <= i < |r| - 1
        ensures !(r[i] == ' ' && r[i + 1] == ' ')
      {
        assert r[i] == s[st + i] && r[i + 1] == s[st + i + 1];
      }
    }
  }

  /** Text the chain has nothing to do with: no backslash, caret, brace or whitespace. */
  predicate Plain(s: String) {
    forall k :: 0 <= k < |s| ==> s[k] != '\\' && s[k] != '^' && s[k] != '{' && s[k] != '}' && !IsSpace(s[k])
  }

  /** Plain text goes through every step after the command substitutions unchanged. */
  lemma {:induction false} TailPlain(s: String)
    requires Plain(s)
    ensures Finish(ReplaceChain(s, SYMBOLS)) == s
  {
    SymbolsHeads();
    ReplaceChainPlain(s, SYMBOLS);
    ContainsChar(s, '{');
    ReplaceAllAbsent(s, "{", "");
    ContainsChar(s, '}');
    ReplaceAllAbsent(s, "}", "");
    DropCommandSlashesPlain(s);
    CollapseSpacesPlain(s);
    if s != [] {
      assert LStrip(s) == s;
      assert RStrip(s) == s;
    }
  }

  /** The first closing brace at or after `i` of `pre + a + "}" + post`, when `a` holds none. */
  lemma ClosingBrace(s: String, i: nat, a: String)
    requires i + |a| < |s| && s[i..i + |a|] == a && s[i + |a|] == '}' && '}' !in a
    ensures IndexOfFrom(s, "}", i) == Some(i + |a|)
  {
    assert OccursAt(s, "}", i + |a|) by {
      assert s[i + |a|..i + |a| + 1] == "}";
    }
    forall j | i <= j < i + |a|
      ensures !OccursAt(s, "}", j)
    {
      assert s[j..j + 1][0] == s[j] == a[j - i] != '}';
    }
  }

  /** A command that does not start the string, in a string whose only
      backslash is its first character, changes nothing. */
  lemma SubstituteOtherCommand(s: String, c: Command)
    requires s != [] && '\\' !in s[1..] && !(CommandName(c) <= s)
    ensures Substitute(s, c) == s
  {
    SubstituteNoSlash(s[1..], c);
    assert Substitute(s, c) == [s[0]] + Substitute(s[1..], c);
  }

  /** A brace argument `{a}` at `i`, with no closing brace inside `a`. */
  lemma BraceArgAt(s: String, i: nat, a: String)
    requires i + |a| + 1 < |s| && s[i] == '{' && s[i + 1..i + 1 + |a|] == a && s[i + 1 + |a|] == '}' && '}' !in a
    ensures BraceArg(s, i) == Some((a, (i + 2 + |a|) as nat))
  {
    ClosingBrace(s, i + 1, a);
  }

  /** The whole of `\frac{a}{b}` is one match of the fraction pattern. */
  lemma FracMatch(a: String, b: String)
    requires '}' !in a && '}' !in b
    ensures var s := "\\frac" + ("{" + a + "}") + ("{" + b + "}");
            MatchCommand(s, FracCommand) == Some(("(" + a + ")/(" + b + ")", |s| as nat))
  {
    var head := "\\frac";
    var x := "{" + a + "}";
    var y := "{" + b + "}";
    var s := head + x + y;
    var k := 7 + |a|;
    assert head <= s;
    assert BraceArg(s, 5) == Some((a, k as nat)) by {
      assert s[5..] == x + y;
      ArgPrefix(s, 5, a, y);
      BraceArgAt(s, 5, a);
    }
    assert BraceArg(s, k) == Some((b, |s| as nat)) by {
      assert s[k..] == y;
      ArgPrefix(s, k, b, []);
      BraceArgAt(s, k, b);
    }
    FracArgs(s, a, k, b, |s|);
  }

  /** `\frac` followed by two brace arguments. */
  lemma FracArgs(s: String, a: String, k: nat, b: String, m: nat)
    requires "\\frac" <= s && BraceArg(s, 5) == Some((a, k)) && BraceArg(s, k) == Some((b, m))
    ensures MatchCommand(s, FracCommand) == Some(("(" + a + ")/(" + b + ")", m))
  {
  }


  /** `{a}` followed by `rest` at `i` gives the positions `BraceArgAt` needs. */
  lemma ArgPrefix(s: String, i: nat, a: String, rest: String)
    requires i <= |s| && s[i..] == "{" + a + "}" + rest
    ensures i + |a| + 1 < |s| && s[i] == '{' && s[i + 1..i + 1 + |a|] == a && s[i + 1 + |a|] == '}'
  {
    var t := s[i..];
    assert t[0] == '{';
    assert t[1..1 + |a|] == a;
    assert t[1 + |a|] == '}';
  }

  lemma PlainConcat(x: String, y: String)
    requires Plain(x) && Plain(y)
    ensures Plain(x + y)
  {
    forall k | 0 <= k < |x + y|
      ensures (x + y)[k] == (if k < |x| then x[k] else y[k - |x|])
    {
    }
  }

  /** The fraction is the only command `\frac{a}{b}` holds. */
  lemma FracSubstitutions(a: String, b: String)
    requires Plain(a) && Plain(b)
    ensures Substitutions("\\frac" + ("{" + a + "}") + ("{" + b + "}")) == "(" + a + ")/(" + b + ")"
  {
    var s := "\\frac" + ("{" + a + "}") + ("{" + b + "}");
    var out := "(" + a + ")/(" + b + ")";
    assert s[1..] == "frac" + ("{" + a + "}") + ("{" + b + "}");
    assert s[1] == 'f';
    SubstituteOtherCommand(s, TextCommand);
    SubstituteOtherCommand(s, MathrmCommand);
    FracMatch(a, b);
    assert Substitute(s, FracCommand) == out + Substitute(s[|s|..], FracCommand);
    assert s[|s|..] == [];
    assert out + [] == out;
    var s3 := Substitute(s, FracCommand);
    assert s3 == out;
    FracPlain(a, b);
    SubstituteNoSlash(out, SqrtCommand);
    assert Substitutions(s) == Substitute(s3, SqrtCommand);
  }

  lemma FracPlain(a: String, b: String)
    requires Plain(a) && Plain(b)
    ensures Plain("(" + a + ")/(" + b + ")")
  {
    PlainConcat("(", a);
    PlainConcat("(" + a, ")/(");
    PlainConcat("(" + a + ")/(", b);
    PlainConcat("(" + a + ")/(" + b, ")");
  }

  /** `\frac{a}{b}` becomes `(a)/(b)`. */
  lemma FracExample(a: String, b: String)
    requires Plain(a) && Plain(b)
    ensures LatexToUnicode("\\frac" + ("{" + a + "}") + ("{" + b + "}")) == "(" + a + ")/(" + b + ")"
  {
    FracSubstitutions(a, b);
    FracPlain(a, b);
    TailPlain("(" + a + ")/(" + b + ")");
  }

  /** The whole of `\sqrt{x}` is one match of the root pattern. */
  lemma SqrtMatch(x: String)
    requires '}' !in x
    ensures var s := "\\sqrt" + ("{" + x + "}");
            MatchCommand(s, SqrtCommand) == Some(("√(" + x + ")", |s| as nat))
  {
    var s := "\\sqrt" + ("{" + x + "}");
    assert "\\sqrt" <= s;
    assert s[5..] == "{" + x + "}" + [];
    ArgPrefix(s, 5, x, []);
    BraceArgAt(s, 5, x);
  }

  /** The root is the only command `\sqrt{x}` holds. */
  lemma SqrtSubstitutions(x: String)
    requires Plain(x)
    ensures Substitutions("\\sqrt" + ("{" + x + "}")) == "√(" + x + ")"
  {
    var s := "\\sqrt" + ("{" + x + "}");
    var out := "√(" + x + ")";
    assert s[1..] == "sqrt" + ("{" + x + "}");
    assert s[1] == 's';
    SubstituteOtherCommand(s, TextCommand);
    SubstituteOtherCommand(s, MathrmCommand);
    SubstituteOtherCommand(s, FracCommand);
    SqrtMatch(x);
    assert Substitute(s, SqrtCommand) == out + Substitute(s[|s|..], SqrtCommand);
    assert s[|s|..] == [];
  }

  /** `\sqrt{x}` becomes `√(x)`. */
  lemma SqrtExample(x: String)
    requires Plain(x)
    ensures LatexToUnicode("\\sqrt" + ("{" + x + "}")) == "√(" + x + ")"
  {
    SqrtSubstitutions(x);
    PlainConcat("√(", x);
    PlainConcat("√(" + x, ")");
    TailPlain("√(" + x + ")");
  }
}
