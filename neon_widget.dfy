/// The engine-to-page half of the NEON web bridge in UNEONWidget: the JavaScript each
/// InvokeWeb* call runs in the page, the escaping of string arguments, the resolution of
/// the page URL, the CEF input-event translation and the frame counter.
///
/// The page's reading of a script is given by ParseInvocation, a reader for exactly the
/// call shapes the widget emits; the lemmas show that it recovers the argument of every
/// script, and the method name whenever that name is plain (the widget does not escape it).
module NeonWidget {
  import opened Wrappers
  import Text

  // ---------------------------------------------------------------- escaping

  /// FString::Replace with a one-character search text: every occurrence of c becomes rep.
  function ReplaceChar(s: string, c: char, rep: string): (r: string)
    ensures c !in s ==> r == s
  {
    if s == [] then []
    else (if s[0] == c then rep else [s[0]]) + ReplaceChar(s[1..], c, rep)
  }

  /// Every character of the result comes from the text, other than `c`, or from `rep`.
  lemma {:induction false} ReplaceCharChars(s: string, c: char, rep: string)
    ensures forall x :: x in ReplaceChar(s, c, rep) ==> (x in s && x != c) || x in rep
  {
    if s != [] {
      ReplaceCharChars(s[1..], c, rep);
      var head := if s[0] == c then rep else [s[0]];
      forall x | x in ReplaceChar(s, c, rep) ensures (x in s && x != c) || x in rep {
        if x in head {
          assert s[0] in s;
        } else {
          assert x in ReplaceChar(s[1..], c, rep);
          assert x in s[1..] ==> x in s;
        }
      }
    }
  }

  /// Replacing commutes with concatenation: the replacement never looks across a seam.
  lemma {:induction false} ReplaceCharAppend(a: string, b: string, c: char, rep: string)
    ensures ReplaceChar(a + b, c, rep) == ReplaceChar(a, c, rep) + ReplaceChar(b, c, rep)
  {
    if a == [] {
      assert a + b == b;
    } else {
      var t := a + b;
      var h := if a[0] == c then rep else [a[0]];
      assert t[0] == a[0] && t[1..] == a[1..] + b;
      calc {
        ReplaceChar(t, c, rep);
        h + ReplaceChar(a[1..] + b, c, rep);
        { ReplaceCharAppend(a[1..], b, c, rep); }
        h + (ReplaceChar(a[1..], c, rep) + ReplaceChar(b, c, rep));
        (h + ReplaceChar(a[1..], c, rep)) + ReplaceChar(b, c, rep);
        ReplaceChar(a, c, rep) + ReplaceChar(b, c, rep);
      }
    }
  }

  /// The escaping of InvokeWeb and InvokeWebString, as the chain of replacements it is:
  /// backslashes first, then quotes, line feeds, carriage returns and tabs.
  function Escape(s: string): (r: string)
    ensures '\n' !in r && '\r' !in r && '\t' !in r
  {
    var s2 := ReplaceChar(ReplaceChar(s, '\\', "\\\\"), '"', "\\\"");
    var s3 := ReplaceChar(s2, '\n', "\\n");
    var s4 := ReplaceChar(s3, '\r', "\\r");
    ReplaceCharChars(s2, '\n', "\\n");
    ReplaceCharChars(s3, '\r', "\\r");
    ReplaceCharChars(s4, '\t', "\\t");
    ReplaceChar(s4, '\t', "\\t")
  }

  /// The escape of one character.
  function EscapeChar(c: char): string
  {
    if c == '\\' then "\\\\"
    else if c == '"' then "\\\""
    else if c == '\n' then "\\n"
    else if c == '\r' then "\\r"
    else if c == '\t' then "\\t"
    else [c]
  }

  /// Escaping in one pass, character by character.
  function EscapeEach(s: string): string
  {
    if s == [] then [] else EscapeChar(s[0]) + EscapeEach(s[1..])
  }

  lemma ReplaceCharOfOne(x: char, c: char, rep: string)
    ensures ReplaceChar([x], c, rep) == if x == c then rep else [x]
  {
    assert [x][1..] == [];
  }

  lemma EscapeOfOne(x: char)
    ensures Escape([x]) == EscapeChar(x)
  {
    ReplaceCharOfOne(x, '\\', "\\\\");
    if x != '\\' {
      ReplaceCharOfOne(x, '"', "\\\"");
      if x != '"' {
        ReplaceCharOfOne(x, '\n', "\\n");
        if x != '\n' {
          ReplaceCharOfOne(x, '\r', "\\r");
          if x != '\r' {
            ReplaceCharOfOne(x, '\t', "\\t");
          }
        }
      }
    }
  }

  lemma {:induction false} EscapeAppend(a: string, b: string)
    ensures Escape(a + b) == Escape(a) + Escape(b)
  {
    var s1a, s1b := ReplaceChar(a, '\\', "\\\\"), ReplaceChar(b, '\\', "\\\\");
    ReplaceCharAppend(a, b, '\\', "\\\\");
    var s2a, s2b := ReplaceChar(s1a, '"', "\\\""), ReplaceChar(s1b, '"', "\\\"");
    ReplaceCharAppend(s1a, s1b, '"', "\\\"");
    var s3a, s3b := ReplaceChar(s2a, '\n', "\\n"), ReplaceChar(s2b, '\n', "\\n");
    ReplaceCharAppend(s2a, s2b, '\n', "\\n");
    var s4a, s4b := ReplaceChar(s3a, '\r', "\\r"), ReplaceChar(s3b, '\r', "\\r");
    ReplaceCharAppend(s3a, s3b, '\r', "\\r");
    ReplaceCharAppend(s4a, s4b, '\t', "\\t");
  }

  /// The chain of replacements never rewrites what an earlier replacement produced, so it
  /// equals the one-pass escape.
  lemma {:induction false} EscapeIsOnePass(s: string)
    ensures Escape(s) == EscapeEach(s)
  {
    if s != [] {
      assert s == [s[0]] + s[1..];
      EscapeAppend([s[0]], s[1..]);
      EscapeOfOne(s[0]);
      EscapeIsOnePass(s[1..]);
    }
  }

  lemma {:induction false} EscapeEachAppend(a: string, b: string)
    ensures EscapeEach(a + b) == EscapeEach(a) + EscapeEach(b)
  {
    if a == [] {
      assert a + b == b;
    } else {
      assert (a + b)[0] == a[0] && (a + b)[1..] == a[1..] + b;
      EscapeEachAppend(a[1..], b);
      assert a + b != [];
      calc {
        EscapeEach(a + b);
        EscapeChar(a[0]) + EscapeEach(a[1..] + b);
        EscapeChar(a[0]) + (EscapeEach(a[1..]) + EscapeEach(b));
        (EscapeChar(a[0]) + EscapeEach(a[1..])) + EscapeEach(b);
      }
    }
  }

  /// The number of backslashes immediately before position i.
  function BackslashRun(t: string, i: nat): nat
    requires i <= |t|
  {
    if i == 0 || t[i - 1] != '\\' then 0 else 1 + BackslashRun(t, i - 1)
  }

  /// Every double quote is escaped: an odd run of backslashes stands right before it.
  predicate QuotesEscaped(t: string)
  {
    forall i :: 0 <= i < |t| && t[i] == '"' ==> BackslashRun(t, i) % 2 == 1
  }

  lemma {:induction false} BackslashRunPrefix(a: string, b: string, i: nat)
    requires i <= |a|
    ensures BackslashRun(a + b, i) == BackslashRun(a, i)
  {
    if i > 0 {
      assert (a + b)[i - 1] == a[i - 1];
      BackslashRunPrefix(a, b, i - 1);
    }
  }

  /// Appending the escape of one character to a text whose quotes are escaped and which
  /// ends in an even run of backslashes keeps both facts.
  lemma EscapedQuotesExtend(a: string, x: char)
    requires QuotesEscaped(a) && BackslashRun(a, |a|) % 2 == 0
    ensures QuotesEscaped(a + EscapeChar(x))
    ensures BackslashRun(a + EscapeChar(x), |a + EscapeChar(x)|) % 2 == 0
  {
    var tok := EscapeChar(x);
    var t := a + tok;
    forall i | 0 <= i < |t| && t[i] == '"' ensures BackslashRun(t, i) % 2 == 1 {
      if i < |a| {
        BackslashRunPrefix(a, tok, i);
        assert t[i] == a[i];
      } else {
        BackslashRunPrefix(a, tok, |a|);
        assert x == '"' && i == |a| + 1;
        assert t[|a|] == '\\';
      }
    }
    BackslashRunPrefix(a, tok, |a|);
    if x == '\\' {
      assert t[|a|] == '\\' && t[|a| + 1] == '\\';
      assert BackslashRun(t, |t|) == 2 + BackslashRun(a, |a|);
    } else {
      assert t[|t| - 1] != '\\';
    }
  }

  /// An escaped text ends in an even run of backslashes, so it never escapes what follows.
  /// Every quote in it is escaped.
  lemma {:induction false} EscapedQuotes(s: string)
    ensures QuotesEscaped(EscapeEach(s))
    ensures BackslashRun(EscapeEach(s), |EscapeEach(s)|) % 2 == 0
    decreases |s|
  {
    if s != [] {
      var init, x := s[..|s| - 1], s[|s| - 1];
      assert s == init + [x];
      EscapedQuotes(init);
      EscapeEachAppend(init, [x]);
      assert EscapeEach([x]) == EscapeChar(x) by { assert [x][1..] == []; }
      EscapedQuotesExtend(EscapeEach(init), x);
    }
  }

  /// The escaped text of the widget has every quote escaped.
  lemma EscapeQuotesEscaped(s: string)
    ensures QuotesEscaped(Escape(s))
  {
    EscapeIsOnePass(s);
    EscapedQuotes(s);
  }

  // ---------------------------------------------------------------- reading it back

  /// The character a single-character escape stands for in a JavaScript string literal:
  /// \' \" \\ \b \f \n \r \t \v.
  function Unescaped(c: char): Option<char>
  {
    if c == '\\' then Some('\\')
    else if c == '"' then Some('"')
    else if c == '\'' then Some('\'')
    else if c == 'b' then Some('\U{0008}')
    else if c == 'f' then Some('\U{000C}')
    else if c == 'n' then Some('\n')
    else if c == 'r' then Some('\r')
    else if c == 't' then Some('\t')
    else if c == 'v' then Some('\U{000B}')
    else None
  }

  /// A line terminator of JavaScript source text.
  predicate LineTerminator(c: char)
  {
    c == '\n' || c == '\r' || c == '\U{2028}' || c == '\U{2029}'
  }

  /// The value of a hexadecimal digit.
  function HexValue(c: char): (r: Option<nat>)
    ensures r.Some? <==> ('0' <= c <= '9' || 'a' <= c <= 'f' || 'A' <= c <= 'F')
    ensures r.Some? ==> r.value < 16
  {
    if '0' <= c <= '9' then Some(c as nat - '0' as nat)
    else if 'a' <= c <= 'f' then Some(c as nat - 'a' as nat + 10)
    else if 'A' <= c <= 'F' then Some(c as nat - 'A' as nat + 10)
    else None
  }

  /// The escape sequence after a backslash in a JavaScript string literal: the text it
  /// stands for and how many characters it takes, or None for a syntax error. A line
  /// continuation stands for nothing, \0 not followed by a digit for NUL, \xHH and \uHHHH
  /// for the character with that code, and any other character for itself.
  function ReadEscape(t: string): (r: Option<(string, nat)>)
    ensures r.Some? ==> 1 <= r.value.1 <= |t| && |r.value.0| <= 1
  {
    if t == [] then None
    else if Unescaped(t[0]).Some? then Some(([Unescaped(t[0]).value], 1))
    else if t[0] == '\r' && |t| >= 2 && t[1] == '\n' then Some(([], 2))
    else if LineTerminator(t[0]) then Some(([], 1))
    else if t[0] == '0' && (|t| == 1 || !Text.IsDigit(t[1])) then Some((['\0'], 1))
    else if Text.IsDigit(t[0]) then None
    else if t[0] == 'x' then
      if |t| >= 3 && HexValue(t[1]).Some? && HexValue(t[2]).Some? then
        Some(([(16 * HexValue(t[1]).value + HexValue(t[2]).value) as char], 3))
      else None
    else if t[0] == 'u' then
      if |t| >= 5 && HexValue(t[1]).Some? && HexValue(t[2]).Some? && HexValue(t[3]).Some? && HexValue(t[4]).Some? then
        var v := 4096 * HexValue(t[1]).value + 256 * HexValue(t[2]).value + 16 * HexValue(t[3]).value + HexValue(t[4]).value;
        if 0xD800 <= v < 0xE000 then None else Some(([v as char], 5))
      else None
    else Some(([t[0]], 1))
  }

  /// Reads the body of a double-quoted JavaScript string literal up to its closing quote:
  /// the decoded text and what follows the quote. A raw line break ends the literal with a
  /// syntax error.
  function ReadStringLiteral(t: string): (r: Option<(string, string)>)
    ensures r.Some? ==> |r.value.1| < |t|
  {
    if t == [] || t[0] == '\n' || t[0] == '\r' then None
    else if t[0] == '"' then Some(([], t[1..]))
    else if t[0] == '\\' then
      match ReadEscape(t[1..])
      case None => None
      case Some((d, k)) =>
        match ReadStringLiteral(t[1 + k..])
        case None => None
        case Some(p) => Some((d + p.0, p.1))
    else match ReadStringLiteral(t[1..])
      case None => None
      case Some(p) => Some(([t[0]] + p.0, p.1))
  }

  /// Decoding the escapes gives back the original text, and the literal ends exactly at
  /// the quote the widget closes it with.
  lemma {:induction false} EscapeRoundTrip(s: string, rest: string)
    ensures ReadStringLiteral(Escape(s) + "\"" + rest) == Some((s, rest))
  {
    EscapeIsOnePass(s);
    EscapeEachRoundTrip(s, rest);
  }

  /// Reading one escaped character decodes it and goes on after it.
  lemma ReadEscapedChar(x: char, tail: string)
    ensures ReadStringLiteral(EscapeChar(x) + tail) ==
      match ReadStringLiteral(tail)
      case None => None
      case Some(p) => Some(([x] + p.0, p.1))
  {
    var t := EscapeChar(x) + tail;
    if |EscapeChar(x)| == 2 {
      assert t[0] == '\\' && t[1..][0] == t[1] && Unescaped(t[1]) == Some(x);
      assert ReadEscape(t[1..]) == Some(([x], 1));
      assert t[1 + 1..] == tail;
    } else {
      assert t[0] == x;
      assert t[1..] == tail;
    }
  }

  lemma {:induction false} EscapeEachRoundTrip(s: string, rest: string)
    ensures ReadStringLiteral(EscapeEach(s) + "\"" + rest) == Some((s, rest))
  {
    var t := EscapeEach(s) + "\"" + rest;
    if s == [] {
      assert t == "\"" + rest;
      assert t[1..] == rest;
    } else {
      var tail := EscapeEach(s[1..]) + "\"" + rest;
      assert t == EscapeChar(s[0]) + tail;
      assert ReadStringLiteral(EscapeChar(s[0]) + tail) == Some((s, rest)) by {
        EscapeEachRoundTrip(s[1..], rest);
        ReadEscapedChar(s[0], tail);
        assert s == [s[0]] + s[1..];
      }
    }
  }

  // ---------------------------------------------------------------- scripts

  newtype int32 = x: int | -0x8000_0000 <= x < 0x8000_0000

  const InvokePrefix: string := "NEON_Bridge_Web_Invoke(\""

  /// The call with the method name inserted as it is, between quotes, followed by `rest`.
  function CallScript(name: string, rest: string): string
  {
    InvokePrefix + name + "\"" + rest
  }

  /// InvokeWebNoParam: the method name alone.
  function NoParamScript(name: string): string
  {
    CallScript(name, ");")
  }

  /// The escaped text between quotes, closing the call.
  function QuotedArgument(value: string): string
  {
    "\"" + Escape(value) + "\");"
  }

  /// InvokeWeb and InvokeWebString: the escaped text as a string argument. InvokeWeb passes
  /// the serialised JSON object.
  function StringScript(name: string, value: string): string
  {
    CallScript(name, ", " + QuotedArgument(value))
  }

  /// InvokeWebBoolean: a bare true or false.
  function BooleanScript(name: string, value: bool): string
  {
    CallScript(name, ", " + (if value then "true);" else "false);"))
  }

  /// InvokeWebInteger: the value printed with %d.
  function IntegerScript(name: string, value: int32): string
  {
    CallScript(name, ", " + (Text.IntToString(value as int) + ");"))
  }

  /// What the page receives as the second argument of NEON_Bridge_Web_Invoke.
  datatype WebArgument = NoArgument | StringArgument(s: string) | BooleanArgument(b: bool) | IntegerArgument(n: int)

  /// A method name JavaScript reads back unchanged between quotes: it holds no quote, no
  /// backslash and no raw line break.
  predicate PlainName(m: string)
  {
    '"' !in m && '\\' !in m && '\n' !in m && '\r' !in m
  }

  /// A plain name followed by a quote is a whole string literal whose value is the name.
  lemma {:induction false} ReadPlainLiteral(m: string, rest: string)
    requires PlainName(m)
    ensures ReadStringLiteral(m + "\"" + rest) == Some((m, rest))
  {
    var t := m + "\"" + rest;
    if m == [] {
      assert t[0] == '"' && t[1..] == rest;
    } else {
      assert m[0] in m;
      assert t[0] == m[0] && t[1..] == m[1..] + "\"" + rest;
      assert PlainName(m[1..]) by {
        forall x | x in m[1..] ensures x in m { }
      }
      ReadPlainLiteral(m[1..], rest);
      assert m == [m[0]] + m[1..];
    }
  }

  /// A string argument: the literal after the opening quote, then the end of the call.
  function ParseQuoted(t: string): Option<WebArgument>
  {
    match ReadStringLiteral(t)
    case Some((v, tail)) => if tail == ");" then Some(StringArgument(v)) else None
    case None => None
  }

  /// The text after ", " up to the end of the call.
  function ParseArgument(a: string): Option<WebArgument>
  {
    if |a| >= 1 && a[0] == '"' then ParseQuoted(a[1..])
    else if a == "true);" then Some(BooleanArgument(true))
    else if a == "false);" then Some(BooleanArgument(false))
    else if |a| >= 2 && a[|a| - 2..] == ");" then
      match Text.ParseInt(a[..|a| - 2])
      case Some(n) => Some(IntegerArgument(n))
      case None => None
    else None
  }

  /// How the page reads a script of the widget: the method name and the argument.
  function ParseInvocation(script: string): Option<(string, WebArgument)>
  {
    if |script| < |InvokePrefix| || script[..|InvokePrefix|] != InvokePrefix then None
    else match ReadStringLiteral(script[|InvokePrefix|..])
      case None => None
      case Some((m, after)) =>
        if after == ");" then Some((m, NoArgument))
        else if |after| >= 2 && after[..2] == ", " then
          match ParseArgument(after[2..])
          case None => None
          case Some(arg) => Some((m, arg))
        else None
  }

  /// The page reads the method name as a string literal, but the widget inserts it
  /// unescaped: it comes back whole when it is a plain name (see TrailingBackslashBreaksScript
  /// and UnescapedNameMisread for the others).
  lemma ParseScriptPrefix(m: string, after: string)
    requires PlainName(m)
    ensures ParseInvocation(CallScript(m, after)) ==
      if after == ");" then Some((m, NoArgument))
      else if |after| >= 2 && after[..2] == ", " then
        match ParseArgument(after[2..])
        case None => None
        case Some(arg) => Some((m, arg))
      else None
  {
    var script := CallScript(m, after);
    assert script[..|InvokePrefix|] == InvokePrefix;
    assert script[|InvokePrefix|..] == m + "\"" + after;
    ReadPlainLiteral(m, after);
  }

  lemma ParseScriptWithArgument(m: string, a: string)
    requires PlainName(m)
    ensures ParseInvocation(CallScript(m, ", " + a)) ==
      match ParseArgument(a)
      case None => None
      case Some(arg) => Some((m, arg))
  {
    ParseScriptPrefix(m, ", " + a);
    assert (", " + a)[..2] == ", " && (", " + a)[2..] == a;
    assert (", " + a) != ");" by { assert (", " + a)[0] == ','; }
  }

  lemma NoParamScriptReadsBack(m: string)
    requires PlainName(m)
    ensures ParseInvocation(NoParamScript(m)) == Some((m, NoArgument))
  {
    ParseScriptPrefix(m, ");");
  }

  /// A name ending in a backslash swallows the closing quote: NEON_Bridge_Web_Invoke("a\");
  /// is a syntax error and reaches no callback.
  lemma TrailingBackslashBreaksScript()
    ensures ParseInvocation(NoParamScript("a\\")) == None
  {
    var t := "a\\\");";
    assert NoParamScript("a\\")[|InvokePrefix|..] == t;
    assert t[0] == 'a' && t[1] == '\\' && t[2] == '"';
    assert ReadStringLiteral(t[3..]) == None by {
      assert t[3..] == ");" && t[4..] == ";";
    }
    assert ReadStringLiteral(t[1..]) == None by {
      assert t[1..][1..] == "\");" && ReadEscape(t[1..][1..]) == Some(("\"", 1));
      assert t[1..][1 + 1..] == t[3..];
    }
  }

  /// Other escapes in a name are decoded: the widget's method "x\n" (backslash, n) reaches
  /// the callback named "x" followed by a line feed.
  lemma UnescapedNameMisread()
    ensures ParseInvocation(NoParamScript("x\\n")) == Some(("x\n", NoArgument))
  {
    var u := "x\\n\");";
    assert NoParamScript("x\\n")[|InvokePrefix|..] == u;
    assert u[0] == 'x' && u[1] == '\\' && u[2] == 'n';
    assert ReadStringLiteral(u[3..]) == Some(([], ");")) by { assert u[3..] == "\");"; }
    assert ReadStringLiteral(u[1..]) == Some(("\n", ");")) by {
      var v := u[1..];
      assert v[0] == '\\' && v[1..][0] == 'n' && Unescaped('n') == Some('\n');
      assert ReadEscape(v[1..]) == Some(("\n", 1));
      assert v[1 + 1..] == u[3..];
      assert "\n" + [] == "\n";
    }
    assert ReadStringLiteral(u) == Some(("x\n", ");")) by { assert [u[0]] + "\n" == "x\n"; }
  }

  /// A quoted argument is a quote, the text, and the closing quote of the call.
  lemma QuotedParts(e: string)
    ensures ("\"" + e + "\");")[0] == '"'
    ensures ("\"" + e + "\");")[1..] == e + "\"" + ");"
  {
  }

  lemma StringArgumentReadsBack(value: string)
    ensures ParseArgument(QuotedArgument(value)) == Some(StringArgument(value))
  {
    QuotedParts(Escape(value));
    EscapeRoundTrip(value, ");");
  }

  lemma StringScriptReadsBack(m: string, value: string)
    requires PlainName(m)
    ensures ParseInvocation(StringScript(m, value)) == Some((m, StringArgument(value)))
  {
    ParseScriptWithArgument(m, QuotedArgument(value));
    StringArgumentReadsBack(value);
  }

  lemma BooleanScriptReadsBack(m: string, value: bool)
    requires PlainName(m)
    ensures ParseInvocation(BooleanScript(m, value)) == Some((m, BooleanArgument(value)))
  {
    ParseScriptWithArgument(m, if value then "true);" else "false);");
  }

  lemma IntegerScriptReadsBack(m: string, value: int32)
    requires PlainName(m)
    ensures ParseInvocation(IntegerScript(m, value)) == Some((m, IntegerArgument(value as int)))
  {
    var digits := Text.IntToString(value as int);
    var a := digits + ");";
    ParseScriptWithArgument(m, a);
    Text.IntToStringRoundTrip(value as int);
    assert a[..|a| - 2] == digits;
    assert a[|a| - 2..] == ");";
    assert a[0] != '"' by {
      if value < 0 { assert a[0] == '-'; } else { assert Text.IsDigit(a[0]); }
    }
    assert a != "true);" && a != "false);" by {
      if value < 0 { assert a[0] == '-'; } else { assert Text.IsDigit(a[0]); }
    }
  }

  // ---------------------------------------------------------------- page URL

  datatype UrlError = UrlNotValid

  /// CreateBrowser's choice of URL: an empty setting means "/index.html"; a URL starting
  /// with "http" is used as it is; any other must start with "/" and names a file under
  /// the project's NEON directory (a fatal error otherwise). `projectDir` is the project
  /// directory as a full path.
  function ResolveUrl(configured: string, projectDir: string): (r: Result<string, UrlError>)
    ensures configured == "" ==> r == Ok("file:///" + ReplaceChar(projectDir, '\\', "/") + "NEON" + "/index.html")
    ensures configured != "" && Text.StartsWithIgnoreCase(configured, "http") ==> r == Ok(configured)
    ensures r.Err? <==> configured != "" && !Text.StartsWithIgnoreCase(configured, "http")
                        && !Text.StartsWithIgnoreCase(configured, "/")
    ensures r.Ok? && !Text.StartsWithIgnoreCase(configured, "http") ==>
      r.value == "file:///" + ReplaceChar(projectDir, '\\', "/") + "NEON" + (if configured == "" then "/index.html" else configured)
  {
    var url := if configured == "" then "/index.html" else configured;
    assert configured == "" ==> !Text.StartsWithIgnoreCase(url, "http") by {
      if configured == "" {
        assert Text.Lower(url[..4])[0] == '/';
        assert Text.Lower("http")[0] == 'h';
      }
    }
    assert configured == "" ==> Text.StartsWithIgnoreCase(url, "/") by {
      if configured == "" {
        assert url[..1] == "/";
      }
    }
    if Text.StartsWithIgnoreCase(url, "http") then Ok(url)
    else if !Text.StartsWithIgnoreCase(url, "/") then Err(UrlNotValid)
    else Ok("file:///" + ReplaceChar(projectDir, '\\', "/") + "NEON" + url)
  }

  /// The file URL carries only forward slashes from the project directory.
  lemma FileUrlHasNoBackslash(projectDir: string)
    ensures '\\' !in ReplaceChar(projectDir, '\\', "/")
  {
    ReplaceCharChars(projectDir, '\\', "/");
  }

  // ---------------------------------------------------------------- input events

  /// CEF's cef_event_flags_t bits used by the widget.
  const ShiftDown: bv32 := 2
  const ControlDown: bv32 := 4
  const AltDown: bv32 := 8
  const LeftMouseButton: bv32 := 16
  const MiddleMouseButton: bv32 := 32
  const RightMouseButton: bv32 := 64

  /// The modifier mask of a key or character event: zero, then one |= per held key.
  function KeyModifiers(shift: bool, control: bool, alt: bool): (m: bv32)
    ensures (m & ShiftDown != 0) == shift
    ensures (m & ControlDown != 0) == control
    ensures (m & AltDown != 0) == alt
    ensures m & !(ShiftDown | ControlDown | AltDown) == 0
  {
    var m: bv32 := 0;
    var m := if shift then m | ShiftDown else m;
    var m := if control then m | ControlDown else m;
    if alt then m | AltDown else m
  }

  /// The modifier mask of a mouse event: the keys, then one |= per held button.
  function MouseModifiers(shift: bool, control: bool, alt: bool, left: bool, right: bool, middle: bool): (m: bv32)
    ensures m & (ShiftDown | ControlDown | AltDown) == KeyModifiers(shift, control, alt)
    ensures (m & LeftMouseButton != 0) == left
    ensures (m & RightMouseButton != 0) == right
    ensures (m & MiddleMouseButton != 0) == middle
    ensures m & !(ShiftDown | ControlDown | AltDown | LeftMouseButton | MiddleMouseButton | RightMouseButton) == 0
  {
    var m := KeyModifiers(shift, control, alt);
    var m := if left then m | LeftMouseButton else m;
    var m := if right then m | RightMouseButton else m;
    if middle then m | MiddleMouseButton else m
  }

  datatype MouseButton = Left | Right | Middle | Thumb1 | Thumb2
  datatype CefMouseButton = MbtLeft | MbtMiddle | MbtRight

  /// HandleMouseButtonEvent forwards the three main buttons and ignores any other.
  function CefButton(b: MouseButton): (r: Option<CefMouseButton>)
    ensures r.None? <==> !(b.Left? || b.Right? || b.Middle?)
    ensures r == Some(MbtLeft) <==> b.Left?
    ensures r == Some(MbtRight) <==> b.Right?
    ensures r == Some(MbtMiddle) <==> b.Middle?
  {
    match b
    case Left => Some(MbtLeft)
    case Right => Some(MbtRight)
    case Middle => Some(MbtMiddle)
    case _ => None
  }

  datatype CefKeyEventType = RawKeyDown | KeyDown | KeyUp | Char

  /// The CEF key event built for a key press or release, and for a typed character.
  datatype CefKeyEvent = CefKeyEvent(
    eventType: CefKeyEventType,
    windowsKeyCode: int,
    nativeKeyCode: int,
    character: int,
    isSystemKey: bool,
    modifiers: bv32)

  /// GetCefKeyEvent: a release is KEYUP, anything else RAWKEYDOWN; both key codes are the
  /// engine's key code.
  function KeyEventOf(keyCode: int, isKeyUp: bool, command: bool, shift: bool, control: bool, alt: bool): (e: CefKeyEvent)
    ensures e.eventType == (if isKeyUp then KeyUp else RawKeyDown)
    ensures e.windowsKeyCode == keyCode && e.nativeKeyCode == keyCode
    ensures e.isSystemKey == command
    ensures e.modifiers == KeyModifiers(shift, control, alt)
  {
    CefKeyEvent(if isKeyUp then KeyUp else RawKeyDown, keyCode, keyCode, 0, command,
                KeyModifiers(shift, control, alt))
  }

  /// GetCefCharacterEvent: a CHAR event whose codes are all the character.
  function CharacterEventOf(character: int, shift: bool, control: bool, alt: bool): (e: CefKeyEvent)
    ensures e.eventType == Char
    ensures e.character == character && e.windowsKeyCode == character && e.nativeKeyCode == character
    ensures e.modifiers == KeyModifiers(shift, control, alt)
  {
    CefKeyEvent(Char, character, character, character, false, KeyModifiers(shift, control, alt))
  }

  /// One mouse click sent to the browser host.
  datatype Click = Click(button: CefMouseButton, mouseUp: bool, modifiers: bv32)

  // ---------------------------------------------------------------- the widget

  /// The widget's state that the bridge logic touches: whether a browser and a view exist,
  /// the scripts run in the page, the clicks sent, and the frame counters.
  class Widget {
    var hasBrowser: bool
    var hasView: bool
    var scripts: seq<string>
    var clicks: seq<Click>
    var fpsTransient: int
    var fps: int

    /// Both counters start at zero; nothing has been sent yet.
    constructor (hasBrowser: bool, hasView: bool)
      ensures this.hasBrowser == hasBrowser && this.hasView == hasView
      ensures scripts == [] && clicks == [] && fpsTransient == 0 && fps == 0
    {
      this.hasBrowser := hasBrowser;
      this.hasView := hasView;
      scripts := [];
      clicks := [];
      fpsTransient := 0;
      fps := 0;
    }

    method InvokeWebNoParam(m: string)
      modifies this`scripts
      ensures scripts == if hasBrowser then old(scripts) + [NoParamScript(m)] else old(scripts)
    {
      if hasBrowser {
        scripts := scripts + [NoParamScript(m)];
      }
    }

    /// InvokeWeb: `json` is the serialised object, None when the wrapper holds no object.
    method InvokeWeb(m: string, json: Option<string>)
      modifies this`scripts
      ensures scripts == if hasBrowser && json.Some? then old(scripts) + [StringScript(m, json.value)] else old(scripts)
    {
      if !hasBrowser {
        return;
      }
      if json.None? {
        return;
      }
      scripts := scripts + [StringScript(m, json.value)];
    }

    method InvokeWebBoolean(m: string, value: bool)
      modifies this`scripts
      ensures scripts == if hasBrowser then old(scripts) + [BooleanScript(m, value)] else old(scripts)
    {
      if hasBrowser {
        scripts := scripts + [BooleanScript(m, value)];
      }
    }

    method InvokeWebInteger(m: string, value: int32)
      modifies this`scripts
      ensures scripts == if hasBrowser then old(scripts) + [IntegerScript(m, value)] else old(scripts)
    {
      if hasBrowser {
        scripts := scripts + [IntegerScript(m, value)];
      }
    }

    method InvokeWebString(m: string, value: string)
      modifies this`scripts
      ensures scripts == if hasBrowser then old(scripts) + [StringScript(m, value)] else old(scripts)
    {
      if hasBrowser {
        scripts := scripts + [StringScript(m, value)];
      }
    }

    /// HandleMouseButtonEvent: a click of a main button is sent with the event's modifiers.
    method HandleMouseButtonEvent(b: MouseButton, mouseUp: bool, modifiers: bv32)
      modifies this`clicks
      ensures clicks == if hasBrowser && CefButton(b).Some?
        then old(clicks) + [Click(CefButton(b).value, mouseUp, modifiers)] else old(clicks)
    {
      if !hasBrowser {
        return;
      }
      var button := CefButton(b);
      if button.None? {
        return;
      }
      clicks := clicks + [Click(button.value, mouseUp, modifiers)];
    }

    /// A main-view paint counts a frame, when a view exists to take it.
    method OnAcceleratedPaint()
      modifies this`fpsTransient
      ensures fpsTransient == old(fpsTransient) + (if hasView then 1 else 0)
    {
      if hasView {
        fpsTransient := fpsTransient + 1;
      }
    }

    /// A popup paint never counts a frame.
    method OnAcceleratedPaintPopup()
      ensures unchanged(this)
    {
    }

    /// The one-second timer publishes the frames counted and starts a new count.
    method OnFpsTimer()
      modifies this`fps, this`fpsTransient
      ensures fps == old(fpsTransient) && fpsTransient == 0
    {
      fps := fpsTransient;
      fpsTransient := 0;
    }
  }
}
