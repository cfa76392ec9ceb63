// The SQL masking lexer and the statement splitter behind it (validators/basic.py).
module SqlText {
  import opened Wrappers

  datatype SqlError = BadComment | NestedComment | Backslash | Unterminated | DialectDependent

  // str.isspace.
  predicate IsSpace(c: char) {
    || '\t' <= c <= '\r' || '\U{1C}' <= c <= ' ' || c in "\U{85}\U{A0}\U{1680}\U{2028}\U{2029}\U{202F}\U{205F}\U{3000}"
    || '\U{2000}' <= c <= '\U{200A}'
  }

  // The first place at or after `start` where `pattern` stands.
  function Find(s: string, pattern: string, start: nat): (r: Option<nat>)
    requires pattern != ""
    ensures r.Some? ==> start <= r.value && r.value + |pattern| <= |s| && pattern <= s[r.value..]
    ensures forall i | start <= i <= |s| && (r.Some? ==> i < r.value) :: !(pattern <= s[i..])
    decreases |s| - start
  {
    if start >= |s| then None
    else if pattern <= s[start..] then Some(start)
    else Find(s, pattern, start + 1)
  }

  predicate IsRejected(c: char) {
    c in "`[]$\\#" || (c < ' ' && !IsSpace(c))
  }

  // From inside a quoted value, where it ends; a doubled quote does not end it.
  function QuoteEnd(s: string, i: nat, quote: char): (r: Result<nat, SqlError>)
    ensures r.Success? ==> i < r.value <= |s| && (r.value < |s| ==> s[r.value] != quote)
    decreases |s| - i
  {
    if i >= |s| then Failure(Unterminated)
    else if s[i] == '\\' then Failure(Backslash)
    else if s[i] == quote then
      if i + 1 < |s| && s[i + 1] == quote then QuoteEnd(s, i + 2, quote) else Success(i + 1)
    else QuoteEnd(s, i + 1, quote)
  }

  // Comments and string literals are read as a blank.
  datatype Token = Plain(c: char) | Quoted(text: string)

  // The token at the front of `s`, and how much of `s` it takes up.
  function Step(s: string): (r: Result<(Token, nat), SqlError>)
    requires s != ""
    ensures r.Success? ==> 1 <= r.value.1 <= |s|
  {
    if "--" <= s then
      var newline := Find(s, "\n", 2);
      Success((Plain(' '), if newline.None? then |s| else newline.value + 1))
    else if "/*" <= s then
      var end := Find(s, "*/", 2);
      if end.None? || s[2] in "!+" then Failure(BadComment)
      else if Find(s[2..end.value], "/*", 0).Some? then Failure(NestedComment)
      else Success((Plain(' '), end.value + 2))
    else if s[0] == '\'' || s[0] == '"' then
      var end :- QuoteEnd(s, 1, s[0]);
      Success((if s[0] == '\'' then Plain(' ') else Quoted(s[..end]), end))
    else if IsRejected(s[0]) then Failure(DialectDependent)
    else Success((Plain(s[0]), 1))
  }

  function Lex(s: string): Result<seq<Token>, SqlError> {
    if s == "" then Success([])
    else
      var (token, n) :- Step(s);
      var rest :- Lex(s[n..]);
      Success([token] + rest)
  }

  function TextOf(t: Token): string {
    match t
    case Plain(c) => [c]
    case Quoted(text) => text
  }

  function Render(tokens: seq<Token>): string {
    if tokens == [] then "" else TextOf(tokens[0]) + Render(tokens[1..])
  }

  function Masked(s: string): Result<string, SqlError> {
    var tokens :- Lex(s);
    Success(Render(tokens))
  }

  // What a rest of the query contributes to what has been put out before it.
  function After(code: string, rest: Result<string, SqlError>): Result<string, SqlError> {
    if rest.Failure? then rest else Success(code + rest.value)
  }

  lemma MaskedStep(s: string)
    requires s != ""
    ensures Masked(s) == match Step(s)
      case Failure(error) => Failure(error)
      case Success((token, n)) => After(TextOf(token), Masked(s[n..]))
  {
    if Step(s).Success? {
      var (token, n) := Step(s).value;
      if Lex(s[n..]).Success? {
        assert ([token] + Lex(s[n..]).value)[1..] == Lex(s[n..]).value;
      }
    }
  }

  lemma StepOn(query: string, position: nat, code: string, token: Token, n: nat)
    requires position < |query| && Step(query[position..]) == Success((token, n))
    ensures After(code, Masked(query[position..])) == After(code + TextOf(token), Masked(query[position + n..]))
  {
    hide Masked, Step;
    MaskedStep(query[position..]);
    assert query[position..][n..] == query[position + n..];
    var rest := Masked(query[position + n..]);
    if rest.Success? { assert code + (TextOf(token) + rest.value) == code + TextOf(token) + rest.value; }
  }

  lemma StepFailing(s: string, code: string)
    requires s != ""
    ensures Step(s).Failure? ==> After(code, Masked(s)) == Failure(Step(s).error)
  {
    MaskedStep(s);
  }

  lemma StepBranches(s: string)
    requires s != ""
    ensures "--" <= s ==>
      Step(s) == Success((Plain(' '), if Find(s, "\n", 2).None? then |s| else Find(s, "\n", 2).value + 1))
    ensures !("--" <= s) && "/*" <= s ==>
      Step(s) == (if Find(s, "*/", 2).None? || s[2] in "!+" then Failure(BadComment)
                  else if Find(s[2..Find(s, "*/", 2).value], "/*", 0).Some? then Failure(NestedComment)
                  else Success((Plain(' '), Find(s, "*/", 2).value + 2)))
    ensures s[0] == '\'' || s[0] == '"' ==>
      Step(s) == if QuoteEnd(s, 1, s[0]).Failure? then Failure(QuoteEnd(s, 1, s[0]).error)
                 else Success((if s[0] == '\'' then Plain(' ') else Quoted(s[..QuoteEnd(s, 1, s[0]).value]),
                               QuoteEnd(s, 1, s[0]).value))
    ensures !("--" <= s) && !("/*" <= s) && s[0] != '\'' && s[0] != '"' ==>
      Step(s) == if IsRejected(s[0]) then Failure(DialectDependent) else Success((Plain(s[0]), 1))
  {
  }

  lemma NothingBefore(rest: Result<string, SqlError>)
    ensures After("", rest) == rest
  {
    if rest.Success? { assert "" + rest.value == rest.value; }
  }

  lemma NothingLeft(code: string)
    ensures After(code, Masked("")) == Success(code)
  {
    assert code + "" == code;
  }

  // One pass over the query; every turn of the loop moves on.
  method SqlCode(query: string) returns (r: Result<string, SqlError>)
    ensures r == Masked(query)
  {
    hide Masked, Lex, Find, IsRejected, After, Step;
    var code := "";
    var position := 0;
    assert query[0..] == query && After("", Masked(query)) == Masked(query) by { NothingBefore(Masked(query)); }
    while position < |query|
      invariant position <= |query| && Masked(query) == After(code, Masked(query[position..]))
      decreases |query| - position
    {
      var rest := query[position..];
      StepFailing(rest, code);
      StepBranches(rest);
      if "--" <= rest {
        StepOn(query, position, code, Step(rest).value.0, Step(rest).value.1);
        var newline := Find(rest, "\n", 2);
        position := if newline.None? then |query| else position + newline.value + 1;
        code := code + " ";
      } else if "/*" <= rest {
        var end := Find(rest, "*/", 2);
        if end.None? || rest[2] in "!+" { return Failure(BadComment); }
        if Find(rest[2..end.value], "/*", 0).Some? { return Failure(NestedComment); }
        StepOn(query, position, code, Plain(' '), end.value + 2);
        code := code + " ";
        position := position + end.value + 2;
      } else if rest[0] == '\'' || rest[0] == '"' {
        var quote := rest[0];
        var i := 1;
        var closed := false;
        while i < |rest| && !closed
          invariant i <= |rest|
          invariant if closed then QuoteEnd(rest, 1, quote) == Success(i)
            else QuoteEnd(rest, 1, quote) == QuoteEnd(rest, i, quote)
          decreases |rest| - i, !closed
        {
          if rest[i] == '\\' { return Failure(Backslash); }
          if rest[i] == quote {
            if i + 1 < |rest| && rest[i + 1] == quote { i := i + 2; } else { i, closed := i + 1, true; }
          } else {
            i := i + 1;
          }
        }
        if !closed { return Failure(Unterminated); }
        StepOn(query, position, code, Step(rest).value.0, i);
        code := code + if quote == '\'' then " " else rest[..i];
        position := position + i;
      } else if IsRejected(rest[0]) {
        return Failure(DialectDependent);
      } else {
        StepOn(query, position, code, Plain(rest[0]), 1);
        code := code + [rest[0]];
        position := position + 1;
      }
    }
    assert query[position..] == "";
    NothingLeft(code);
    r := Success(code);
  }

  // -------- The output is a fixed point --------

  predicate GoodToken(t: Token) {
    match t
    case Plain(c) => c != '\'' && c != '"' && !IsRejected(c)
    case Quoted(text) => text != "" && text[0] == '"' && QuoteEnd(text, 1, '"') == Success(|text|)
  }

  // No two neighbours that would be read as something else together.
  predicate Apart(t: Token, u: Token) {
    && !(t == Plain('-') && u == Plain('-')) && !(t == Plain('/') && u == Plain('*'))
    && !(t.Quoted? && u.Quoted?)
  }

  predicate Separable(tokens: seq<Token>) {
    && (forall i | 0 <= i < |tokens| :: GoodToken(tokens[i]))
    && forall i | 0 < i < |tokens| :: Apart(tokens[i - 1], tokens[i])
  }

  lemma {:induction false} QuoteEndsWithin(s: string, i: nat, quote: char)
    requires QuoteEnd(s, i, quote).Success?
    ensures var end := QuoteEnd(s, i, quote).value; QuoteEnd(s[..end], i, quote) == Success(end)
    decreases |s| - i
  {
    if s[i] == quote {
      if i + 1 < |s| && s[i + 1] == quote { QuoteEndsWithin(s, i + 2, quote); }
    } else {
      QuoteEndsWithin(s, i + 1, quote);
    }
  }

  lemma {:induction false} QuoteEndsBefore(text: string, i: nat, quote: char, rest: string)
    requires QuoteEnd(text, i, quote) == Success(|text|) && (rest != "" ==> rest[0] != quote)
    ensures QuoteEnd(text + rest, i, quote) == Success(|text|)
    decreases |text| - i
  {
    if text[i] == quote {
      if i + 1 < |text| && text[i + 1] == quote { QuoteEndsBefore(text, i + 2, quote, rest); }
    } else {
      QuoteEndsBefore(text, i + 1, quote, rest);
    }
  }

  lemma StepIsGood(s: string)
    requires s != "" && Step(s).Success?
    ensures var (token, n) := Step(s).value;
      && GoodToken(token)
      && (token.Plain? && token.c != ' ' ==> n == 1 && token.c == s[0] && !("--" <= s) && !("/*" <= s))
      && (token.Quoted? ==> s[0] == '"' && (n < |s| ==> s[n] != '"'))
  {
    if s[0] == '"' && QuoteEnd(s, 1, '"').Success? { QuoteEndsWithin(s, 1, '"'); }
  }

  lemma {:induction false} LexedTokensAreSeparable(s: string)
    requires Lex(s).Success?
    ensures Separable(Lex(s).value)
  {
    if s != "" {
      StepIsGood(s);
      var (token, n) := Step(s).value;
      var rest := s[n..];
      LexedTokensAreSeparable(rest);
      var tokens := Lex(rest).value;
      if tokens != [] {
        StepIsGood(rest);
        assert tokens[0] == Step(rest).value.0;
        assert Apart(token, tokens[0]) by {
          if token.Plain? && token.c != ' ' && |s| >= 2 { assert s == [s[0]] + ([s[1]] + s[2..]) && rest[0] == s[1]; }
        }
      }
      forall i | 0 < i < |[token] + tokens| ensures Apart(([token] + tokens)[i - 1], ([token] + tokens)[i]) {
        if i > 1 { assert Apart(tokens[i - 2], tokens[i - 1]); }
      }
    }
  }

  lemma RenderStarts(tokens: seq<Token>)
    requires Separable(tokens) && tokens != []
    ensures Render(tokens) != ""
    ensures Render(tokens)[0] == if tokens[0].Plain? then tokens[0].c else '"'
  {
    assert GoodToken(tokens[0]);
  }

  lemma StepReadsBack(tokens: seq<Token>)
    requires Separable(tokens) && tokens != []
    ensures Render(tokens) != "" && Step(Render(tokens)) == Success((tokens[0], |TextOf(tokens[0])|))
  {
    RenderStarts(tokens);
    assert GoodToken(tokens[0]);
    var rest := Render(tokens[1..]);
    if |tokens| > 1 {
      SeparableTail(tokens);
      RenderStarts(tokens[1..]);
      assert Apart(tokens[0], tokens[1]);
    }
    var s := Render(tokens);
    match tokens[0]
    case Plain(c) =>
      assert s == [c] + rest;
      if rest != "" { assert s[1] == rest[0]; }
    case Quoted(text) =>
      assert s == text + rest;
      QuoteEndsBefore(text, 1, '"', rest);
      assert s[..|text|] == text;
  }

  lemma SeparableTail(tokens: seq<Token>)
    requires Separable(tokens) && tokens != []
    ensures Separable(tokens[1..])
  {
    forall i | 0 < i < |tokens[1..]| ensures Apart(tokens[1..][i - 1], tokens[1..][i]) {
      assert Apart(tokens[i], tokens[i + 1]);
    }
  }

  lemma LexOf(s: string, token: Token, n: nat, tokens: seq<Token>)
    requires s != "" && Step(s) == Success((token, n)) && Lex(s[n..]) == Success(tokens)
    ensures Lex(s) == Success([token] + tokens)
  {
  }

  lemma {:induction false} LexReadsBack(tokens: seq<Token>)
    requires Separable(tokens)
    ensures Lex(Render(tokens)) == Success(tokens)
  {
    if tokens != [] {
      hide Lex, Step, Separable;
      SeparableTail(tokens);
      LexReadsBack(tokens[1..]);
      StepReadsBack(tokens);
      var n := |TextOf(tokens[0])|;
      assert Render(tokens)[n..] == Render(tokens[1..]);
      LexOf(Render(tokens), tokens[0], n, tokens[1..]);
      assert tokens == [tokens[0]] + tokens[1..];
    }
  }

  // Masking what has been masked changes nothing: no comment or string literal comes into being
  // across token boundaries.
  lemma MaskingIsIdempotent(query: string)
    requires Masked(query).Success?
    ensures Masked(Masked(query).value) == Masked(query)
    ensures Lex(Masked(query).value) == Lex(query)
  {
    LexedTokensAreSeparable(query);
    LexReadsBack(Lex(query).value);
  }

  // -------- The splitter --------

  // The pieces of `s`, with `current` read already and `quote` open.
  function SplitFrom(s: string, quote: Option<char>, current: string): (pieces: seq<string>)
    ensures pieces != []
  {
    if s == "" then [current]
    else if quote.Some? then SplitFrom(s[1..], if s[0] == quote.value then None else quote, current + [s[0]])
    else if s[0] == '\'' || s[0] == '"' then SplitFrom(s[1..], Some(s[0]), current + [s[0]])
    else if s[0] == ';' then [current] + SplitFrom(s[1..], None, "")
    else SplitFrom(s[1..], None, current + [s[0]])
  }

  // str.strip() is not empty.
  predicate Solid(s: string) {
    exists i :: 0 <= i < |s| && !IsSpace(s[i])
  }

  function Statements(pieces: seq<string>): seq<string> {
    if pieces == [] then []
    else (if Solid(pieces[0]) then [pieces[0]] else []) + Statements(pieces[1..])
  }

  method SplitStatements(query: string) returns (statements: seq<string>)
    ensures statements == Statements(SplitFrom(query, None, ""))
  {
    hide Statements;
    var pieces: seq<string> := [];
    var current := "";
    var quote: Option<char> := None;
    assert query[0..] == query;
    for i := 0 to |query|
      invariant SplitFrom(query, None, "") == pieces + SplitFrom(query[i..], quote, current)
    {
      assert query[i..][1..] == query[i + 1..];
      var c := query[i];
      if quote.Some? {
        current := current + [c];
        if c == quote.value { quote := None; }
      } else if c == '\'' || c == '"' {
        quote := Some(c);
        current := current + [c];
      } else if c == ';' {
        pieces := pieces + [current];
        current := "";
      } else {
        current := current + [c];
      }
    }
    pieces := pieces + [current];
    statements := Statements(pieces);
  }

  function Join(pieces: seq<string>): string
    requires pieces != []
  {
    if |pieces| == 1 then pieces[0] else pieces[0] + ";" + Join(pieces[1..])
  }

  // Nothing is lost: the pieces, before blank ones are dropped, rejoin to the query.
  lemma {:induction false} PiecesRejoin(s: string, quote: Option<char>, current: string)
    ensures Join(SplitFrom(s, quote, current)) == current + s
  {
    if s != "" {
      assert current + s == current + [s[0]] + s[1..];
      if quote.Some? {
        PiecesRejoin(s[1..], if s[0] == quote.value then None else quote, current + [s[0]]);
      } else if s[0] == '\'' || s[0] == '"' {
        PiecesRejoin(s[1..], Some(s[0]), current + [s[0]]);
      } else if s[0] == ';' {
        PiecesRejoin(s[1..], None, "");
        var rest := SplitFrom(s[1..], None, "");
        assert ([current] + rest)[1..] == rest;
        assert "" + s[1..] == s[1..];
      } else {
        PiecesRejoin(s[1..], None, current + [s[0]]);
      }
    }
  }

  // -------- Lexer and splitter agree --------

  // Cutting at the semicolon tokens.
  function Segments(tokens: seq<Token>, current: string): (segments: seq<string>)
    ensures segments != []
  {
    if tokens == [] then [current]
    else if tokens[0] == Plain(';') then [current] + Segments(tokens[1..], "")
    else Segments(tokens[1..], current + TextOf(tokens[0]))
  }

  lemma {:induction false} QuotedIsOnePiece(text: string, i: nat, rest: string, current: string)
    requires i <= |text| && QuoteEnd(text, i, '"') == Success(|text|)
    ensures SplitFrom(text[i..] + rest, Some('"'), current) == SplitFrom(rest, None, current + text[i..])
    decreases |text| - i
  {
    var s := text[i..] + rest;
    assert s[1..] == text[i + 1..] + rest;
    if text[i] == '"' && i + 1 < |text| && text[i + 1] == '"' {
      var t := text[i + 1..] + rest;
      assert t[1..] == text[i + 2..] + rest;
      QuotedIsOnePiece(text, i + 2, rest, current + ['"'] + ['"']);
      assert current + ['"'] + ['"'] + text[i + 2..] == current + text[i..];
    } else if text[i] == '"' {
      assert text[i + 1..] + rest == rest && text[i..] == ['"'];
    } else {
      QuotedIsOnePiece(text, i + 1, rest, current + [text[i]]);
      assert current + [text[i]] + text[i + 1..] == current + text[i..];
    }
  }

  // On what the lexer puts out, the toggling splitter cuts exactly at the lexer's semicolons and
  // never inside a quoted identifier.
  lemma {:induction false} SplitterCutsAtTokens(tokens: seq<Token>, current: string)
    requires Separable(tokens)
    ensures SplitFrom(Render(tokens), None, current) == Segments(tokens, current)
  {
    if tokens != [] {
      SeparableTail(tokens);
      assert GoodToken(tokens[0]);
      var rest := Render(tokens[1..]);
      match tokens[0]
      case Plain(c) =>
        assert Render(tokens)[1..] == rest;
        if c == ';' {
          SplitterCutsAtTokens(tokens[1..], "");
        } else {
          SplitterCutsAtTokens(tokens[1..], current + [c]);
        }
      case Quoted(text) =>
        var s := Render(tokens);
        assert s[1..] == text[1..] + rest;
        QuotedIsOnePiece(text, 1, rest, current + ['"']);
        assert current + ['"'] + text[1..] == current + text;
        SplitterCutsAtTokens(tokens[1..], current + text);
    }
  }

  // -------- How the validator composes them --------

  function StripLeft(s: string): string {
    if s != "" && IsSpace(s[0]) then StripLeft(s[1..]) else s
  }

  function StripRight(s: string): string {
    if s != "" && IsSpace(s[|s| - 1]) then StripRight(s[..|s| - 1]) else s
  }

  function Strip(s: string): string {
    StripRight(StripLeft(s))
  }

  lemma SolidGrows(s: string, c: char)
    ensures Solid(s + [c]) <==> Solid(s) || !IsSpace(c)
    ensures Solid([c] + s) <==> Solid(s) || !IsSpace(c)
  {
    if Solid(s) {
      var i :| 0 <= i < |s| && !IsSpace(s[i]);
      assert (s + [c])[i] == s[i] && ([c] + s)[i + 1] == s[i];
    }
    if !IsSpace(c) { assert (s + [c])[|s|] == c && ([c] + s)[0] == c; }
  }

  // How many pieces are not blank, given whether what has been read of the first one is.
  function Count(s: string, quote: Option<char>, solid: bool): nat {
    if s == "" then if solid then 1 else 0
    else if quote.Some? then Count(s[1..], if s[0] == quote.value then None else quote, solid || !IsSpace(s[0]))
    else if s[0] == '\'' || s[0] == '"' then Count(s[1..], Some(s[0]), true)
    else if s[0] == ';' then (if solid then 1 else 0) + Count(s[1..], None, false)
    else Count(s[1..], None, solid || !IsSpace(s[0]))
  }

  lemma {:induction false} CountIsCount(s: string, quote: Option<char>, current: string)
    ensures |Statements(SplitFrom(s, quote, current))| == Count(s, quote, Solid(current))
  {
    if s != "" {
      SolidGrows(current, s[0]);
      if quote.Some? {
        CountIsCount(s[1..], if s[0] == quote.value then None else quote, current + [s[0]]);
      } else if s[0] == '\'' || s[0] == '"' {
        CountIsCount(s[1..], Some(s[0]), current + [s[0]]);
      } else if s[0] == ';' {
        CountIsCount(s[1..], None, "");
        var rest := SplitFrom(s[1..], None, "");
        assert ([current] + rest)[1..] == rest;
      } else {
        CountIsCount(s[1..], None, current + [s[0]]);
      }
    } else {
      assert [current][1..] == [];
    }
  }

  lemma {:induction false} StripLeftKeepsCount(s: string)
    ensures Count(StripLeft(s), None, false) == Count(s, None, false)
  {
    if s != "" && IsSpace(s[0]) { StripLeftKeepsCount(s[1..]); }
  }

  lemma {:induction false} TrailingSpaceDoesNotCount(s: string, c: char, quote: Option<char>, solid: bool)
    requires IsSpace(c)
    ensures Count(s + [c], quote, solid) == Count(s, quote, solid)
  {
    if s == "" {
      assert ([] + [c])[1..] == "";
      assert s + [c] == [c];
    } else {
      assert (s + [c])[1..] == s[1..] + [c];
      if quote.Some? {
        TrailingSpaceDoesNotCount(s[1..], c, if s[0] == quote.value then None else quote, solid || !IsSpace(s[0]));
      } else if s[0] == '\'' || s[0] == '"' {
        TrailingSpaceDoesNotCount(s[1..], c, Some(s[0]), true);
      } else if s[0] == ';' {
        TrailingSpaceDoesNotCount(s[1..], c, None, false);
      } else {
        TrailingSpaceDoesNotCount(s[1..], c, None, solid || !IsSpace(s[0]));
      }
    }
  }

  lemma {:induction false} StripRightKeepsCount(s: string)
    ensures Count(StripRight(s), None, false) == Count(s, None, false)
  {
    if s != "" && IsSpace(s[|s| - 1]) {
      StripRightKeepsCount(s[..|s| - 1]);
      TrailingSpaceDoesNotCount(s[..|s| - 1], s[|s| - 1], None, false);
      assert s == s[..|s| - 1] + [s[|s| - 1]];
    }
  }

  predicate SolidToken(t: Token) {
    t.Quoted? || (t.c != ';' && !IsSpace(t.c))
  }

  predicate SolidBefore(tokens: seq<Token>, i: nat)
    requires i <= |tokens|
  {
    exists j :: 0 <= j < i && SolidToken(tokens[j])
  }

  predicate SolidAfter(tokens: seq<Token>, i: nat)
    requires i <= |tokens|
  {
    exists j :: i <= j < |tokens| && SolidToken(tokens[j])
  }

  // A semicolon with something on either side of it.
  predicate Stacked(tokens: seq<Token>, solid: bool) {
    exists i :: 0 <= i < |tokens| && tokens[i] == Plain(';') && (solid || SolidBefore(tokens, i))
      && SolidAfter(tokens, i + 1)
  }

  function SegmentCount(tokens: seq<Token>, solid: bool): nat {
    if tokens == [] then if solid then 1 else 0
    else if tokens[0] == Plain(';') then (if solid then 1 else 0) + SegmentCount(tokens[1..], false)
    else SegmentCount(tokens[1..], solid || SolidToken(tokens[0]))
  }

  lemma {:induction false} SegmentsCounted(tokens: seq<Token>, current: string)
    requires Separable(tokens)
    ensures |Statements(Segments(tokens, current))| == SegmentCount(tokens, Solid(current))
  {
    if tokens == [] {
      assert [current][1..] == [];
    } else {
      SeparableTail(tokens);
      if tokens[0] == Plain(';') {
        SegmentsCounted(tokens[1..], "");
        var rest := Segments(tokens[1..], "");
        assert ([current] + rest)[1..] == rest;
      } else {
        SolidText(tokens[0], current);
        SegmentsCounted(tokens[1..], current + TextOf(tokens[0]));
      }
    }
  }

  lemma SolidText(t: Token, current: string)
    requires GoodToken(t) && t != Plain(';')
    ensures Solid(current + TextOf(t)) <==> Solid(current) || SolidToken(t)
  {
    if t.Plain? { SolidGrows(current, t.c); }
    else {
      assert (current + t.text)[|current|] == '"';
    }
  }

  lemma {:induction false} CountedWhenSolid(tokens: seq<Token>, solid: bool)
    ensures SegmentCount(tokens, solid) >= 1 <==> solid || SolidAfter(tokens, 0)
  {
    if tokens != [] {
      CountedWhenSolid(tokens[1..], if tokens[0] == Plain(';') then false else solid || SolidToken(tokens[0]));
      TailSolid(tokens);
    }
  }

  lemma TailSolid(tokens: seq<Token>)
    requires tokens != []
    ensures SolidAfter(tokens, 0) <==> SolidToken(tokens[0]) || SolidAfter(tokens[1..], 0)
    ensures SolidAfter(tokens, 1) <==> SolidAfter(tokens[1..], 0)
  {
    if SolidAfter(tokens[1..], 0) {
      var j :| 0 <= j < |tokens[1..]| && SolidToken(tokens[1..][j]);
      assert SolidToken(tokens[j + 1]);
    }
    if SolidAfter(tokens, 1) {
      var j :| 1 <= j < |tokens| && SolidToken(tokens[j]);
      assert SolidToken(tokens[1..][j - 1]);
    }
  }

  lemma TailStacked(tokens: seq<Token>, solid: bool)
    requires tokens != []
    ensures Stacked(tokens, solid) <==>
      ((tokens[0] == Plain(';') && solid && SolidAfter(tokens, 1))
       || Stacked(tokens[1..], solid || SolidToken(tokens[0])))
  {
    var rest := tokens[1..];
    forall i | 0 <= i < |rest|
      ensures SolidAfter(rest, i + 1) <==> SolidAfter(tokens, i + 2)
      ensures SolidToken(tokens[0]) || SolidBefore(rest, i) <==> SolidBefore(tokens, i + 1)
    {
      ShiftedSolid(tokens, i);
    }
    if Stacked(tokens, solid) {
      var i :| 0 <= i < |tokens| && tokens[i] == Plain(';') && (solid || SolidBefore(tokens, i))
        && SolidAfter(tokens, i + 1);
      if i > 0 { assert rest[i - 1] == Plain(';'); }
    }
    if Stacked(rest, solid || SolidToken(tokens[0])) {
      var i :| 0 <= i < |rest| && rest[i] == Plain(';') && (solid || SolidToken(tokens[0]) || SolidBefore(rest, i))
               && SolidAfter(rest, i + 1);
      assert tokens[i + 1] == Plain(';');
    }
  }

  lemma ShiftedSolid(tokens: seq<Token>, i: nat)
    requires i + 1 < |tokens|
    ensures SolidAfter(tokens[1..], i + 1) <==> SolidAfter(tokens, i + 2)
    ensures SolidToken(tokens[0]) || SolidBefore(tokens[1..], i) <==> SolidBefore(tokens, i + 1)
  {
    var rest := tokens[1..];
    if SolidAfter(rest, i + 1) {
      var j :| i + 1 <= j < |rest| && SolidToken(rest[j]);
      assert SolidToken(tokens[j + 1]);
    }
    if SolidAfter(tokens, i + 2) {
      var j :| i + 2 <= j < |tokens| && SolidToken(tokens[j]);
      assert SolidToken(rest[j - 1]);
    }
    if SolidBefore(rest, i) { var j :| 0 <= j < i && SolidToken(rest[j]); assert SolidToken(tokens[j + 1]); }
    if SolidBefore(tokens, i + 1) {
      var j :| 0 <= j < i + 1 && SolidToken(tokens[j]);
      if j > 0 { assert SolidToken(rest[j - 1]); }
    }
  }

  lemma {:induction false} SeveralMeansStacked(tokens: seq<Token>, solid: bool)
    ensures SegmentCount(tokens, solid) >= 2 <==> Stacked(tokens, solid)
  {
    if tokens != [] {
      TailStacked(tokens, solid);
      TailSolid(tokens);
      if tokens[0] == Plain(';') {
        SeveralMeansStacked(tokens[1..], false);
        CountedWhenSolid(tokens[1..], false);
        StackedNeedsMore(tokens[1..], solid);
      } else {
        SeveralMeansStacked(tokens[1..], solid || SolidToken(tokens[0]));
      }
    }
  }

  lemma StackedNeedsMore(tokens: seq<Token>, solid: bool)
    ensures Stacked(tokens, false) ==> Stacked(tokens, solid)
    ensures Stacked(tokens, true) ==> SolidAfter(tokens, 0)
  {
  }

  // The validator sees more than one statement exactly when the query, as the lexer reads it, has
  // a semicolon outside comments, literals and quoted identifiers with something on either side.
  lemma SeveralStatementsExactlyWhenStacked(query: string)
    requires Masked(query).Success?
    ensures |Statements(SplitFrom(Strip(Masked(query).value), None, ""))| > 1 <==> Stacked(Lex(query).value, false)
  {
    var tokens := Lex(query).value;
    var s := Masked(query).value;
    LexedTokensAreSeparable(query);
    CountIsCount(Strip(s), None, "");
    CountIsCount(s, None, "");
    StripRightKeepsCount(StripLeft(s));
    StripLeftKeepsCount(s);
    SplitterCutsAtTokens(tokens, "");
    SegmentsCounted(tokens, "");
    SeveralMeansStacked(tokens, false);
  }
}
