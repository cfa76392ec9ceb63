// The grammar the SQL lexer reads: what its comments, literals and plain characters are, said without
// searching or scanning.
module SqlGrammar {
  import opened Wrappers
  import opened SqlText

  // From "--" to the end of the line, or of the text.
  predicate IsLineComment(text: string, rest: string) {
    && |text| >= 2 && text[0] == '-' && text[1] == '-'
    && (forall i | 0 <= i < |text| - 1 :: text[i] != '\n')
    && (text[|text| - 1] == '\n' || rest == "")
  }

  // From "/*" to the first "*/", with neither an executable mark nor another opening inside.
  predicate IsBlockComment(text: string) {
    var end := |text| - 2;
    && end >= 2 && text[0] == '/' && text[1] == '*' && text[end] == '*' && text[end + 1] == '/'
    && (forall i | 2 <= i < end :: !(text[i] == '*' && text[i + 1] == '/'))
    && (forall i | 2 <= i < end - 1 :: !(text[i] == '/' && text[i + 1] == '*'))
    && text[2] != '!' && text[2] != '+'
  }

  // No backslash, and every quote doubled.
  predicate Doubled(body: string, quote: char) {
    || body == ""
    || (body[0] != quote && body[0] != '\\' && Doubled(body[1..], quote))
    || (|body| >= 2 && body[0] == quote && body[1] == quote && Doubled(body[2..], quote))
  }

  predicate IsLiteral(text: string, rest: string, quote: char) {
    && |text| >= 2 && text[0] == quote && text[|text| - 1] == quote && Doubled(text[1..|text| - 1], quote)
    && (rest != "" ==> rest[0] != quote)
  }

  // Any other character, but those whose meaning depends on the dialect and control characters that
  // are no blanks.
  predicate IsPlain(text: string, rest: string) {
    && |text| == 1
    && text[0] !in {'\'', '"', '`', '[', ']', '$', '\\', '#'}
    && ('\t' <= text[0] <= '\r' || '\U{1C}' <= text[0])
    && (rest != "" ==> !(text[0] == '-' && rest[0] == '-') && !(text[0] == '/' && rest[0] == '*'))
  }

  // `text`, followed by `rest`, is one token: comments and string literals are read as a blank.
  predicate IsLexeme(text: string, t: Token, rest: string) {
    || (t == Plain(' ') && (IsLineComment(text, rest) || IsBlockComment(text) || IsLiteral(text, rest, '\'')))
    || (t == Quoted(text) && IsLiteral(text, rest, '"'))
    || (IsPlain(text, rest) && t == Plain(text[0]))
  }

  // A query is a sequence of such tokens.
  ghost predicate Reads(s: string, tokens: seq<Token>) {
    if tokens == [] then s == ""
    else exists n :: 1 <= n <= |s| && IsLexeme(s[..n], tokens[0], s[n..]) && Reads(s[n..], tokens[1..])
  }

  lemma Starts(s: string, a: char, b: char)
    ensures [a, b] <= s <==> |s| >= 2 && s[0] == a && s[1] == b
  {
    if |s| >= 2 && s[0] == a && s[1] == b { assert s[..2] == [a, b]; }
  }

  lemma Here(s: string, i: nat, a: char, b: char)
    requires i <= |s|
    ensures [a, b] <= s[i..] <==> i + 1 < |s| && s[i] == a && s[i + 1] == b
  {
    Starts(s[i..], a, b);
  }

  lemma HereOne(s: string, i: nat, a: char)
    requires i <= |s|
    ensures [a] <= s[i..] <==> i < |s| && s[i] == a
  {
    if i < |s| && s[i] == a { assert s[i..][..1] == [a]; }
  }

  lemma LineCommentExactly(s: string, n: nat)
    requires [ '-', '-' ] <= s
    ensures var newline := Find(s, "\n", 2);
      (1 <= n <= |s| && IsLineComment(s[..n], s[n..]))
      <==> n == if newline.None? then |s| else newline.value + 1
  {
    Starts(s, '-', '-');
    var newline := Find(s, "\n", 2);
    forall i | 2 <= i < |s| && (newline.Some? ==> i < newline.value) ensures s[i] != '\n' { HereOne(s, i, '\n'); }
    if newline.Some? { HereOne(s, newline.value, '\n'); }
    if 1 <= n <= |s| && IsLineComment(s[..n], s[n..]) {
      assert forall i | 0 <= i < n - 1 :: s[i] == s[..n][i];
    }
    var m := if newline.None? then |s| else newline.value + 1;
    assert IsLineComment(s[..m], s[m..]);
  }

  // Where a block comment ends, and that nothing in it does.
  lemma BlockEnd(s: string)
    requires ['/', '*'] <= s
    ensures var end := Find(s, "*/", 2);
      && (end.Some? ==> 2 <= end.value && end.value + 1 < |s| && s[end.value] == '*' && s[end.value + 1] == '/')
      && forall i | 2 <= i && i + 1 < |s| && (end.Some? ==> i < end.value) :: !(s[i] == '*' && s[i + 1] == '/')
  {
    var end := Find(s, "*/", 2);
    forall i | 2 <= i && i + 1 < |s| && (end.Some? ==> i < end.value) ensures !(s[i] == '*' && s[i + 1] == '/') {
      Here(s, i, '*', '/');
    }
    if end.Some? { Here(s, end.value, '*', '/'); }
  }

  lemma Opening(s: string, end: nat)
    requires 2 <= end <= |s|
    ensures Find(s[2..end], "/*", 0).Some? <==> exists i :: 2 <= i < end - 1 && s[i] == '/' && s[i + 1] == '*'
  {
    var inside := s[2..end];
    var found := Find(inside, "/*", 0);
    if found.Some? {
      Here(inside, found.value, '/', '*');
      assert s[found.value + 2] == '/' && s[found.value + 3] == '*';
    }
    forall i | 2 <= i < end - 1 && found.None? ensures !(s[i] == '/' && s[i + 1] == '*') {
      Here(inside, i - 2, '/', '*');
    }
  }

  // A prefix of `s` reads as a block comment just like `s` itself does up to there.
  predicate BlockUpTo(s: string, n: nat) {
    && 4 <= n <= |s| && s[0] == '/' && s[1] == '*' && s[n - 2] == '*' && s[n - 1] == '/'
    && (forall i | 2 <= i < n - 2 :: !(s[i] == '*' && s[i + 1] == '/'))
    && (forall i | 2 <= i < n - 3 :: !(s[i] == '/' && s[i + 1] == '*'))
    && s[2] != '!' && s[2] != '+'
  }

  lemma PrefixIsBlock(s: string, n: nat)
    requires n <= |s|
    ensures IsBlockComment(s[..n]) <==> BlockUpTo(s, n)
  {
    var text := s[..n];
    assert forall i | 0 <= i < n :: text[i] == s[i];
    if IsBlockComment(text) {
      forall i | 2 <= i < n - 2 ensures !(s[i] == '*' && s[i + 1] == '/') { assert text[i] == s[i]; }
      forall i | 2 <= i < n - 3 ensures !(s[i] == '/' && s[i + 1] == '*') { assert text[i] == s[i]; }
    }
  }

  lemma BlockCommentExactly(s: string, n: nat)
    requires ['/', '*'] <= s
    ensures var end := Find(s, "*/", 2);
      (1 <= n <= |s| && IsBlockComment(s[..n]))
      <==> end.Some? && n == end.value + 2 && s[2] != '!' && s[2] != '+' && Find(s[2..end.value], "/*", 0).None?
  {
    hide Find, IsBlockComment;
    Starts(s, '/', '*');
    BlockEnd(s);
    var end := Find(s, "*/", 2);
    if n <= |s| {
      PrefixIsBlock(s, n);
      if n < 4 { assert !BlockUpTo(s, n); }
    }
    if end.Some? { Opening(s, end.value); }
  }

  lemma {:induction false} LiteralEnd(s: string, i: nat, quote: char, n: nat)
    requires quote != '\\'
    ensures QuoteEnd(s, i, quote) == Success(n)
       <==> i < n <= |s| && s[n - 1] == quote && Doubled(s[i..n - 1], quote) && (n < |s| ==> s[n] != quote)
    decreases |s| - i
  {
    if i < |s| {
      var right := i < n <= |s| && s[n - 1] == quote && Doubled(s[i..n - 1], quote) && (n < |s| ==> s[n] != quote);
      if i < n <= |s| && i < n - 1 {
        var body := s[i..n - 1];
        assert body[0] == s[i] && body[1..] == s[i + 1..n - 1];
        if i + 1 < n - 1 { assert body[1] == s[i + 1] && body[2..] == s[i + 2..n - 1]; }
      }
      if s[i] == quote {
        if i + 1 < |s| && s[i + 1] == quote { LiteralEnd(s, i + 2, quote, n); }
      } else {
        LiteralEnd(s, i + 1, quote, n);
      }
    }
  }

  lemma LiteralExactly(s: string, quote: char, n: nat)
    requires s != "" && s[0] == quote && quote != '\\'
    ensures (1 <= n <= |s| && IsLiteral(s[..n], s[n..], quote)) <==> QuoteEnd(s, 1, quote) == Success(n)
  {
    LiteralEnd(s, 1, quote, n);
    if 2 <= n <= |s| { assert s[..n][1..n - 1] == s[1..n - 1]; }
  }

  // What the lexer takes for the next token is exactly the next lexeme; there is at most one.
  lemma StepReadsLexemes(s: string, t: Token, n: nat)
    requires s != ""
    ensures Step(s) == Success((t, n)) <==> 1 <= n <= |s| && IsLexeme(s[..n], t, s[n..])
  {
    hide Find, QuoteEnd, IsRejected, IsLineComment, IsBlockComment, IsLiteral, IsPlain, Step;
    StepBranches(s);
    Starts(s, '-', '-');
    Starts(s, '/', '*');
    OnlyOneKind(s, n);
    if ['-', '-'] <= s {
      LineCommentExactly(s, n);
    } else if ['/', '*'] <= s {
      BlockCommentExactly(s, n);
    } else if s[0] == '\'' || s[0] == '"' {
      LiteralExactly(s, s[0], n);
    } else {
      PlainExactly(s, n);
    }
  }

  lemma OnlyOneKind(s: string, n: nat)
    requires s != ""
    ensures 1 <= n <= |s| ==>
      && (IsLineComment(s[..n], s[n..]) ==> |s| >= 2 && s[0] == '-' && s[1] == '-')
      && (IsBlockComment(s[..n]) ==> |s| >= 2 && s[0] == '/' && s[1] == '*')
      && (forall q :: IsLiteral(s[..n], s[n..], q) ==> s[0] == q)
      && (IsPlain(s[..n], s[n..]) ==>
            n == 1 && s[0] != '\'' && s[0] != '"'
            && !(|s| >= 2 && s[0] == '-' && s[1] == '-') && !(|s| >= 2 && s[0] == '/' && s[1] == '*'))
  {
  }

  lemma PlainExactly(s: string, n: nat)
    requires s != "" && s[0] != '\'' && s[0] != '"'
    requires !(|s| >= 2 && s[0] == '-' && s[1] == '-') && !(|s| >= 2 && s[0] == '/' && s[1] == '*')
    ensures (1 <= n <= |s| && IsPlain(s[..n], s[n..])) <==> n == 1 && !IsRejected(s[0])
    ensures 1 <= n <= |s| ==> s[..n][0] == s[0]
  {
  }

  // So a query is read exactly when it is a sequence of lexemes, and as those.
  lemma {:induction false} LexReadsTheGrammar(s: string, tokens: seq<Token>)
    ensures Lex(s) == Success(tokens) <==> Reads(s, tokens)
    decreases |s|
  {
    hide Step, IsLexeme;
    if s != "" {
      if Step(s).Success? {
        var (token, n) := Step(s).value;
        StepReadsLexemes(s, token, n);
        if tokens != [] { LexReadsTheGrammar(s[n..], tokens[1..]); }
        if Reads(s, tokens) && tokens != [] {
          var m :| 1 <= m <= |s| && IsLexeme(s[..m], tokens[0], s[m..]) && Reads(s[m..], tokens[1..]);
          StepReadsLexemes(s, tokens[0], m);
        }
        assert tokens != [] ==> tokens == [tokens[0]] + tokens[1..];
      } else if tokens != [] {
        forall n | 1 <= n <= |s| ensures !IsLexeme(s[..n], tokens[0], s[n..]) { StepReadsLexemes(s, tokens[0], n); }
      }
    }
  }

  // Where no token can be read, the reason is that of its first characters.
  lemma RefusalExactly(s: string)
    requires s != "" && Step(s).Failure?
    ensures Step(s).error ==
      if ['/', '*'] <= s then
        if (forall i | 2 <= i < |s| - 1 :: !(s[i] == '*' && s[i + 1] == '/')) || s[2] == '!' || s[2] == '+'
        then BadComment else NestedComment
      else if s[0] == '\'' || s[0] == '"' then
        if '\\' in s[1..] then Backslash else Unterminated
      else DialectDependent
  {
    hide IsRejected;
    Starts(s, '-', '-');
    if ['/', '*'] <= s {
      BlockEnd(s);
    } else if s[0] == '\'' || s[0] == '"' {
      FailedLiteral(s, 1, s[0]);
    }
  }

  lemma {:induction false} FailedLiteral(s: string, i: nat, quote: char)
    requires i <= |s| && quote != '\\' && QuoteEnd(s, i, quote).Failure?
    ensures QuoteEnd(s, i, quote).error == if '\\' in s[i..] then Backslash else Unterminated
    decreases |s| - i
  {
    if i < |s| {
      assert s[i..] == [s[i]] + s[i + 1..];
      if s[i] == quote {
        if i + 1 < |s| && s[i + 1] == quote {
          assert s[i + 1..] == [s[i + 1]] + s[i + 2..];
          FailedLiteral(s, i + 2, quote);
        }
      } else if s[i] != '\\' {
        FailedLiteral(s, i + 1, quote);
      }
    }
  }
}
