/** Quoting an argument for the shell: four successive replacements, undone by the shell's double-quote rules. */
module ShellQuote {
  import opened Common

  /** strings.ReplaceAll for a one-character pattern. */
  function ReplaceAll(s: string, c: char, with: string): string {
    if s == "" then "" else (if s[0] == c then with else [s[0]]) + ReplaceAll(s[1..], c, with)
  }

  /** The four replacements: backslashes first, or they would be escaped twice. */
  function Rewrite(s: string): string {
    ReplaceAll(ReplaceAll(ReplaceAll(ReplaceAll(s, '\\', "\\\\"), '"', "\\\""), '$', "\\$"), '`', "\\`")
  }

  /** shellQuote. */
  function Quote(s: string): string {
    "\"" + Rewrite(s) + "\""
  }

  // ----- Section 2.2.3 of the Shell Command Language, POSIX.1-2017 -----

  /** The characters that keep a special meaning between double quotes. */
  predicate IsSpecial(c: char) {
    c == '\\' || c == '"' || c == '$' || c == '`'
  }

  /** What the shell reads up to the closing quote, and what is left after it. Nothing when the text would be
      expanded or substituted, or never ends. A backslash quotes the special characters, continues the line before
      a newline, and stands for itself before anything else. */
  function ReadQuoted(s: string): Option<(string, string)> {
    if s == "" || s[0] == '$' || s[0] == '`' then None
    else if s[0] == '"' then Some(("", s[1..]))
    else if s[0] != '\\' then Prefixed([s[0]], ReadQuoted(s[1..]))
    else if |s| == 1 then None
    else if s[1] == '\n' then ReadQuoted(s[2..])
    else if IsSpecial(s[1]) then Prefixed([s[1]], ReadQuoted(s[2..]))
    else Prefixed("\\", ReadQuoted(s[1..]))
  }

  function Prefixed(front: string, r: Option<(string, string)>): Option<(string, string)> {
    match r
    case None => None
    case Some((word, left)) => Some((front + word, left))
  }

  /** A word that is one double-quoted string and nothing else. */
  function ReadWord(s: string): Option<string> {
    if s == "" || s[0] != '"' then None
    else match ReadQuoted(s[1..])
      case Some((word, "")) => Some(word)
      case _ => None
  }

  // ----- One escape per character -----

  function EscapeChar(c: char): string {
    if IsSpecial(c) then ['\\', c] else [c]
  }

  function Escape(s: string): string {
    if s == "" then "" else EscapeChar(s[0]) + Escape(s[1..])
  }

  lemma {:induction false} ReplaceAllConcat(s: string, t: string, c: char, with: string)
    ensures ReplaceAll(s + t, c, with) == ReplaceAll(s, c, with) + ReplaceAll(t, c, with)
  {
    if s == "" {
      assert s + t == t;
    } else {
      assert (s + t)[1..] == s[1..] + t;
      ReplaceAllConcat(s[1..], t, c, with);
    }
  }

  lemma RewriteConcat(s: string, t: string)
    ensures Rewrite(s + t) == Rewrite(s) + Rewrite(t)
  {
    ReplaceAllConcat(s, t, '\\', "\\\\");
    var s1, t1 := ReplaceAll(s, '\\', "\\\\"), ReplaceAll(t, '\\', "\\\\");
    ReplaceAllConcat(s1, t1, '"', "\\\"");
    var s2, t2 := ReplaceAll(s1, '"', "\\\""), ReplaceAll(t1, '"', "\\\"");
    ReplaceAllConcat(s2, t2, '$', "\\$");
    var s3, t3 := ReplaceAll(s2, '$', "\\$"), ReplaceAll(t2, '$', "\\$");
    ReplaceAllConcat(s3, t3, '`', "\\`");
  }

  lemma ReplaceOne(c: char, p: char, with: string)
    ensures ReplaceAll([c], p, with) == if c == p then with else [c]
  {
    assert [c][1..] == "";
  }

  lemma ReplaceTwo(b: char, c: char, p: char, with: string)
    ensures ReplaceAll([b, c], p, with) == (if b == p then with else [b]) + (if c == p then with else [c])
  {
    assert [b, c][1..] == [c];
    ReplaceOne(c, p, with);
  }

  lemma RewriteChar(c: char)
    ensures Rewrite([c]) == EscapeChar(c)
  {
    ReplaceOne(c, '\\', "\\\\");
    ReplaceOne(c, '"', "\\\"");
    ReplaceOne(c, '$', "\\$");
    ReplaceOne(c, '`', "\\`");
    ReplaceTwo('\\', '\\', '"', "\\\"");
    ReplaceTwo('\\', c, '"', "\\\"");
    ReplaceTwo('\\', c, '$', "\\$");
    ReplaceTwo('\\', c, '`', "\\`");
  }

  /** The four replacements are one escape per character. */
  lemma {:induction false} RewriteIsEscape(s: string)
    ensures Rewrite(s) == Escape(s)
  {
    if s != "" {
      assert s == [s[0]] + s[1..];
      RewriteConcat([s[0]], s[1..]);
      RewriteChar(s[0]);
      RewriteIsEscape(s[1..]);
    }
  }

  lemma {:induction false} ReadEscaped(s: string, left: string)
    ensures ReadQuoted(Escape(s) + "\"" + left) == Some((s, left))
  {
    if s == "" {
      assert Escape(s) + "\"" + left == "\"" + left;
    } else {
      var rest := Escape(s[1..]) + "\"" + left;
      assert Escape(s) + "\"" + left == EscapeChar(s[0]) + rest;
      ReadEscaped(s[1..], left);
      assert s == [s[0]] + s[1..];
      if IsSpecial(s[0]) {
        assert (EscapeChar(s[0]) + rest)[2..] == rest;
      } else {
        assert (EscapeChar(s[0]) + rest)[1..] == rest;
      }
    }
  }

  /** The shell reads a quoted argument as exactly the string that was quoted, whatever it holds. */
  lemma QuoteRoundTrip(s: string)
    ensures ReadWord(Quote(s)) == Some(s)
    ensures Quote(s) == "\"" + Escape(s) + "\""
  {
    RewriteIsEscape(s);
    ReadEscaped(s, "");
    assert Quote(s)[1..] == Escape(s) + "\"" + "";
  }

  /** In a command line the quoted argument ends where its closing quote is: what follows is read as it stands. */
  lemma QuoteInContext(s: string, after: string)
    ensures |Quote(s)| >= 2 && ReadQuoted((Quote(s) + after)[1..]) == Some((s, after))
  {
    RewriteIsEscape(s);
    ReadEscaped(s, after);
    assert (Quote(s) + after)[1..] == Escape(s) + "\"" + after;
  }
}
