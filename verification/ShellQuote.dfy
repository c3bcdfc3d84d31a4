/**
  Quoting words for a shell command line (src/cli.rs:2024-2038), read back by the
  rules of sections 2.2.1 and 2.2.2 of the POSIX.1-2017 Shell Command Language.
 */
module ShellQuote {
  import opened Layout
  import opened Manifests

  /** Each single quote closes the quotes, stands escaped, and opens them again. */
  function Escaped(value: string): string {
    if value == "" then "" else (if value[0] == '\'' then "'\\''" else [value[0]]) + Escaped(value[1..])
  }

  function Quote(value: string): string { if value == "" then "''" else "'" + Escaped(value) + "'" }

  function JoinQuoted(words: seq<string>): string {
    if words == [] then ""
    else if |words| == 1 then Quote(words[0])
    else Quote(words[0]) + " " + JoinQuoted(words[1..])
  }

  // ------------------------------------------------------------ the shell

  datatype Lexer = Blank | InWord(word: string) | Quoted(word: string)

  function WordOf(state: Lexer): string { if state == Blank then "" else state.word }

  /** Unquoted, these mean something this reading does not cover. */
  predicate Special(c: char) { c in "|&;<>()$`\"*?[]#~=%!{}\n" }

  /** The words of a command line, or None where it is incomplete or uses more than quoting. */
  function Lex(text: string, state: Lexer): Option<seq<string>>
    decreases |text|
  {
    if text == "" then
      match state
      case Blank => Some([])
      case InWord(word) => Some([word])
      case Quoted(_) => None
    else
      var c, rest := text[0], text[1..];
      if state.Quoted? then
        // section 2.2.2: everything up to the closing quote stands for itself
        if c == '\'' then Lex(rest, InWord(state.word)) else Lex(rest, Quoted(state.word + [c]))
      else if c == ' ' || c == '\t' then
        if state == Blank then Lex(rest, Blank)
        else
          match Lex(rest, Blank)
          case None => None
          case Some(words) => Some([state.word] + words)
      else if c == '\'' then Lex(rest, Quoted(WordOf(state)))
      else if c == '\\' then
        // section 2.2.1: the next character stands for itself, a newline for nothing
        if rest == "" then None
        else if rest[0] == '\n' then Lex(rest[1..], state)
        else Lex(rest[1..], InWord(WordOf(state) + [rest[0]]))
      else if Special(c) then None
      else Lex(rest, InWord(WordOf(state) + [c]))
  }

  ghost predicate IsMeta(c: char) {
    || c == '|' || c == '&' || c == ';' || c == '<' || c == '>' || c == '(' || c == ')' || c == '$' || c == '`'
    || c == '"' || c == '*' || c == '?' || c == '[' || c == '#' || c == '~' || c == '=' || c == '%' || c == '\n'
  }

  lemma MetaIsSpecial(c: char)
    requires IsMeta(c)
    ensures Special(c) && c != ' ' && c != '\t' && c != '\'' && c != '\\'
  {
  }

  /** Outside quotes, an operator, an expansion or a pattern is not taken for a word. */
  lemma MetaIsNotAWord(c: char, rest: string, state: Lexer)
    requires !state.Quoted? && IsMeta(c)
    ensures Lex([c] + rest, state) == None
  {
    hide IsMeta, Special;
    MetaIsSpecial(c);
    assert ([c] + rest)[0] == c;
  }

  lemma {:induction false} LexEscaped(value: string, rest: string, word: string)
    ensures Lex(Escaped(value) + "'" + rest, Quoted(word)) == Lex(rest, InWord(word + value))
    decreases |value|
  {
    var text := Escaped(value) + "'" + rest;
    if value == "" {
      assert text[0] == '\'' && text[1..] == rest && word + value == word;
    } else {
      var c, tail := value[0], Escaped(value[1..]) + "'" + rest;
      LexEscaped(value[1..], rest, word + [c]);
      assert word + [c] + value[1..] == word + value;
      if c == '\'' {
        assert text == "'\\''" + tail;
        LexQuotedQuote(tail, word);
      } else {
        assert text == [c] + tail && text[1..] == tail;
      }
    }
  }

  lemma LexQuotedQuote(tail: string, word: string)
    ensures Lex("'\\''" + tail, Quoted(word)) == Lex(tail, Quoted(word + ['\'']))
  {
    var a, b, c := "\\''" + tail, "''" + tail, "'" + tail;
    assert ("'\\''" + tail)[1..] == a && a[1..] == b && b[1..] == c && c[1..] == tail;
    assert Lex("'\\''" + tail, Quoted(word)) == Lex(a, InWord(word));
    assert a[0] == '\\' && a[1..][0] == '\'';
    assert Lex(a, InWord(word)) == Lex(c, InWord(word + ['\'']));
  }

  /** A quoted value is one word, or the end of one, whatever characters it holds. */
  lemma LexQuote(value: string, rest: string, state: Lexer)
    requires !state.Quoted?
    ensures Lex(Quote(value) + rest, state) == Lex(rest, InWord(WordOf(state) + value))
  {
    var text, tail := Quote(value) + rest, Escaped(value) + "'" + rest;
    assert text == "'" + tail && text[1..] == tail;
    LexEscaped(value, rest, WordOf(state));
  }

  /** The shell reads back exactly the words that were quoted and joined. */
  lemma {:induction false} QuotingRoundTrip(words: seq<string>)
    ensures Lex(JoinQuoted(words), Blank) == Some(words)
    decreases |words|
  {
    hide Quote, Special;
    if words != [] {
      var rest := if |words| == 1 then "" else " " + JoinQuoted(words[1..]);
      assert JoinQuoted(words) == Quote(words[0]) + rest;
      LexQuote(words[0], rest, Blank);
      assert "" + words[0] == words[0];
      assert words == [words[0]] + words[1..];
      if |words| > 1 {
        assert rest[1..] == JoinQuoted(words[1..]);
        QuotingRoundTrip(words[1..]);
      } else {
        assert words == [words[0]];
      }
    }
  }

  lemma {:induction false} LexPlain(text: string, word: string)
    requires forall i :: 0 <= i < |text| ==> IsNameChar(text[i])
    ensures Lex(text, InWord(word)) == Some([word + text])
    decreases |text|
  {
    if text == "" {
      assert word + text == word;
    } else {
      NameCharIsPlain(text[0]);
      LexPlain(text[1..], word + [text[0]]);
      assert word + [text[0]] + text[1..] == word + text;
    }
  }

  lemma NameCharIsPlain(c: char)
    requires IsNameChar(c)
    ensures !Special(c) && c != ' ' && c != '\t' && c != '\'' && c != '\\'
  {
  }

  /** An instance name needs no quoting: it is one plain word as it stands. */
  lemma NameIsAWord(name: string)
    requires ValidInstanceName(name)
    ensures Lex(name, Blank) == Some([name])
  {
    NameCharIsPlain(name[0]);
    LexPlain(name[1..], [name[0]]);
    assert [name[0]] + name[1..] == name;
    assert "" + [name[0]] == [name[0]];
  }
}
