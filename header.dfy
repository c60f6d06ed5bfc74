/**
 * Recognition of a GraphQL operation header line with the pattern
 * `(?:query|mutation) (\w*) ?` applied by `re.match`: anchored at the start
 * of the line, case-sensitive, with exactly one space after the keyword.
 */
module OperationHeader {
  import opened Wrappers

  /** `\w` restricted to ASCII: letters, digits and '_'. */
  predicate IsWordChar(c: char) {
    ('a' <= c <= 'z') || ('A' <= c <= 'Z') || ('0' <= c <= '9') || c == '_'
  }

  predicate AllWordChars(s: string) {
    forall k :: 0 <= k < |s| ==> IsWordChar(s[k])
  }

  /** The greedy `(\w*)`: the longest prefix of `s` made of word characters. */
  function WordRun(s: string): (r: string)
    ensures r <= s
    ensures AllWordChars(r)
    ensures |r| < |s| ==> !IsWordChar(s[|r|])
  {
    if |s| > 0 && IsWordChar(s[0]) then [s[0]] + WordRun(s[1..]) else []
  }

  /** The operation name captured from `line`, or None when the pattern does not match. */
  function Header(line: string): Option<string> {
    if "query " <= line then Some(WordRun(line[|"query "|..]))
    else if "mutation " <= line then Some(WordRun(line[|"mutation "|..]))
    else None
  }

  /**
   * `line` is `keyword` followed by `name`, and `name` cannot be extended:
   * the line ends or continues with a non-word character.
   */
  predicate HeaderWith(line: string, keyword: string, name: string) {
    && keyword + name <= line
    && AllWordChars(name)
    && (|line| == |keyword| + |name| || !IsWordChar(line[|keyword| + |name|]))
  }

  /** A run of word characters that the text does not continue is what `WordRun` captures. */
  lemma {:induction false} WordRunOfMaximal(name: string, s: string)
    requires name <= s && AllWordChars(name)
    requires |s| == |name| || !IsWordChar(s[|name|])
    ensures WordRun(s) == name
  {
    if name != [] {
      WordRunOfMaximal(name[1..], s[1..]);
    }
  }

  /**
   * A line is a header naming `name` exactly when it starts with "query " or
   * "mutation " (lower case, one space) followed by the maximal run of word
   * characters `name`, which may be empty.
   */
  lemma HeaderCharacterization(line: string, name: string)
    ensures Header(line) == Some(name) <==> HeaderWith(line, "query ", name) || HeaderWith(line, "mutation ", name)
  {
    if HeaderWith(line, "query ", name) {
      WordRunOfMaximal(name, line[|"query "|..]);
    } else if HeaderWith(line, "mutation ", name) {
      assert line[0] == 'm';
      WordRunOfMaximal(name, line[|"mutation "|..]);
    }
    if Header(line) == Some(name) {
      if "query " <= line {
        assert line[..|"query "| + |name|] == "query " + name;
      } else {
        assert line[..|"mutation "| + |name|] == "mutation " + name;
      }
    }
  }

  /** A header is recognised if and only if the line starts with one of the two keywords and a space. */
  lemma HeaderIffKeyword(line: string)
    ensures Header(line).Some? <==> "query " <= line || "mutation " <= line
  {
  }

  /** Capitalised keywords and a missing space after the keyword are not headers. */
  lemma NotHeaders()
    ensures Header("Query X") == None
    ensures Header("query{") == None
    ensures Header("  query X") == None
  {
    assert !("query " <= "Query X") by { assert "Query X"[0] != 'q'; }
    assert !("mutation " <= "Query X") by { assert "Query X"[0] != 'm'; }
    assert !("query " <= "query{") by { assert "query{"[5] != ' '; }
    assert !("mutation " <= "query{") by { assert "query{"[0] != 'm'; }
    assert !("query " <= "  query X") by { assert "  query X"[0] != 'q'; }
    assert !("mutation " <= "  query X") by { assert "  query X"[0] != 'm'; }
  }

  /** Text after a line break changes neither whether the line starts with `keyword` nor the name after it. */
  lemma KeywordBeforeLineBreak(keyword: string, line: string, rest: string)
    requires '\n' !in keyword && '\n' !in line
    ensures keyword <= line + "\n" + rest <==> keyword <= line
    ensures keyword <= line ==> WordRun((line + "\n" + rest)[|keyword|..]) == WordRun(line[|keyword|..])
  {
    var t := line + "\n" + rest;
    if |line| < |keyword| {
      var k := |line|;
      assert t[k] == '\n';
      assert keyword[k] != '\n';
    }
    if keyword <= t && |line| >= |keyword| {
      assert line[..|keyword|] == t[..|keyword|];
    }
    if keyword <= line {
      var name := WordRun(line[|keyword|..]);
      assert t[|keyword|..] == line[|keyword|..] + "\n" + rest;
      WordRunOfMaximal(name, t[|keyword|..]);
    }
  }

  /**
   * What is captured from a region of several lines is what is captured from
   * its first line: the keyword and its space hold no line break, and the
   * name stops at one.
   */
  lemma HeaderStopsAtLineBreak(line: string, rest: string)
    requires '\n' !in line
    ensures Header(line + "\n" + rest) == Header(line)
  {
    KeywordBeforeLineBreak("query ", line, rest);
    KeywordBeforeLineBreak("mutation ", line, rest);
  }
}
