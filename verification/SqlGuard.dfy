/** `SQLGuard`: what it lets through, it lets through unchanged a second time; its comment check
    decides nothing. Letters, digits and whitespace are those of ASCII. */
module SqlGuard {
  import opened JsonValues
  import opened Texts

  // ---------- Text ----------

  predicate IsWordChar(c: char) {
    ('a' <= c <= 'z') || ('A' <= c <= 'Z') || ('0' <= c <= '9') || c == '_'
  }

  function UpperChar(c: char): char {
    if 'a' <= c <= 'z' then ((c as int) - 32) as char else c
  }

  function Upper(s: string): string {
    seq(|s|, i requires 0 <= i < |s| => UpperChar(s[i]))
  }

  function DropSemicolons(s: string): string {
    if s != "" && s[|s| - 1] == ';' then DropSemicolons(s[..|s| - 1]) else s
  }

  /** `word` stands at position `i`, with a word boundary on either side. */
  predicate WordAt(text: string, word: string, i: nat) {
    && PartAt(text, word, i)
    && (i == 0 || !IsWordChar(text[i - 1]))
    && (i + |word| == |text| || !IsWordChar(text[i + |word|]))
  }

  /** `re.search(r'\bword\b', text)`. */
  predicate HasWord(text: string, word: string) {
    exists i | 0 <= i <= |text| :: WordAt(text, word, i)
  }

  /** `text.split()[0]` of a text that does not start with whitespace. */
  function FirstWord(text: string): string {
    if text == "" || IsSpace(text[0]) then "" else [text[0]] + FirstWord(text[1..])
  }

  // ---------- Comments ----------

  /** The first position from `from` on where `a` is followed by `b`. */
  function FindPair(s: string, a: char, b: char, from: nat): (r: Option<nat>)
    ensures r.Some? ==> from <= r.value && r.value + 2 <= |s| && s[r.value] == a && s[r.value + 1] == b
    decreases |s| - from
  {
    if from + 2 > |s| then None
    else if s[from] == a && s[from + 1] == b then Some(from) else FindPair(s, a, b, from + 1)
  }

  function LineComments(lines: seq<string>): seq<string> {
    if lines == [] then []
    else
      var line := lines[|lines| - 1];
      var dashes := FindPair(line, '-', '-', 0);
      LineComments(lines[..|lines| - 1]) + if dashes.Some? then [line[dashes.value + 2..]] else []
  }

  /** The groups of `finditer(r'/\*(.*?)\*\/')` from position `from` on. */
  function BlockComments(s: string, from: nat): seq<string>
    decreases |s| - from
  {
    var open := FindPair(s, '/', '*', from);
    if open.None? then []
    else
      var close := FindPair(s, '*', '/', open.value + 2);
      if close.None? then [] else [s[open.value + 2..close.value]] + BlockComments(s, close.value + 2)
  }

  function Comments(s: string): seq<string> {
    LineComments(Split(s, '\n')) + BlockComments(s, 0)
  }

  function Join(parts: seq<string>): string {
    if parts == [] then ""
    else if |parts| == 1 then parts[0] else parts[0] + " " + Join(parts[1..])
  }

  /** `_extract_comment_text`. */
  method ExtractCommentText(sql: string) returns (text: string)
    ensures text == Join(Comments(sql))
  {
    var parts: seq<string> := [];
    var lines := Split(sql, '\n');
    for i := 0 to |lines|
      invariant parts == LineComments(lines[..i])
    {
      var dashes := FindPair(lines[i], '-', '-', 0);
      assert lines[..i + 1][..i] == lines[..i];
      if dashes.Some? {
        parts := parts + [lines[i][dashes.value + 2..]];
      }
    }
    assert lines[..|lines|] == lines;
    var blocks := FindBlocks(sql);
    text := Join(parts + blocks);
  }

  /** The blocks from `from` on, as the loop finds them. */
  lemma NextBlock(s: string, from: nat, blocks: seq<string>, open: Option<nat>, close: Option<nat>) returns (rest: seq<string>)
    requires blocks == BlockComments(s, from) && open == FindPair(s, '/', '*', from)
    requires close == if open.Some? then FindPair(s, '*', '/', open.value + 2) else None
    ensures close.None? ==> blocks == []
    ensures close.Some? ==> blocks == [s[open.value + 2..close.value]] + rest && rest == BlockComments(s, close.value + 2)
  {
    rest := if close.Some? then BlockComments(s, close.value + 2) else [];
  }

  /** The `finditer` loop. */
  method FindBlocks(sql: string) returns (blocks: seq<string>)
    ensures blocks == BlockComments(sql, 0)
  {
    blocks := [];
    ghost var all := BlockComments(sql, 0);
    ghost var rest := all;
    var from: nat := 0;
    var searching := true;
    while searching
      invariant rest == BlockComments(sql, from) && all == blocks + rest && (!searching ==> rest == [])
      decreases searching, |sql| - from
    {
      var open := FindPair(sql, '/', '*', from);
      var close := if open.Some? then FindPair(sql, '*', '/', open.value + 2) else None;
      ghost var after := NextBlock(sql, from, rest, open, close);
      if close.Some? {
        var part := sql[open.value + 2..close.value];
        assert blocks + ([part] + after) == (blocks + [part]) + after;
        blocks, from, rest := blocks + [part], close.value + 2, after;
      } else {
        searching := false;
      }
    }
  }

  // ---------- The guard ----------

  const BLOCKED_KEYWORDS: seq<string> := ["DELETE", "UPDATE", "INSERT", "DROP", "TRUNCATE", "ALTER", "CREATE", "PRAGMA"]

  predicate HasBlockedKeyword(text: string) {
    exists k | 0 <= k < |BLOCKED_KEYWORDS| :: HasWord(text, BLOCKED_KEYWORDS[k])
  }

  datatype Denial = Empty | MultiStatement | CommentKeyword | Keyword | NotSelect | CteWithoutSelect

  datatype Verdict = Allowed(sql: string) | Denied(why: Denial)

  predicate MultipleStatements(sql: string) {
    ';' in DropSemicolons(RightStrip(sql))
  }

  function EnsureLimit(sql: string): string {
    if HasWord(Upper(sql), "LIMIT") then sql else Strip(DropSemicolons(sql)) + " LIMIT 100;"
  }

  /** `check` after the comment check. */
  function CheckStatement(stripped: string): Verdict {
    var first := FirstWord(Upper(stripped));
    if HasBlockedKeyword(Upper(stripped)) then Denied(Keyword)
    else if first != "SELECT" && first != "WITH" then Denied(NotSelect)
    else if first == "WITH" && !Contains(Upper(stripped), "SELECT") then Denied(CteWithoutSelect)
    else Allowed(EnsureLimit(stripped))
  }

  function Check(sql: string): Verdict {
    var stripped := Strip(sql);
    if stripped == "" then Denied(Empty)
    else if MultipleStatements(stripped) then Denied(MultiStatement)
    else if HasBlockedKeyword(Upper(Join(Comments(stripped)))) then Denied(CommentKeyword)
    else CheckStatement(stripped)
  }

  /** `check` with the comment check left out. */
  function CheckWithoutComments(sql: string): Verdict {
    var stripped := Strip(sql);
    if stripped == "" then Denied(Empty)
    else if MultipleStatements(stripped) then Denied(MultiStatement)
    else CheckStatement(stripped)
  }

  // ---------- The comment check decides nothing ----------

  /** `part` stands in `s` at `at`, between characters that belong to no word. */
  predicate Enclosed(s: string, part: string, at: nat) {
    && PartAt(s, part, at)
    && (at == 0 || !IsWordChar(s[at - 1]))
    && (at + |part| == |s| || !IsWordChar(s[at + |part|]))
  }

  lemma PartOfPart(s: string, part: string, at: nat, inner: string, i: nat)
    requires PartAt(s, part, at) && PartAt(part, inner, i)
    ensures PartAt(s, inner, at + i)
  {
    forall k | 0 <= k < |inner| ensures s[at + i + k] == inner[k] {
      assert part[i + k] == part[i..i + |inner|][k];
      assert s[at + i + k] == s[at..at + |part|][i + k];
    }
  }

  lemma WordInPart(s: string, part: string, at: nat, word: string, i: nat)
    requires Enclosed(s, part, at) && WordAt(part, word, i)
    ensures WordAt(s, word, at + i)
  {
    PartOfPart(s, part, at, word, i);
    assert i > 0 ==> s[at + i - 1] == s[at..at + |part|][i - 1];
    assert i + |word| < |part| ==> s[at + i + |word|] == s[at..at + |part|][i + |word|];
  }

  lemma {:induction false} LineIsEnclosed(s: string, lines: seq<string>, j: nat) returns (at: nat)
    requires lines == Split(s, '\n') && j < |lines|
    ensures Enclosed(s, lines[j], at) && (j == 0 <==> at == 0)
    ensures j > 0 ==> s[at - 1] == '\n'
    decreases |s|
  {
    at := 0;
    if s != "" {
      var tail, rest := s[1..], Split(s[1..], '\n');
      if s[0] == '\n' {
        assert lines == [""] + rest;
        if j > 0 {
          var m: nat := j - 1;
          at := LineIsEnclosed(tail, rest, m);
          EnclosedInTail(s, rest[m], at);
          at := at + 1;
        }
      } else {
        assert lines == [[s[0]] + rest[0]] + rest[1..];
        at := LineIsEnclosed(tail, rest, j);
        if j == 0 {
          FirstLine(s, rest[0]);
        } else {
          EnclosedInTail(s, rest[j], at);
          at := at + 1;
        }
      }
    }
  }

  lemma EnclosedInTail(s: string, part: string, at: nat)
    requires s != "" && Enclosed(s[1..], part, at) && (at == 0 ==> s[0] == '\n')
    ensures Enclosed(s, part, at + 1) && (at > 0 ==> s[at] == s[1..][at - 1])
  {
    PartOfPart(s, s[1..], 1, part, at);
  }

  lemma FirstLine(s: string, part: string)
    requires s != "" && Enclosed(s[1..], part, 0)
    ensures Enclosed(s, [s[0]] + part, 0)
  {
    assert s[0..1 + |part|] == [s[0]] + s[1..][0..|part|];
  }

  lemma {:induction false} LineCommentIsEnclosed(s: string, lines: seq<string>, n: nat, j: nat) returns (at: nat)
    requires lines == Split(s, '\n') && n <= |lines| && j < |LineComments(lines[..n])|
    ensures Enclosed(s, LineComments(lines[..n])[j], at)
  {
    var m: nat := n - 1;
    assert lines[..n][..m] == lines[..m];
    if j < |LineComments(lines[..m])| {
      at := LineCommentIsEnclosed(s, lines, m, j);
    } else {
      var start := LineIsEnclosed(s, lines, m);
      var dashes := FindPair(lines[m], '-', '-', 0).value;
      at := start + dashes + 2;
      RestIsEnclosed(s, lines[m], start, dashes);
    }
  }

  lemma RestIsEnclosed(s: string, line: string, start: nat, dashes: nat)
    requires Enclosed(s, line, start) && dashes + 2 <= |line| && line[dashes + 1] == '-'
    ensures Enclosed(s, line[dashes + 2..], start + dashes + 2)
  {
    PartOfPart(s, line, start, line[dashes + 2..], dashes + 2);
    assert s[start + dashes + 1] == s[start..start + |line|][dashes + 1];
  }

  lemma {:induction false} BlockCommentIsEnclosed(s: string, from: nat, blocks: seq<string>, j: nat) returns (at: nat)
    requires blocks == BlockComments(s, from) && j < |blocks|
    ensures Enclosed(s, blocks[j], at)
    decreases |s| - from
  {
    var open := FindPair(s, '/', '*', from).value;
    var close := FindPair(s, '*', '/', open + 2).value;
    var part, rest := s[open + 2..close], BlockComments(s, close + 2);
    assert blocks == [part] + rest;
    if j == 0 {
      at := open + 2;
    } else {
      var m: nat := j - 1;
      at := BlockCommentIsEnclosed(s, close + 2, rest, m);
    }
  }

  lemma CommentIsEnclosed(s: string, j: nat) returns (at: nat)
    requires j < |Comments(s)|
    ensures Enclosed(s, Comments(s)[j], at)
  {
    var lines := Split(s, '\n');
    assert lines[..|lines|] == lines;
    if j < |LineComments(lines)| {
      at := LineCommentIsEnclosed(s, lines, |lines|, j);
    } else {
      var m: nat := j - |LineComments(lines)|;
      at := BlockCommentIsEnclosed(s, 0, BlockComments(s, 0), m);
    }
  }

  /** A word without spaces that stands in the joined text stands in one of the parts. */
  lemma {:induction false} WordInJoin(parts: seq<string>, text: string, word: string, i: nat) returns (j: nat, k: nat)
    requires text == Join(parts) && word != "" && ' ' !in word && WordAt(Upper(text), word, i)
    ensures j < |parts| && WordAt(Upper(parts[j]), word, k)
    decreases |parts|
  {
    j, k := 0, i;
    if |parts| > 1 {
      var first, rest := parts[0], Join(parts[1..]);
      WordInPair(first, rest, text, word, i);
      if i > |first| {
        var m: nat := i - |first| - 1;
        j, k := WordInJoin(parts[1..], rest, word, m);
        j := j + 1;
      }
    } else {
      assert parts == [] ==> text == "";
    }
  }

  lemma WordInPair(first: string, rest: string, pair: string, word: string, i: nat)
    requires pair == first + " " + rest && word != "" && ' ' !in word && WordAt(Upper(pair), word, i)
    ensures i <= |first| ==> WordAt(Upper(first), word, i)
    ensures i > |first| ==> WordAt(Upper(rest), word, i - |first| - 1)
  {
    var text := Upper(pair);
    NotAcross(text, word, i, |first|);
    if i <= |first| {
      assert Upper(first) == text[0..|first|];
      Within(text, 0, |first|, word, i);
    } else {
      assert Upper(rest) == text[|first| + 1..|text|];
      Within(text, |first| + 1, |text|, word, i);
    }
  }

  lemma NotAcross(text: string, word: string, i: nat, space: nat)
    requires PartAt(text, word, i) && space < |text| && text[space] !in word
    ensures !(i <= space < i + |word|)
  {
    assert forall k | 0 <= k < |word| :: text[i + k] == word[k];
  }

  /** A word that lies inside a slice is a word of the slice. */
  lemma Within(text: string, lo: nat, hi: nat, word: string, i: nat)
    requires lo <= i && i + |word| <= hi <= |text| && WordAt(text, word, i)
    ensures WordAt(text[lo..hi], word, i - lo)
  {
    var part := text[lo..hi];
    forall k | 0 <= k < |word| ensures part[i - lo + k] == word[k] {
      assert text[i..i + |word|][k] == word[k];
    }
    assert part[i - lo..i - lo + |word|] == word;
  }

  lemma UpperEnclosed(s: string, part: string, at: nat)
    requires Enclosed(s, part, at)
    ensures Enclosed(Upper(s), Upper(part), at)
  {
    forall k | 0 <= k < |part| ensures Upper(s)[at + k] == Upper(part)[k] {
      assert s[at + k] == s[at..at + |part|][k];
    }
  }

  /** A blocked keyword in the comment text is a blocked keyword of the statement. */
  lemma CommentWordIsWord(s: string, word: string)
    requires word != "" && ' ' !in word && HasWord(Upper(Join(Comments(s))), word)
    ensures HasWord(Upper(s), word)
  {
    var comments := Comments(s);
    var i :| 0 <= i <= |Upper(Join(comments))| && WordAt(Upper(Join(comments)), word, i);
    var j, k := WordInJoin(comments, Join(comments), word, i);
    var at := CommentIsEnclosed(s, j);
    UpperEnclosed(s, comments[j], at);
    WordInPart(Upper(s), Upper(comments[j]), at, word, k);
  }

  lemma CommentKeywordIsKeyword(s: string)
    requires HasBlockedKeyword(Upper(Join(Comments(s))))
    ensures HasBlockedKeyword(Upper(s))
  {
    var n :| 0 <= n < |BLOCKED_KEYWORDS| && HasWord(Upper(Join(Comments(s))), BLOCKED_KEYWORDS[n]);
    CommentWordIsWord(s, BLOCKED_KEYWORDS[n]);
  }

  /** Without the comment check the guard allows and denies the same texts, with the same SQL. */
  lemma CommentCheckIsRedundant(sql: string)
    ensures Check(sql).Allowed? <==> CheckWithoutComments(sql).Allowed?
    ensures Check(sql).Allowed? ==> Check(sql) == CheckWithoutComments(sql)
  {
    if HasBlockedKeyword(Upper(Join(Comments(Strip(sql))))) {
      CommentKeywordIsKeyword(Strip(sql));
    }
  }

  // ---------- A second check changes nothing ----------

  lemma {:induction false} DropSemicolonsIs(s: string)
    ensures DropSemicolons(s) <= s && forall i | |DropSemicolons(s)| <= i < |s| :: s[i] == ';'
  {
    if s != "" && s[|s| - 1] == ';' {
      DropSemicolonsIs(s[..|s| - 1]);
    }
  }

  /** `w` is `t` without its trailing semicolons and whitespace. */
  predicate Trims(t: string, w: string) {
    && w != "" && w <= t && Stripped(w) && ';' !in w
    && forall i | |w| <= i < |t| :: t[i] == ';' || IsSpace(t[i])
  }

  lemma TrimmedIs(t: string)
    requires t != "" && Stripped(t) && t[0] != ';' && !MultipleStatements(t)
    ensures Trims(t, Strip(DropSemicolons(t)))
  {
    var d := DropSemicolons(t);
    RightStripIs(t);
    assert RightStrip(t) == t;
    DropSemicolonsIs(t);
    LeftStripIs(d);
    assert LeftStrip(d) == d;
    RightStripIs(d);
  }

  lemma {:induction false} FirstWordIs(text: string, word: string)
    requires forall i | 0 <= i < |word| :: !IsSpace(word[i])
    ensures FirstWord(text) == word <==> word <= text && (|text| == |word| || IsSpace(text[|word|]))
  {
    if word != "" && text != "" && !IsSpace(text[0]) {
      FirstWordIs(text[1..], word[1..]);
      assert word == [word[0]] + word[1..] && text == [text[0]] + text[1..];
    }
  }

  /** The text with the limit appended. */
  function Limited(w: string): string {
    w + " LIMIT 100;"
  }

  /** A run of word characters in `t` survives the trimming. */
  lemma TrimmingKeepsPart(t: string, w: string, part: string, i: nat)
    requires Trims(t, w) && PartAt(Upper(t), part, i) && part != ""
    requires forall k | 0 <= k < |part| :: IsWordChar(part[k])
    ensures PartAt(Upper(Limited(w)), part, i) && i + |part| <= |w|
  {
    assert forall k | 0 <= k < |part| :: Upper(t)[i + k] == part[k];
    var last := |part| - 1;
    assert Upper(t)[i + last] == part[last] && IsWordChar(t[i + last]);
    forall k | 0 <= k < |part| ensures Upper(Limited(w))[i + k] == part[k] {
    }
    assert Upper(Limited(w))[i..i + |part|] == part;
  }

  lemma LimitedKeepsFirstWord(t: string, w: string, word: string)
    requires Trims(t, w) && FirstWord(Upper(t)) == word && word != "" && forall i | 0 <= i < |word| :: IsWordChar(word[i])
    ensures FirstWord(Upper(Limited(w))) == word
  {
    FirstWordIs(Upper(t), word);
    FirstWordIs(Upper(Limited(w)), word);
    TrimmingKeepsPart(t, w, word, 0);
    if |word| < |w| {
      assert Upper(Limited(w))[|word|] == Upper(t)[|word|];
    }
  }

  lemma LimitedHasLimit(w: string)
    ensures HasWord(Upper(Limited(w)), "LIMIT")
  {
    var text := Upper(Limited(w));
    assert text[|w| + 1..|w| + 6] == "LIMIT";
    assert WordAt(text, "LIMIT", |w| + 1);
  }

  /** No two adjacent letters of the appended text are the first two of `word`. */
  predicate Foreign(word: string) {
    && |word| >= 4 && (forall i | 0 <= i < |word| :: IsWordChar(word[i]))
    && forall k | 0 <= k < 9 :: "LIMIT 100;"[k] != word[0] || "LIMIT 100;"[k + 1] != word[1]
  }

  lemma StartsAt(text: string, word: string, i: nat)
    requires |word| >= 2 && PartAt(text, word, i)
    ensures text[i] == word[0] && text[i + 1] == word[1]
  {
    assert text[i..i + |word|][0] == word[0] && text[i..i + |word|][1] == word[1];
  }

  lemma NotInSuffix(w: string, word: string, i: nat)
    requires Foreign(word) && |w| < i
    ensures !WordAt(Upper(Limited(w)), word, i)
  {
    var text := Upper(Limited(w));
    assert text[|w| + 1..] == "LIMIT 100;";
    assert forall k | 0 <= k < 10 :: text[|w| + 1 + k] == "LIMIT 100;"[k];
    if PartAt(text, word, i) {
      StartsAt(text, word, i);
    }
  }

  lemma LimitedAddsNoWord(t: string, w: string, word: string)
    requires Trims(t, w) && Foreign(word) && HasWord(Upper(Limited(w)), word)
    ensures HasWord(Upper(t), word)
  {
    var text := Upper(Limited(w));
    var i :| 0 <= i <= |text| && WordAt(text, word, i);
    if |w| < i {
      NotInSuffix(w, word, i);
    } else {
      NotAcross(text, word, i, |w|);
      Within(text, 0, |w|, word, i);
      assert text[0..|w|] == Upper(w);
      TrimIsEnclosed(t, w);
      WordInPart(Upper(t), Upper(w), 0, word, i);
    }
  }

  lemma TrimIsEnclosed(t: string, w: string)
    requires Trims(t, w)
    ensures Enclosed(Upper(t), Upper(w), 0)
  {
    assert Upper(t)[0..|w|] == Upper(w);
  }

  lemma KeywordsAreForeign(n: nat)
    requires n < |BLOCKED_KEYWORDS|
    ensures Foreign(BLOCKED_KEYWORDS[n])
  {
    if n < 4 {
      assert Foreign("DELETE") && Foreign("UPDATE") && Foreign("INSERT") && Foreign("DROP");
    } else {
      assert Foreign("TRUNCATE") && Foreign("ALTER") && Foreign("CREATE") && Foreign("PRAGMA");
    }
  }

  lemma LimitedAddsNoKeyword(t: string, w: string)
    requires Trims(t, w) && HasBlockedKeyword(Upper(Limited(w)))
    ensures HasBlockedKeyword(Upper(t))
  {
    var n :| 0 <= n < |BLOCKED_KEYWORDS| && HasWord(Upper(Limited(w)), BLOCKED_KEYWORDS[n]);
    KeywordsAreForeign(n);
    LimitedAddsNoWord(t, w, BLOCKED_KEYWORDS[n]);
  }

  lemma LimitedKeepsPart(t: string, w: string)
    requires Trims(t, w) && Contains(Upper(t), "SELECT")
    ensures Contains(Upper(Limited(w)), "SELECT")
  {
    var i :| 0 <= i <= |Upper(t)| && PartAt(Upper(t), "SELECT", i);
    TrimmingKeepsPart(t, w, "SELECT", i);
  }

  lemma LimitedIsOneStatement(w: string)
    requires ';' !in w && w != "" && Stripped(w)
    ensures Stripped(Limited(w)) && !MultipleStatements(Limited(w))
  {
    var text := Limited(w);
    StripIs(text);
    RightStripIs(text);
    assert RightStrip(text) == text;
    assert text[..|text| - 1] == w + " LIMIT 100";
    assert DropSemicolons(text) == w + " LIMIT 100";
  }

  lemma LimitedIsAllowed(t: string, w: string)
    requires Trims(t, w) && Stripped(t) && CheckStatement(t).Allowed?
    ensures CheckWithoutComments(Limited(w)) == Allowed(Limited(w))
  {
    var text := Limited(w);
    LimitedIsOneStatement(w);
    StripIs(text);
    if HasBlockedKeyword(Upper(text)) {
      LimitedAddsNoKeyword(t, w);
    }
    LimitedKeepsFirstWord(t, w, FirstWord(Upper(t)));
    if FirstWord(Upper(t)) == "WITH" {
      LimitedKeepsPart(t, w);
    }
    LimitedHasLimit(w);
  }

  lemma StrippedIsIdempotent(t: string)
    requires t != "" && Stripped(t) && !MultipleStatements(t) && CheckStatement(t).Allowed?
    ensures CheckWithoutComments(EnsureLimit(t)) == Allowed(EnsureLimit(t))
  {
    StripIs(t);
    if !HasWord(Upper(t), "LIMIT") {
      assert t[0] != ';' by {
        FirstWordIs(Upper(t), FirstWord(Upper(t)));
        assert FirstWord(Upper(t))[0] == Upper(t)[0];
      }
      TrimmedIs(t);
      LimitedIsAllowed(t, Strip(DropSemicolons(t)));
    }
  }

  /** What the guard allowed it allows again, unchanged. */
  lemma CheckIsIdempotent(sql: string)
    ensures Check(sql).Allowed? ==> Check(Check(sql).sql) == Check(sql)
  {
    if Check(sql).Allowed? {
      StripIs(sql);
      StrippedIsIdempotent(Strip(sql));
      CommentCheckIsRedundant(EnsureLimit(Strip(sql)));
    }
  }
}
