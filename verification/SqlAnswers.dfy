/** What the SQL guard lets through and what it makes of it, said of the characters of the text. */
module SqlAnswers {
  import opened Texts
  import opened SqlGuard

  /** `c` is the capital letter `l` or its small letter. */
  predicate IsLetter(c: char, l: char) {
    c == l || c as int == l as int + 32
  }

  /** `word`, a word in capitals, is spelled at position `i`, in any case. */
  predicate SpelledAt(text: string, word: string, i: nat) {
    i + |word| <= |text| && forall k | 0 <= k < |word| :: IsLetter(text[i + k], word[k])
  }

  /** No word character stands right before `i` or at `j`. */
  predicate Apart(text: string, i: nat, j: nat)
    requires i <= j <= |text|
  {
    && (i == 0 || !IsWordChar(text[i - 1]))
    && (j == |text| || !IsWordChar(text[j]))
  }

  /** `word` is a whole word of the text, in any case. */
  predicate WholeWord(text: string, word: string) {
    exists i | 0 <= i <= |text| :: SpelledAt(text, word, i) && Apart(text, i, i + |word|)
  }

  predicate Mentions(text: string, word: string) {
    exists i | 0 <= i <= |text| :: SpelledAt(text, word, i)
  }

  /** The text up to its first whitespace is `word`, in any case. */
  predicate Begins(text: string, word: string) {
    SpelledAt(text, word, 0) && (|text| == |word| || IsSpace(text[|word|]))
  }

  predicate Writes(text: string) {
    || WholeWord(text, "DELETE") || WholeWord(text, "UPDATE") || WholeWord(text, "INSERT") || WholeWord(text, "DROP")
    || WholeWord(text, "TRUNCATE") || WholeWord(text, "ALTER") || WholeWord(text, "CREATE") || WholeWord(text, "PRAGMA")
  }

  /** Only semicolons follow a semicolon. */
  predicate OneStatement(text: string) {
    forall i, j | 0 <= i < j < |text| :: text[i] == ';' ==> text[j] == ';'
  }

  /** `w` is `t` without its trailing semicolons and the whitespace before them. */
  predicate Trails(t: string, w: string, gap: string, semicolons: string) {
    && t == w + gap + semicolons && w != "" && Stripped(w) && ';' !in w && Blank(gap)
    && forall i | 0 <= i < |semicolons| :: semicolons[i] == ';'
  }

  // ---------- Semicolons ----------

  lemma {:induction false} DropSemicolonsDrops(t: string, semicolons: string)
    requires (t == "" || t[|t| - 1] != ';') && forall i | 0 <= i < |semicolons| :: semicolons[i] == ';'
    ensures DropSemicolons(t + semicolons) == t
  {
    if semicolons != "" {
      assert (t + semicolons)[..|t + semicolons| - 1] == t + semicolons[..|semicolons| - 1];
      DropSemicolonsDrops(t, semicolons[..|semicolons| - 1]);
    } else {
      assert t + semicolons == t;
    }
  }

  lemma {:induction false} DropSemicolonsEnds(s: string)
    ensures DropSemicolons(s) == "" || DropSemicolons(s)[|DropSemicolons(s)| - 1] != ';'
  {
    if s != "" && s[|s| - 1] == ';' {
      DropSemicolonsEnds(s[..|s| - 1]);
    }
  }

  lemma OneStatementIs(t: string)
    requires Stripped(t)
    ensures MultipleStatements(t) <==> !OneStatement(t)
  {
    var d := DropSemicolons(t);
    RightStripIs(t);
    RightStripDrops(t, "");
    assert t + "" == t;
    DropSemicolonsIs(t);
    DropSemicolonsEnds(t);
    if ';' in d {
      var i :| 0 <= i < |d| && d[i] == ';';
      assert t[i] == ';' && t[|d| - 1] != ';';
    } else {
      assert forall i | 0 <= i < |d| :: t[i] == d[i];
    }
  }

  lemma TrailsIs(t: string, w: string, gap: string, semicolons: string)
    requires Trails(t, w, gap, semicolons)
    ensures Strip(DropSemicolons(t)) == w
  {
    var d := w + gap;
    assert d[|d| - 1] == if gap == "" then w[|w| - 1] else gap[|gap| - 1];
    DropSemicolonsDrops(d, semicolons);
    assert Surrounds(d, "", w, gap);
    SurroundedIs(d, "", w, gap);
  }

  /** A single statement ends like that. */
  lemma HasTrail(t: string) returns (w: string, gap: string, semicolons: string)
    requires t != "" && Stripped(t) && OneStatement(t) && t[0] != ';'
    ensures Trails(t, w, gap, semicolons)
  {
    OneStatementIs(t);
    TrimmedIs(t);
    var d := DropSemicolons(t);
    DropSemicolonsIs(t);
    LeftStripIs(d);
    RightStripIs(d);
    w := Strip(d);
    gap, semicolons := d[|w|..], t[|d|..];
  }

  // ---------- Words ----------

  /** Capital letters only. */
  predicate Capital(word: string) {
    word != "" && forall k | 0 <= k < |word| :: 'A' <= word[k] <= 'Z'
  }

  lemma UpperIs(c: char, l: char)
    requires 'A' <= l <= 'Z'
    ensures UpperChar(c) == l <==> IsLetter(c, l)
  {
  }

  lemma UpperKeepsBoundaries(c: char)
    ensures IsWordChar(UpperChar(c)) <==> IsWordChar(c)
    ensures IsSpace(UpperChar(c)) <==> IsSpace(c)
  {
  }

  lemma SpelledIs(text: string, word: string, i: nat)
    requires Capital(word)
    ensures PartAt(Upper(text), word, i) <==> SpelledAt(text, word, i)
  {
    var up := Upper(text);
    if i + |word| <= |text| {
      forall k | 0 <= k < |word| ensures up[i..i + |word|][k] == word[k] <==> IsLetter(text[i + k], word[k]) {
        UpperIs(text[i + k], word[k]);
      }
    }
  }

  lemma WordIs(text: string, word: string, i: nat)
    requires Capital(word)
    ensures WordAt(Upper(text), word, i) <==> SpelledAt(text, word, i) && Apart(text, i, i + |word|)
  {
    SpelledIs(text, word, i);
    if i + |word| <= |text| {
      if i > 0 {
        UpperKeepsBoundaries(text[i - 1]);
      }
      if i + |word| < |text| {
        UpperKeepsBoundaries(text[i + |word|]);
      }
    }
  }

  lemma WholeWordIs(text: string, word: string)
    requires Capital(word)
    ensures HasWord(Upper(text), word) <==> WholeWord(text, word)
  {
    forall i: nat ensures WordAt(Upper(text), word, i) <==> SpelledAt(text, word, i) && Apart(text, i, i + |word|) {
      WordIs(text, word, i);
    }
  }

  lemma MentionsIs(text: string, word: string)
    requires Capital(word)
    ensures Contains(Upper(text), word) <==> Mentions(text, word)
  {
    forall i: nat ensures PartAt(Upper(text), word, i) <==> SpelledAt(text, word, i) {
      SpelledIs(text, word, i);
    }
  }

  lemma BeginsIs(text: string, word: string)
    requires Capital(word)
    ensures FirstWord(Upper(text)) == word <==> Begins(text, word)
  {
    var up := Upper(text);
    FirstWordIs(up, word);
    SpelledIs(text, word, 0);
    assert |up| == |text|;
    if |word| <= |text| {
      assert up[0..|word|] == up[..|word|];
      assert PartAt(up, word, 0) <==> word <= up;
    }
    if |word| < |text| {
      UpperKeepsBoundaries(text[|word|]);
    }
  }

  lemma KeywordsAre(n: nat)
    requires n < |BLOCKED_KEYWORDS|
    ensures Capital(BLOCKED_KEYWORDS[n])
  {
    if n < 4 {
      assert Capital("DELETE") && Capital("UPDATE") && Capital("INSERT") && Capital("DROP");
    } else {
      assert Capital("TRUNCATE") && Capital("ALTER") && Capital("CREATE") && Capital("PRAGMA");
    }
  }

  lemma WritesIs(text: string)
    ensures HasBlockedKeyword(Upper(text)) <==> Writes(text)
  {
    forall n: nat | n < |BLOCKED_KEYWORDS|
      ensures HasWord(Upper(text), BLOCKED_KEYWORDS[n]) <==> WholeWord(text, BLOCKED_KEYWORDS[n])
    {
      KeywordsAre(n);
      WholeWordIs(text, BLOCKED_KEYWORDS[n]);
    }
    var words := BLOCKED_KEYWORDS;
    assert words[0] == "DELETE" && words[1] == "UPDATE" && words[2] == "INSERT" && words[3] == "DROP";
    assert words[4] == "TRUNCATE" && words[5] == "ALTER" && words[6] == "CREATE" && words[7] == "PRAGMA" && |words| == 8;
  }

  // ---------- The guard's answer ----------

  lemma StatementIs(t: string)
    ensures HasBlockedKeyword(Upper(t)) <==> Writes(t)
    ensures FirstWord(Upper(t)) == "SELECT" <==> Begins(t, "SELECT")
    ensures FirstWord(Upper(t)) == "WITH" <==> Begins(t, "WITH")
    ensures Contains(Upper(t), "SELECT") <==> Mentions(t, "SELECT")
    ensures HasWord(Upper(t), "LIMIT") <==> WholeWord(t, "LIMIT")
  {
    WritesIs(t);
    assert Capital("SELECT") && Capital("WITH") && Capital("LIMIT");
    BeginsIs(t, "SELECT");
    BeginsIs(t, "WITH");
    MentionsIs(t, "SELECT");
    WholeWordIs(t, "LIMIT");
  }

  /** The guard allows exactly the single statements that begin with SELECT, or with WITH and mention
      SELECT, and have none of the eight words. */
  lemma AllowedIff(sql: string, before: string, t: string, after: string)
    requires Surrounds(sql, before, t, after)
    ensures Check(sql).Allowed? <==>
      && t != "" && OneStatement(t) && !Writes(t)
      && (Begins(t, "SELECT") || (Begins(t, "WITH") && Mentions(t, "SELECT")))
  {
    SurroundedIs(sql, before, t, after);
    OneStatementIs(t);
    CommentCheckIsRedundant(sql);
    StatementIs(t);
  }

  /** The checks answer in this order. */
  lemma DeniedBecause(sql: string, before: string, t: string, after: string)
    requires Surrounds(sql, before, t, after)
    ensures Check(sql) == Denied(Empty) <==> t == ""
    ensures Check(sql) == Denied(MultiStatement) <==> t != "" && !OneStatement(t)
    ensures Check(sql) == Denied(CommentKeyword) || Check(sql) == Denied(Keyword) <==> t != "" && OneStatement(t) && Writes(t)
    ensures Check(sql) == Denied(NotSelect) <==>
      t != "" && OneStatement(t) && !Writes(t) && !Begins(t, "SELECT") && !Begins(t, "WITH")
    ensures Check(sql) == Denied(CteWithoutSelect) <==>
      t != "" && OneStatement(t) && !Writes(t) && Begins(t, "WITH") && !Mentions(t, "SELECT")
  {
    SurroundedIs(sql, before, t, after);
    OneStatementIs(t);
    StatementIs(t);
    if HasBlockedKeyword(Upper(Join(Comments(t)))) {
      CommentKeywordIsKeyword(t);
    }
  }

  /** An allowed text with the word LIMIT is kept; any other gets the default limit in place of its
      trailing semicolons. */
  lemma AllowedSql(sql: string, before: string, t: string, after: string)
    requires Surrounds(sql, before, t, after) && Check(sql).Allowed?
    ensures WholeWord(t, "LIMIT") ==> Check(sql).sql == t
    ensures !WholeWord(t, "LIMIT") ==>
      exists w, gap, semicolons :: Trails(t, w, gap, semicolons) && Check(sql).sql == w + " LIMIT 100;"
  {
    SurroundedIs(sql, before, t, after);
    AllowedIff(sql, before, t, after);
    StatementIs(t);
    assert t[0] != ';' by {
      assert SpelledAt(t, "SELECT", 0) || SpelledAt(t, "WITH", 0);
      assert IsLetter(t[0], "SELECT"[0]) || IsLetter(t[0], "WITH"[0]);
    }
    var w, gap, semicolons := HasTrail(t);
    TrailsIs(t, w, gap, semicolons);
    CommentCheckIsRedundant(sql);
    assert Check(sql).sql == EnsureLimit(t);
  }
}
