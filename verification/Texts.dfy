/** Whitespace, stripping and substrings, as Python has them on ASCII text. */
module Texts {
  predicate IsSpace(c: char) {
    ('\t' <= c <= '\r') || (28 as char <= c <= 31 as char) || c == ' '
  }

  function LeftStrip(s: string): string {
    if s != "" && IsSpace(s[0]) then LeftStrip(s[1..]) else s
  }

  function RightStrip(s: string): string {
    if s != "" && IsSpace(s[|s| - 1]) then RightStrip(s[..|s| - 1]) else s
  }

  /** `s.strip()`. */
  function Strip(s: string): string {
    RightStrip(LeftStrip(s))
  }

  predicate PartAt(text: string, part: string, i: nat) {
    i + |part| <= |text| && text[i..i + |part|] == part
  }

  predicate Contains(text: string, part: string) {
    exists i | 0 <= i <= |text| :: PartAt(text, part, i)
  }

  /** Neither end is whitespace. */
  predicate Stripped(s: string) {
    s != "" ==> !IsSpace(s[0]) && !IsSpace(s[|s| - 1])
  }

  lemma {:induction false} LeftStripIs(s: string)
    ensures LeftStrip(s) != "" ==> !IsSpace(LeftStrip(s)[0])
    ensures Stripped(s) ==> LeftStrip(s) == s
  {
    if s != "" && IsSpace(s[0]) {
      LeftStripIs(s[1..]);
    }
  }

  lemma {:induction false} RightStripIs(s: string)
    ensures RightStrip(s) <= s && (RightStrip(s) != "" ==> !IsSpace(RightStrip(s)[|RightStrip(s)| - 1]))
    ensures forall i | |RightStrip(s)| <= i < |s| :: IsSpace(s[i])
  {
    if s != "" && IsSpace(s[|s| - 1]) {
      RightStripIs(s[..|s| - 1]);
    }
  }

  lemma StripIs(s: string)
    ensures Stripped(Strip(s)) && (Stripped(s) ==> Strip(s) == s)
  {
    LeftStripIs(s);
    RightStripIs(LeftStrip(s));
  }

  // ---------- What stripping leaves ----------

  predicate Blank(text: string) {
    forall i | 0 <= i < |text| :: IsSpace(text[i])
  }

  /** `t` is `s` without the whitespace around it. */
  predicate Surrounds(s: string, before: string, t: string, after: string) {
    s == before + t + after && Blank(before) && Blank(after) && Stripped(t)
  }

  lemma {:induction false} LeftStripDrops(before: string, t: string)
    requires Blank(before) && (t == "" || !IsSpace(t[0]))
    ensures LeftStrip(before + t) == t
  {
    if before != "" {
      assert (before + t)[1..] == before[1..] + t;
      LeftStripDrops(before[1..], t);
    } else {
      assert before + t == t;
    }
  }

  lemma {:induction false} RightStripDrops(t: string, after: string)
    requires Blank(after) && (t == "" || !IsSpace(t[|t| - 1]))
    ensures RightStrip(t + after) == t
  {
    if after != "" {
      assert (t + after)[..|t + after| - 1] == t + after[..|after| - 1];
      RightStripDrops(t, after[..|after| - 1]);
    } else {
      assert t + after == t;
    }
  }

  lemma SurroundedIs(s: string, before: string, t: string, after: string)
    requires Surrounds(s, before, t, after)
    ensures Strip(s) == t
  {
    if t == "" {
      assert s == (before + after) + "";
      LeftStripDrops(before + after, "");
    } else {
      assert s == before + (t + after);
      LeftStripDrops(before, t + after);
      RightStripDrops(t, after);
    }
  }

  lemma {:induction false} LeftStripCuts(s: string) returns (before: string)
    ensures s == before + LeftStrip(s) && Blank(before)
  {
    before := "";
    if s != "" && IsSpace(s[0]) {
      before := LeftStripCuts(s[1..]);
      before := [s[0]] + before;
    }
  }

  lemma {:induction false} RightStripCuts(s: string) returns (after: string)
    ensures s == RightStrip(s) + after && Blank(after)
  {
    after := "";
    if s != "" && IsSpace(s[|s| - 1]) {
      after := RightStripCuts(s[..|s| - 1]);
      after := after + [s[|s| - 1]];
    }
  }

  lemma Joined(s: string, before: string, left: string, t: string, after: string)
    requires s == before + left && left == t + after
    ensures s == before + t + after
  {
  }

  /** Every text has such a middle. */
  lemma HasMiddle(s: string) returns (before: string, t: string, after: string)
    ensures Surrounds(s, before, t, after)
  {
    before := LeftStripCuts(s);
    after := RightStripCuts(LeftStrip(s));
    t := Strip(s);
    StripIs(s);
    Joined(s, before, LeftStrip(s), t, after);
  }
}
