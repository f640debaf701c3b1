/** `PIIGuard.redact` over arbitrary findings: which of them are kept, and how the output is the text
    with exactly the kept spans replaced. */
module PiiRedaction {
  datatype Kind = Email(domain: string) | Mobile | CnId | BankCard | Secret

  datatype Finding = Finding(kind: Kind, start: nat, end: nat, masked: string)

  // ---------- Masks ----------

  function Stars(n: int): (r: string)
    ensures |r| == if n < 0 then 0 else n
  {
    if n <= 0 then "" else "*" + Stars(n - 1)
  }

  function Head(s: string, n: nat): string {
    if n <= |s| then s[..n] else s
  }

  function Tail(s: string, n: nat): string {
    if n <= |s| then s[|s| - n..] else s
  }

  function Mask(kind: Kind, value: string): string {
    match kind
    case Email(domain) => Head(value, 1) + "***@" + domain
    case Mobile => Head(value, 3) + "****" + Tail(value, 4)
    case CnId => Head(value, 3) + Stars(|value| - 5) + Tail(value, 2)
    case BankCard => Head(value, 4) + Stars(|value| - 8) + Tail(value, 4)
    case Secret => if |value| <= 8 then Stars(|value|) else Head(value, 4) + Stars(|value| - 8) + Tail(value, 4)
  }

  /** The lengths that the patterns match. */
  predicate Fits(kind: Kind, length: nat) {
    match kind
    case Mobile => length == 11
    case CnId => length == 18
    case BankCard => 16 <= length <= 19
    case _ => length > 0
  }

  lemma MaskKeepsLength(kind: Kind, value: string)
    requires Fits(kind, |value|) && !kind.Email?
    ensures |Mask(kind, value)| == |value|
  {
  }

  // ---------- Which findings are kept ----------

  ghost predicate InRange(text: string, fs: seq<Finding>) {
    forall i | 0 <= i < |fs| :: fs[i].start < fs[i].end <= |text|
  }

  /** What `detect` makes of a match: its length is one that the pattern matches, its mask is the kind's. */
  predicate Detected(text: string, f: Finding) {
    && f.start < f.end <= |text| && Fits(f.kind, f.end - f.start)
    && f.masked == Mask(f.kind, text[f.start..f.end])
  }

  /** The order of `detect`. */
  ghost predicate ByStart(fs: seq<Finding>) {
    forall i, j | 0 <= i < j < |fs| :: fs[i].start <= fs[j].start
  }

  function LastEnd(kept: seq<Finding>): int {
    if kept == [] then -1 else kept[|kept| - 1].end
  }

  /** `_dedup_overlap`, as a function. */
  function Kept(fs: seq<Finding>): seq<Finding> {
    if fs == [] then []
    else
      var kept := Kept(fs[..|fs| - 1]);
      var f := fs[|fs| - 1];
      if f.start < LastEnd(kept) then kept else kept + [f]
  }

  method DedupOverlap(fs: seq<Finding>) returns (kept: seq<Finding>)
    ensures kept == Kept(fs)
  {
    kept := [];
    var lastEnd: int := -1;
    for i := 0 to |fs|
      invariant kept == Kept(fs[..i]) && lastEnd == LastEnd(kept)
    {
      assert fs[..i + 1][..i] == fs[..i];
      if fs[i].start < lastEnd {
        continue;
      }
      kept := kept + [fs[i]];
      lastEnd := fs[i].end;
    }
    assert fs[..|fs|] == fs;
  }

  predicate Overlap(a: Finding, b: Finding) {
    a.start < b.end && b.start < a.end
  }

  ghost predicate Disjoint(kept: seq<Finding>) {
    forall i, j | 0 <= i < j < |kept| :: kept[i].end <= kept[j].start
  }

  ghost predicate Weavable(text: string, kept: seq<Finding>) {
    Disjoint(kept) && InRange(text, kept)
  }

  lemma {:induction false} KeptFrom(fs: seq<Finding>, i: nat) returns (p: nat)
    requires i < |Kept(fs)|
    ensures p < |fs| && fs[p] == Kept(fs)[i]
  {
    var before := fs[..|fs| - 1];
    if i < |Kept(before)| {
      p := KeptFrom(before, i);
    } else {
      p := |before|;
    }
  }

  /** The kept findings are pairwise disjoint. */
  lemma {:induction false} KeptIsDisjoint(text: string, fs: seq<Finding>, kept: seq<Finding>)
    requires InRange(text, fs) && ByStart(fs) && kept == Kept(fs)
    ensures Weavable(text, kept)
    decreases |fs|
  {
    if fs != [] {
      var before, f := fs[..|fs| - 1], fs[|fs| - 1];
      KeptIsDisjoint(text, before, Kept(before));
      if f.start >= LastEnd(Kept(before)) {
        AppendKept(text, Kept(before), f);
      }
    }
  }

  lemma AppendKept(text: string, kept: seq<Finding>, f: Finding)
    requires Weavable(text, kept) && f.start >= LastEnd(kept) && InRange(text, [f])
    ensures Weavable(text, kept + [f])
  {
    assert f == [f][0];
    forall i | 0 <= i < |kept| ensures kept[i].end <= f.start {
      assert i < |kept| - 1 ==> kept[i].end <= kept[|kept| - 1].start < kept[|kept| - 1].end;
    }
  }

  /** Every finding that is not kept overlaps a kept one. */
  lemma {:induction false} KeptIsMaximal(text: string, fs: seq<Finding>, i: nat) returns (j: nat)
    requires InRange(text, fs) && ByStart(fs) && i < |fs|
    ensures j < |Kept(fs)| && (Kept(fs)[j] == fs[i] || Overlap(fs[i], Kept(fs)[j]))
    decreases |fs|
  {
    var before, f := fs[..|fs| - 1], fs[|fs| - 1];
    if i < |before| {
      j := KeptIsMaximal(text, before, i);
    } else if f.start < LastEnd(Kept(before)) {
      j := |Kept(before)| - 1;
      var p := KeptFrom(before, j);
      assert fs[p].start <= f.start;
    } else {
      j := |Kept(before)|;
    }
  }

  lemma {:induction false} KeptKeepsOrder(fs: seq<Finding>, i: nat, j: nat) returns (p: nat, q: nat)
    requires i < j < |Kept(fs)|
    ensures p < q < |fs| && fs[p] == Kept(fs)[i] && fs[q] == Kept(fs)[j]
  {
    var before := fs[..|fs| - 1];
    if j < |Kept(before)| {
      p, q := KeptKeepsOrder(before, i, j);
    } else {
      p := KeptFrom(before, i);
      q := |before|;
    }
  }

  // ---------- The output ----------

  /** Where the text after the first `n` spans begins. */
  function Cursor(kept: seq<Finding>, n: nat): nat
    requires n <= |kept|
  {
    if n == 0 then 0 else kept[n - 1].end
  }

  /** The output up to the end of the first `n` spans. */
  function Woven(text: string, kept: seq<Finding>, n: nat): string
    requires Weavable(text, kept) && n <= |kept|
  {
    if n == 0 then "" else Woven(text, kept, n - 1) + text[Cursor(kept, n - 1)..kept[n - 1].start] + kept[n - 1].masked
  }

  function Redacted(text: string, kept: seq<Finding>): string
    requires Weavable(text, kept)
  {
    Woven(text, kept, |kept|) + text[Cursor(kept, |kept|)..]
  }

  method Redact(text: string, findings: seq<Finding>) returns (out: string, kept: seq<Finding>)
    requires InRange(text, findings) && ByStart(findings)
    ensures kept == Kept(findings) && Weavable(text, kept) && out == Redacted(text, kept)
  {
    kept := DedupOverlap(findings);
    KeptIsDisjoint(text, findings, kept);
    var pieces: string := "";
    var cursor := 0;
    for i := 0 to |kept|
      invariant cursor == Cursor(kept, i) && pieces == Woven(text, kept, i)
    {
      var f := kept[i];
      if f.start > cursor {
        pieces := pieces + text[cursor..f.start];
      } else {
        assert pieces + text[cursor..f.start] == pieces;
      }
      pieces := pieces + f.masked;
      cursor := f.end;
    }
    if cursor < |text| {
      out := pieces + text[cursor..];
    } else {
      out := pieces;
      assert out == pieces + text[cursor..];
    }
  }

  // ---------- The output against the text ----------

  function Delta(f: Finding): int {
    |f.masked| - (f.end - f.start)
  }

  /** How far the text at position `p` has moved: the masks before it against their spans, among the
      first `n`. */
  function Shift(text: string, kept: seq<Finding>, n: nat, p: nat): int
    requires Weavable(text, kept) && n <= |kept|
  {
    if n == 0 then 0 else Shift(text, kept, n - 1, p) + if kept[n - 1].end <= p then Delta(kept[n - 1]) else 0
  }

  function NewPosition(text: string, kept: seq<Finding>, p: nat): int
    requires Weavable(text, kept)
  {
    p + Shift(text, kept, |kept|, p)
  }

  ghost predicate Outside(kept: seq<Finding>, p: nat) {
    forall i | 0 <= i < |kept| :: !(kept[i].start <= p < kept[i].end)
  }

  lemma {:induction false} ShiftBeyond(text: string, kept: seq<Finding>, n: nat, p: nat, q: nat)
    requires Weavable(text, kept) && n <= |kept| && Cursor(kept, n) <= p && Cursor(kept, n) <= q
    ensures Shift(text, kept, n, p) == Shift(text, kept, n, q)
  {
    if n > 0 {
      ShiftBeyond(text, kept, n - 1, p, q);
    }
  }

  /** Spans that end after `p` do not move it. */
  lemma {:induction false} ShiftBefore(text: string, kept: seq<Finding>, n: nat, m: nat, p: nat)
    requires Weavable(text, kept) && n <= m <= |kept| && (n < |kept| ==> p < kept[n].end)
    ensures Shift(text, kept, m, p) == Shift(text, kept, n, p)
  {
    if n < m {
      ShiftBefore(text, kept, n, m - 1, p);
      assert m - 1 == n || kept[n].end <= kept[m - 1].start;
    }
  }

  lemma {:induction false} WovenLength(text: string, kept: seq<Finding>, n: nat)
    requires Weavable(text, kept) && n <= |kept|
    ensures |Woven(text, kept, n)| == Cursor(kept, n) + Shift(text, kept, n, Cursor(kept, n))
  {
    if n > 0 {
      WovenLength(text, kept, n - 1);
      ShiftBeyond(text, kept, n - 1, Cursor(kept, n - 1), Cursor(kept, n));
    }
  }

  lemma {:induction false} WovenPrefix(text: string, kept: seq<Finding>, n: nat, m: nat)
    requires Weavable(text, kept) && n <= m <= |kept|
    ensures Woven(text, kept, n) <= Woven(text, kept, m)
  {
    if n < m {
      WovenPrefix(text, kept, n, m - 1);
    }
  }

  /** The output around span `n`. */
  lemma AtSpan(text: string, kept: seq<Finding>, n: nat, w: string, gap: string, mask: string) returns (rest: string)
    requires Weavable(text, kept) && n < |kept| && w == Woven(text, kept, n)
    requires gap == text[Cursor(kept, n)..kept[n].start] && mask == kept[n].masked
    ensures Redacted(text, kept) == w + gap + mask + rest
  {
    var woven := Woven(text, kept, |kept|);
    WovenPrefix(text, kept, n + 1, |kept|);
    assert Woven(text, kept, n + 1) == w + gap + mask;
    rest := woven[|w + gap + mask|..] + text[Cursor(kept, |kept|)..];
  }

  /** From the end of span `n - 1` to the start of span `n`, all positions move alike. */
  lemma ShiftInGap(text: string, kept: seq<Finding>, n: nat, p: nat)
    requires Weavable(text, kept) && n < |kept| && Cursor(kept, n) <= p <= kept[n].start
    ensures NewPosition(text, kept, p) == |Woven(text, kept, n)| + p - Cursor(kept, n)
  {
    WovenLength(text, kept, n);
    ShiftBeyond(text, kept, n, Cursor(kept, n), p);
    ShiftBefore(text, kept, n, |kept|, p);
  }

  lemma GapIsKept(text: string, kept: seq<Finding>, n: nat, p: nat)
    requires Weavable(text, kept) && n < |kept| && Cursor(kept, n) <= p < kept[n].start
    ensures 0 <= NewPosition(text, kept, p) < |Redacted(text, kept)| && Redacted(text, kept)[NewPosition(text, kept, p)] == text[p]
  {
    var w, gap := Woven(text, kept, n), text[Cursor(kept, n)..kept[n].start];
    var rest := AtSpan(text, kept, n, w, gap, kept[n].masked);
    ShiftInGap(text, kept, n, p);
    assert gap[p - Cursor(kept, n)] == text[p];
  }

  lemma {:induction false} FindGap(text: string, kept: seq<Finding>, n: nat, p: nat) returns (m: nat)
    requires Weavable(text, kept) && n <= |kept| && Outside(kept, p) && p < Cursor(kept, n)
    ensures m < n && Cursor(kept, m) <= p < kept[m].start
  {
    m := n - 1;
    if p < Cursor(kept, m) {
      m := FindGap(text, kept, m, p);
    }
  }

  /** Every character outside the kept spans is in the output, at its new position. */
  lemma OutsideIsKept(text: string, kept: seq<Finding>, p: nat)
    requires Weavable(text, kept) && Outside(kept, p) && p < |text|
    ensures 0 <= NewPosition(text, kept, p) < |Redacted(text, kept)| && Redacted(text, kept)[NewPosition(text, kept, p)] == text[p]
  {
    if p < Cursor(kept, |kept|) {
      var n := FindGap(text, kept, |kept|, p);
      GapIsKept(text, kept, n, p);
    } else {
      WovenLength(text, kept, |kept|);
      ShiftBeyond(text, kept, |kept|, Cursor(kept, |kept|), p);
    }
  }

  /** Each kept span is replaced by exactly its mask. */
  lemma SpanIsMasked(text: string, kept: seq<Finding>, i: nat)
    requires Weavable(text, kept) && i < |kept|
    ensures var at, mask := NewPosition(text, kept, kept[i].start), kept[i].masked;
            0 <= at <= at + |mask| <= |Redacted(text, kept)| && Redacted(text, kept)[at..at + |mask|] == mask
  {
    var w, gap, mask := Woven(text, kept, i), text[Cursor(kept, i)..kept[i].start], kept[i].masked;
    var rest := AtSpan(text, kept, i, w, gap, mask);
    ShiftInGap(text, kept, i, kept[i].start);
    assert (w + gap + mask + rest)[|w + gap|..|w + gap| + |mask|] == mask;
  }

  lemma RedactedLength(text: string, kept: seq<Finding>)
    requires Weavable(text, kept)
    ensures |Redacted(text, kept)| == NewPosition(text, kept, |text|)
  {
    WovenLength(text, kept, |kept|);
    ShiftBeyond(text, kept, |kept|, Cursor(kept, |kept|), |text|);
  }

  /** Characters outside the spans keep their order. */
  lemma {:induction false} OrderIsKept(text: string, kept: seq<Finding>, n: nat, p: nat, q: nat)
    requires Weavable(text, kept) && n <= |kept| && Outside(kept, p) && p < q
    ensures p + Shift(text, kept, n, p) < q + Shift(text, kept, n, q)
  {
    if n > 0 {
      var f := kept[n - 1];
      if p < f.end <= q {
        OrderIsKept(text, kept, n - 1, p, f.start);
        ShiftBeyond(text, kept, n - 1, f.start, q);
      } else {
        OrderIsKept(text, kept, n - 1, p, q);
      }
    }
  }

  /** Without an e-mail the output has the text's length and agrees with it outside the spans. */
  lemma {:induction false} NoShift(text: string, kept: seq<Finding>, n: nat, p: nat)
    requires Weavable(text, kept) && n <= |kept|
    requires forall i | 0 <= i < |kept| :: Detected(text, kept[i]) && !kept[i].kind.Email?
    ensures Shift(text, kept, n, p) == 0
  {
    if n > 0 {
      NoShift(text, kept, n - 1, p);
      MaskKeepsLength(kept[n - 1].kind, text[kept[n - 1].start..kept[n - 1].end]);
    }
  }

  lemma WithoutEmail(text: string, kept: seq<Finding>)
    requires Weavable(text, kept) && forall i | 0 <= i < |kept| :: Detected(text, kept[i]) && !kept[i].kind.Email?
    ensures |Redacted(text, kept)| == |text|
    ensures forall p | 0 <= p < |text| && Outside(kept, p) :: Redacted(text, kept)[p] == text[p]
  {
    RedactedLength(text, kept);
    NoShift(text, kept, |kept|, |text|);
    forall p | 0 <= p < |text| && Outside(kept, p) ensures Redacted(text, kept)[p] == text[p] {
      OutsideIsKept(text, kept, p);
      NoShift(text, kept, |kept|, p);
    }
  }

  // ---------- What still shows ----------

  /** The characters of a finding of `n` characters that its mask shows. */
  predicate Visible(kind: Kind, n: nat, o: nat) {
    match kind
    case Email(_) => o == 0
    case Mobile => o < 3 || 7 <= o
    case CnId => o < 3 || 16 <= o
    case BankCard => o < 4 || n - 4 <= o
    case Secret => n > 8 && (o < 4 || n - 4 <= o)
  }

  lemma {:induction false} StarsAre(n: int)
    ensures forall i | 0 <= i < |Stars(n)| :: Stars(n)[i] == '*'
  {
    if n > 0 {
      StarsAre(n - 1);
    }
  }

  lemma Starred(value: string, head: nat, tail: nat, m: string)
    requires head + tail <= |value| && m == Head(value, head) + Stars(|value| - head - tail) + Tail(value, tail)
    ensures |m| == |value|
    ensures forall o | 0 <= o < |value| :: m[o] == if o < head || |value| - tail <= o then value[o] else '*'
  {
    StarsAre(|value| - head - tail);
  }

  /** `m` is the value with stars for all characters that do not show. */
  predicate StarredOut(kind: Kind, value: string, m: string) {
    |m| == |value| && forall o | 0 <= o < |value| :: m[o] == if Visible(kind, |value|, o) then value[o] else '*'
  }

  lemma MaskShows(kind: Kind, value: string)
    requires Fits(kind, |value|) && !kind.Email?
    ensures StarredOut(kind, value, Mask(kind, value))
  {
    var m := Mask(kind, value);
    match kind
    case Mobile =>
      assert "****" == Stars(1) + Stars(1) + Stars(1) + Stars(1) == Stars(4);
      Starred(value, 3, 4, m);
    case CnId => Starred(value, 3, 2, m);
    case BankCard => Starred(value, 4, 4, m);
    case Secret =>
      if |value| <= 8 {
        StarsAre(|value|);
      } else {
        Starred(value, 4, 4, m);
      }
  }

  /** What the output shows of a kept finding that is no e-mail: its few visible characters, each in
      its place, with a star for every other. */
  lemma FindingShows(text: string, kept: seq<Finding>, i: nat)
    requires Weavable(text, kept) && i < |kept| && Detected(text, kept[i]) && !kept[i].kind.Email?
    ensures var at, f := NewPosition(text, kept, kept[i].start), kept[i];
            && 0 <= at && at + (f.end - f.start) <= |Redacted(text, kept)|
            && StarredOut(f.kind, text[f.start..f.end], Redacted(text, kept)[at..at + (f.end - f.start)])
  {
    SpanIsMasked(text, kept, i);
    MaskShows(kept[i].kind, text[kept[i].start..kept[i].end]);
  }

  /** Of an e-mail it shows the first character and the domain. */
  lemma EmailShows(text: string, kept: seq<Finding>, i: nat, domain: string)
    requires Weavable(text, kept) && i < |kept| && Detected(text, kept[i]) && kept[i].kind == Email(domain)
    ensures var at, shown := NewPosition(text, kept, kept[i].start), [text[kept[i].start]] + "***@" + domain;
            && 0 <= at && at + |shown| <= |Redacted(text, kept)|
            && Redacted(text, kept)[at..at + |shown|] == shown
  {
    SpanIsMasked(text, kept, i);
  }
}
