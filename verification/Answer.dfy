/**
 What decides between the texts an answer could be taken from, said of the text
 itself: what may follow a bare object, which objects are fused, what an answer
 is taken from, and why there is none.
 */
module Answers {
  import opened Options
  import opened JsonValues
  import opened Schemas
  import opened Decoding
  import opened Text
  import Writing
  import opened Extraction

  // ---- What may follow an answer, character by character --------------------------------------------------------

  /** The tag from a to b covers position k: no '>' closes it before k. */
  ghost predicate Tag(s: string, a: nat, k: nat, b: nat) {
    a <= k <= b < |s| && s[a] == '<' && s[b] == '>' && forall x | a <= x < k :: s[x] != '>'
  }

  ghost predicate InTag(s: string, i: nat, k: nat) { exists a, b: nat | i <= a :: Tag(s, a, k, b) }

  lemma {:induction false} OutsideTags(s: string, i: nat, alnum: char -> bool)
    requires i <= |s|
    ensures (forall c | c in WithoutTags(s, i) :: !alnum(c)) <==>
            forall k | i <= k < |s| && alnum(s[k]) :: InTag(s, i, k)
    decreases |s| - i
  {
    if i < |s| {
      hide InTag;
      var close := SkipWhile(s, i, c => c != '>');
      if s[i] == '<' && close < |s| {
        assert WithoutTags(s, i) == WithoutTags(s, close + 1);
        OutsideTags(s, close + 1, alnum);
        forall k | i <= k < |s| ensures InTag(s, i, k) <==> k <= close || InTag(s, close + 1, k) {
          TagFirst(s, i, close, k);
        }
      } else {
        assert WithoutTags(s, i) == [s[i]] + WithoutTags(s, i + 1);
        OutsideTags(s, i + 1, alnum);
        forall k | i <= k < |s| ensures InTag(s, i, k) <==> k > i && InTag(s, i + 1, k) { NoTagFirst(s, i, k); }
      }
    }
  }

  lemma TagFirst(s: string, i: nat, close: nat, k: nat)
    requires i <= close < |s| && s[i] == '<' && s[close] == '>' && forall x | i <= x < close :: s[x] != '>'
    requires i <= k < |s|
    ensures InTag(s, i, k) <==> k <= close || InTag(s, close + 1, k)
  {
    if k <= close { assert Tag(s, i, k, close); }
  }

  lemma NoTagFirst(s: string, i: nat, k: nat)
    requires i <= k < |s| && (s[i] == '<' ==> forall x | i <= x < |s| :: s[x] != '>')
    ensures InTag(s, i, k) <==> k > i && InTag(s, i + 1, k)
  {}

  ghost predicate Solid(s: string, a: nat, b: nat) { forall x | a <= x <= b && x < |s| :: !IsSpace(s[x]) }

  /** Position k lies inside a tag without whitespace. */
  ghost predicate InTagOf(s: string, k: nat) { exists a, b: nat :: Tag(s, a, k, b) && Solid(s, a, b) }

  ghost predicate Wordless(s: string, alnum: char -> bool) {
    forall k | 0 <= k < |s| && !IsSpace(s[k]) && alnum(s[k]) :: InTagOf(s, k)
  }

  lemma TagShifts(s: string, from: nat, to: nat, a: nat, k: nat, b: nat)
    requires from <= a <= k <= b < to <= |s|
    ensures Tag(s, a, k, b) <==> Tag(s[from..to], a - from, k - from, b - from)
    ensures Solid(s, a, b) <==> Solid(s[from..to], a - from, b - from)
  {
    var part := s[from..to];
    forall x | a <= x <= b ensures part[x - from] == s[x] {}
    forall x | a - from <= x <= b - from ensures part[x] == s[from + x] {}
  }

  lemma InToken(s: string, from: nat, to: nat, k: nat)
    requires from <= k < to <= |s| && forall x | from <= x < to :: !IsSpace(s[x])
    requires (from > 0 ==> IsSpace(s[from - 1])) && (to < |s| ==> IsSpace(s[to]))
    ensures InTagOf(s, k) <==> InTag(s[from..to], 0, k - from)
  {
    hide Tag;
    if InTagOf(s, k) {
      var a: nat, b: nat :| Tag(s, a, k, b) && Solid(s, a, b);
      TagIn(s, a, k, b);
      assert from <= a && b < to;
      TagShifts(s, from, to, a, k, b);
      var start: nat, end: nat := a - from, b - from;
      assert Tag(s[from..to], start, k - from, end);
    }
    if InTag(s[from..to], 0, k - from) {
      var a: nat, b: nat :| Tag(s[from..to], a, k - from, b);
      TagIn(s[from..to], a, k - from, b);
      TagShifts(s, from, to, from + a, k, from + b);
      assert Solid(s, from + a, from + b);
    }
  }

  lemma TagIn(s: string, a: nat, k: nat, b: nat)
    requires Tag(s, a, k, b)
    ensures a <= k <= b < |s|
  {}

  lemma BehindToken(s: string, to: nat, k: nat)
    requires to < k < |s| && IsSpace(s[to])
    ensures InTagOf(s, k) <==> InTagOf(s[to..], k - to)
  {
    hide Tag, Solid;
    var rest := s[to..|s|];
    assert rest == s[to..];
    if InTagOf(s, k) {
      var a: nat, b: nat :| Tag(s, a, k, b) && Solid(s, a, b);
      TagIn(s, a, k, b);
      SolidAvoids(s, a, b, to);
      TagShifts(s, to, |s|, a, k, b);
      var start: nat, end: nat := a - to, b - to;
      assert Tag(rest, start, k - to, end) && Solid(rest, start, end);
    }
    if InTagOf(rest, k - to) {
      var a: nat, b: nat :| Tag(rest, a, k - to, b) && Solid(rest, a, b);
      TagIn(rest, a, k - to, b);
      TagShifts(s, to, |s|, to + a, k, to + b);
      assert Solid(s, to + a, to + b);
    }
  }

  lemma SolidAvoids(s: string, a: nat, b: nat, x: nat)
    requires Solid(s, a, b) && x < |s| && IsSpace(s[x])
    ensures !(a <= x <= b)
  {}

  lemma TokenWordless(s: string, from: nat, to: nat, alnum: char -> bool)
    requires from <= to <= |s| && forall x | from <= x < to :: !IsSpace(s[x])
    requires (from > 0 ==> IsSpace(s[from - 1])) && (to < |s| ==> IsSpace(s[to]))
    ensures (forall c | c in WithoutTags(s[from..to], 0) :: !alnum(c)) <==>
            forall k | from <= k < to && alnum(s[k]) :: InTagOf(s, k)
  {
    hide InTag, InTagOf, WithoutTags;
    var token := s[from..to];
    OutsideTags(token, 0, alnum);
    forall k | from <= k < to ensures token[k - from] == s[k] && (InTagOf(s, k) <==> InTag(token, 0, k - from)) {
      InToken(s, from, to, k);
    }
    forall k | 0 <= k < |token| ensures token[k] == s[from + k] && (InTagOf(s, from + k) <==> InTag(token, 0, k)) {}
  }

  lemma RestWordless(s: string, to: nat, alnum: char -> bool)
    requires to <= |s| && (to < |s| ==> IsSpace(s[to]))
    ensures Wordless(s[to..], alnum) <==>
            forall k | to <= k < |s| && !IsSpace(s[k]) && alnum(s[k]) :: InTagOf(s, k)
  {
    hide InTagOf;
    var rest := s[to..];
    forall k | to < k < |s| ensures rest[k - to] == s[k] && (InTagOf(s, k) <==> InTagOf(rest, k - to)) {
      BehindToken(s, to, k);
    }
    forall k | 0 < k < |rest| ensures rest[k] == s[to + k] && (InTagOf(s, to + k) <==> InTagOf(rest, k)) {}
  }

  lemma {:induction false} OnlyResidueExact(s: string, alnum: char -> bool)
    ensures OnlyResidue(s, alnum) <==> Wordless(s, alnum)
    decreases |s|
  {
    hide InTagOf, WithoutTags;
    var from := SkipWhile(s, 0, IsSpace);
    if from < |s| {
      var to := SkipWhile(s, from, c => !IsSpace(c));
      TokenWordless(s, from, to, alnum);
      OnlyResidueExact(s[to..], alnum);
      RestWordless(s, to, alnum);
    }
  }

  /** What may follow a single answer: no brace, no fence, and outside of tags neither a letter nor a digit. */
  lemma ResidueExact(rest: string, alnum: char -> bool)
    ensures Residue(rest, alnum) <==> '{' !in rest && NoFence(rest) && Wordless(rest, alnum)
  {
    hide InTagOf, OnlyResidue;
    OnlyResidueExact(rest, alnum);
    if Blank(rest) { forall c | c in rest ensures IsSpace(c) {} }
  }

  // ---- Which objects are fused ---------------------------------------------------------------------------------

  predicate Apart(text: string, f: Found, g: Found)
    requires f.start <= f.end <= |text| && g.start <= g.end <= |text|
  {
    FieldsOf(text, f).Some? && FieldsOf(text, g).Some? ==> FieldsOf(text, f).value.Keys !! FieldsOf(text, g).value.Keys
  }

  /** Objects merge if and only if each of them is one and no two share a top-level key. */
  lemma {:induction false} MergeExact(text: string, run: seq<Found>)
    requires InText(text, run)
    ensures MergeAll(text, run).Union? <==>
            (forall k | 0 <= k < |run| :: FieldsOf(text, run[k]).Some?) &&
            forall j, k | 0 <= j < k < |run| :: Apart(text, run[j], run[k])
  {
    hide FieldsOf;
    if MergeAll(text, run).Union? {
      forall k | 0 <= k < |run| ensures FieldsOf(text, run[k]).Some? { MergeKeepsFields(text, run, k); }
      forall j, k | 0 <= j < k < |run| ensures Apart(text, run[j], run[k]) { MergeIsDisjoint(text, run, j, k); }
    } else {
      var before, last := run[..|run| - 1], run[|run| - 1];
      MergeExact(text, before);
      if MergeAll(text, before).Union? && FieldsOf(text, last).Some? {
        var key :| key in MergeAll(text, before).fields && key in FieldsOf(text, last).value;
        MergeAddsNothing(text, before, key);
        var k :| 0 <= k < |before| && FieldsOf(text, before[k]).Some? && key in FieldsOf(text, before[k]).value;
        assert !Apart(text, run[k], run[|run| - 1]);
      }
    }
  }

  /** Values that compete for a key, or a span that is no object, are not a split answer: they end the search. */
  lemma FuseRunExact(text: string, run: seq<Found>, s: Schema)
    requires InText(text, run)
    ensures FuseRun(text, run, s).NoRun? <==>
            (exists k | 0 <= k < |run| :: FieldsOf(text, run[k]).None?) ||
            exists j, k | 0 <= j < k < |run| :: !Apart(text, run[j], run[k])
    ensures var all, fused := MergeAll(text, run), FuseRun(text, run, s);
            all.Union? ==> fused == if Conforms(Obj(all.fields), s) then Fused(Obj(all.fields)) else SplitAnswer
  {
    hide FieldsOf, Conforms, MergeAll, Apart;
    MergeExact(text, run);
  }

  ghost predicate Opens(text: string, found: seq<Found>) {
    forall k | 0 <= k < |found| :: found[k].start < |text| && text[found[k].start] == '{'
  }

  lemma {:induction false} BareOpens(text: string, s: Schema, i: nat)
    requires i <= |text|
    ensures Opens(text, Bare(text, s, i))
    decreases |text| - i
  {
    hide ContentStart, SkipFence, Scan, Candidate, SpansOf;
    if i < |text| {
      if FenceAt(text, i) {
        var start := ContentStart(text, i).0;
        var next := SkipFence(text[start..], 0, 1);
        BareOpens(text, s, if next.Some? then start + next.value else i + 3);
      } else if text[i] != '{' || Scan(text, i, Outside(0)).None? {
        BareOpens(text, s, i + 1);
      } else {
        BareOpens(text, s, Scan(text, i, Outside(0)).value);
      }
    }
  }

  /** The first of the objects that end in j and follow one another. */
  function RunStart(text: string, found: seq<Found>, j: nat): (i: nat)
    requires j < |found| && Ordered(text, found)
    ensures i <= j
  {
    if j > 0 && Separator(text[found[j - 1].end..found[j].start]) then RunStart(text, found, j - 1) else j
  }

  /** That is the object from which on they all do, and before which one does not. */
  lemma StartIs(text: string, found: seq<Found>, i: nat, j: nat)
    requires i <= j < |found| && Ordered(text, found) && Adjacent(text, found, i, j)
    requires i > 0 ==> !Separator(text[found[i - 1].end..found[i].start])
    ensures RunStart(text, found, j) == i
  {
    hide Separator;
    if i < j {
      assert Separator(text[found[j - 1].end..found[j - 1 + 1].start]);
      StartIs(text, found, i, j - 1);
    }
  }

  /** An object later in the text is no residue. */
  lemma ObjectIsNoResidue(text: string, found: seq<Found>, j: nat, alnum: char -> bool)
    requires Ordered(text, found) && Opens(text, found) && j + 1 < |found|
    ensures !Residue(text[found[j].end..], alnum)
  {
    var rest, k := text[found[j].end..], found[j + 1].start - found[j].end;
    ResidueExact(rest, alnum);
    assert rest[k] == '{';
  }

  /** What the objects at the end of the text come to, if only residue follows them. */
  function EndFused(text: string, found: seq<Found>, s: Schema, alnum: char -> bool): Fusion
    requires Ordered(text, found)
  {
    if found == [] then NoRun
    else
      var n := |found| - 1;
      var start := RunStart(text, found, n);
      if start < n && Residue(text[found[n].end..], alnum) then FuseRun(text, found[start..], s) else NoRun
  }

  lemma LastRunFuses(text: string, found: seq<Found>, s: Schema, alnum: char -> bool, i: nat)
    requires i < |found| && Ordered(text, found) && RunEnd(text, found, i) == |found| - 1
    requires i > 0 ==> !Separator(text[found[i - 1].end..found[i].start])
    ensures Fuse(text, found, s, alnum, i) == EndFused(text, found, s, alnum)
  {
    hide Separator, Residue, FuseRun, Adjacent, RunStart, RunEnd;
    StartIs(text, found, i, |found| - 1);
    assert found[i..|found|] == found[i..];
  }

  lemma {:induction false} FuseFrom(text: string, found: seq<Found>, s: Schema, alnum: char -> bool, i: nat)
    requires i <= |found| && Ordered(text, found) && Opens(text, found)
    requires 0 < i < |found| ==> !Separator(text[found[i - 1].end..found[i].start])
    ensures Fuse(text, found, s, alnum, i) == if i == |found| then NoRun else EndFused(text, found, s, alnum)
    decreases |found| - i
  {
    hide Separator, Residue, FuseRun, Opens, Adjacent, EndFused, RunEnd;
    if i < |found| {
      var j := RunEnd(text, found, i);
      if j == |found| - 1 {
        LastRunFuses(text, found, s, alnum, i);
      } else {
        ObjectIsNoResidue(text, found, j, alnum);
        FuseFrom(text, found, s, alnum, j + 1);
      }
    }
  }

  /** Only the objects at the end of the text can be fused. */
  lemma FuseExact(text: string, found: seq<Found>, s: Schema, alnum: char -> bool)
    requires Ordered(text, found) && Opens(text, found)
    ensures Fuse(text, found, s, alnum, 0) == EndFused(text, found, s, alnum)
  {
    hide Separator, Residue, FuseRun, Opens, Adjacent, Fuse, RunStart;
    FuseFrom(text, found, s, alnum, 0);
  }

  // ---- What the bare objects say ---------------------------------------------------------------------------------

  lemma {:induction false} ValidInTwo(a: seq<Found>, b: seq<Found>)
    ensures Valid(a + b) == Valid(a) + Valid(b)
  {
    if a == [] {
      assert a + b == b;
    } else {
      ValidInTwo(a[1..], b);
      assert (a + b)[1..] == a[1..] + b;
      var here := if a[0].parsed.Good? then [a[0]] else [];
      assert here + (Valid(a[1..]) + Valid(b)) == (here + Valid(a[1..])) + Valid(b);
    }
  }

  lemma NoneValid(found: seq<Found>)
    requires forall k | 0 <= k < |found| :: !found[k].parsed.Good?
    ensures Valid(found) == []
  {
    if Valid(found) != [] { ValidIsFound(found, Valid(found)[0]); }
  }

  /** k is the last object that conforms. */
  ghost predicate LastGood(found: seq<Found>, k: nat) {
    k < |found| && found[k].parsed.Good? && forall l | k < l < |found| :: !found[l].parsed.Good?
  }

  lemma ValidEnds(found: seq<Found>, k: nat)
    requires LastGood(found, k)
    ensures Valid(found) == Valid(found[..k]) + [found[k]]
    ensures Valid(found[..k]) == [] <==> forall l | 0 <= l < k :: !found[l].parsed.Good?
  {
    var before, here, after := found[..k], [found[k]], found[k + 1..];
    assert found == (before + here) + after;
    ValidInTwo(before + here, after);
    ValidInTwo(before, here);
    NoneValid(after);
    assert Valid(here) == here;
    assert Valid(found) == Valid(before) + here;
    if l :| 0 <= l < k && found[l].parsed.Good? { ValidIsFound(before, before[l]); } else { NoneValid(before); }
  }

  /** The error the bare objects leave: that of the first one after the last that conforms. */
  lemma {:induction false} ErrorIs(found: seq<Found>, from: nat)
    requires from <= |found| && (from > 0 ==> found[from - 1].parsed.Good?)
    requires forall l | from <= l < |found| :: !found[l].parsed.Good?
    ensures LastError(found) == if from < |found| then Some(Rejected(found[from].parsed)) else None
  {
    if from < |found| { ErrorIs(found[..|found| - 1], from); }
  }

  /** Of several conforming objects all count, whatever stands between and after them; the last is the last value. */
  lemma SeveralObjects(text: string, s: Schema, alnum: char -> bool, l: nat, k: nat)
    requires LastGood(Bare(text, s, 0), k) && l < k && Bare(text, s, 0)[l].parsed.Good?
    ensures var found, r := Bare(text, s, 0), BareResult(text, s, alnum);
            |r.values| > 1 && r.values[|r.values| - 1] == found[k].parsed.value && r.error.None?
  {
    hide Bare, Residue, Fuse, LastError, Valid;
    ValidEnds(Bare(text, s, 0), k);
  }

  /** A single conforming object counts only with nothing but residue after it. */
  lemma SingleObject(text: string, s: Schema, alnum: char -> bool, k: nat)
    requires LastGood(Bare(text, s, 0), k) && forall l | 0 <= l < k :: !Bare(text, s, 0)[l].parsed.Good?
    ensures var found, r := Bare(text, s, 0), BareResult(text, s, alnum);
            found[k].end <= |text| &&
            r == if Residue(text[found[k].end..], alnum) then BareAnswers([found[k].parsed.value], None)
                 else BareAnswers([], if k + 1 < |found| then Some(Rejected(found[k + 1].parsed)) else None)
  {
    hide Bare, Residue, Fuse, LastError, Valid;
    var found := Bare(text, s, 0);
    ValidEnds(found, k);
    ErrorIs(found, k + 1);
    assert Valid(found) == [found[k]];
  }

  /** With no conforming object the last ones may be fused, if they follow one another and only residue follows them. */
  lemma NoGoodObject(text: string, s: Schema, alnum: char -> bool)
    requires forall k | 0 <= k < |Bare(text, s, 0)| :: !Bare(text, s, 0)[k].parsed.Good?
    ensures var found := Bare(text, s, 0);
            Ordered(text, found) &&
            BareResult(text, s, alnum) ==
              match EndFused(text, found, s, alnum)
              case Fused(v) => BareAnswers([v], None)
              case SplitAnswer => BareAnswers([], Some(Split))
              case NoRun => BareAnswers([], if found == [] then None else Some(Rejected(found[0].parsed)))
  {
    hide Bare, Residue, Fuse, LastError, EndFused, Valid, Opens;
    var found := Bare(text, s, 0);
    NoneValid(found);
    ErrorIs(found, 0);
    BareOpens(text, s, 0);
    FuseExact(text, found, s, alnum);
  }

  // ---- What the answer is, or why there is none ------------------------------------------------------------------

  /** At least two of the texts conform. */
  ghost predicate Several(texts: seq<string>, s: Schema) {
    exists i, j | 0 <= i < j < |texts| :: IsGood(texts[i], s) && IsGood(texts[j], s)
  }

  lemma {:induction false} NoneGood(texts: seq<string>, s: Schema)
    requires forall i | 0 <= i < |texts| :: !IsGood(texts[i], s)
    ensures GoodOnes(texts, s) == []
  {
    hide Candidate;
    if texts != [] { NoneGood(texts[..|texts| - 1], s); }
  }

  lemma {:induction false} OneGood(texts: seq<string>, s: Schema, i: nat)
    requires i < |texts| && IsGood(texts[i], s) && !Several(texts, s)
    ensures GoodOnes(texts, s) == [Candidate(texts[i], s).value]
  {
    hide Candidate;
    var before := texts[..|texts| - 1];
    if i < |texts| - 1 { OneGood(before, s, i); } else { NoneGood(before, s); }
  }

  lemma GoodOnesExact(texts: seq<string>, s: Schema)
    ensures |GoodOnes(texts, s)| > 1 <==> Several(texts, s)
    ensures !Several(texts, s) ==> forall i | 0 <= i < |texts| && IsGood(texts[i], s) ::
      GoodOnes(texts, s) == [Candidate(texts[i], s).value]
    ensures (forall i | 0 <= i < |texts| :: !IsGood(texts[i], s)) ==> GoodOnes(texts, s) == []
  {
    hide Candidate, GoodOnes;
    if i, j :| 0 <= i < j < |texts| && IsGood(texts[i], s) && IsGood(texts[j], s) {
      TwoGoodCountTwice(texts, s, i, j);
    } else {
      forall i | 0 <= i < |texts| && IsGood(texts[i], s) ensures GoodOnes(texts, s) == [Candidate(texts[i], s).value] {
        OneGood(texts, s, i);
      }
      if i :| 0 <= i < |texts| && IsGood(texts[i], s) { OneGood(texts, s, i); } else { NoneGood(texts, s); }
    }
  }

  /** t is the fenced text that counts: a conforming closed one, or a conforming open one if no closed one conforms. */
  ghost predicate Counts(fences: Fences, s: Schema, t: string) {
    IsGood(t, s) && (t in fences.closed || (t in fences.open && forall c | c in fences.closed :: !IsGood(c, s)))
  }

  /** The first character that is no whitespace is an opening brace. */
  ghost predicate StartsObject(text: string) {
    exists k | 0 <= k < |text| :: text[k] == '{' && forall x | 0 <= x < k :: IsSpace(text[x])
  }

  /** Why there is no answer: the first fenced text did not conform, else what the bare objects left, else the text is
      prose, else it is a JSON value or starts as one and does not conform. */
  ghost function Reason(text: string, s: Schema, fences: Fences, bare: BareAnswers): Failure {
    var texts := fences.closed + fences.open;
    if texts != [] then Rejected(Candidate(texts[0], s))
    else if bare.error.Some? then bare.error.value
    else if Decode(text).None? && !StartsObject(text) then OnlyProse
    else Rejected(Candidate(text, s))
  }

  lemma ProsaicExact(text: string)
    ensures Prosaic(text) <==> !StartsObject(text)
  {}

  lemma NoErrorWithout(texts: seq<string>, s: Schema)
    requires forall t | t in texts :: !IsGood(t, s)
    ensures FirstError(texts, s) == if texts == [] then None else Some(Rejected(Candidate(texts[0], s)))
  {
    hide Candidate;
    if texts != [] { assert !IsGood(texts[0], s); }
  }

  /** Neither several fenced texts of a kind conform nor, unless the last one is asked for, several bare objects. */
  ghost predicate Unequivocal(fences: Fences, bare: BareAnswers, s: Schema, preferTerminal: bool) {
    !Several(fences.closed, s) && !Several(fences.open, s) && (|bare.values| > 1 ==> preferTerminal)
  }

  lemma EquivocalIsRefused(text: string, schema: Schema, preferTerminal: bool, alnum: char -> bool)
    requires !IsGood(text, Optional(schema))
    ensures var s := Optional(schema);
            var fences, bare := FencedFrom(text), BareResult(text, s, alnum);
            !Unequivocal(fences, bare, s, preferTerminal) ==>
              ParseText(text, schema, preferTerminal, alnum) ==
              Failed(if Several(fences.closed, s) || Several(fences.open, s) then ManyFences else ManyObjects)
  {
    hide Candidate, FencedFrom, BareResult, Optional, FirstError, Prosaic, Decode, Same, GoodOnes, Several;
    GoodOnesExact(FencedFrom(text).closed, Optional(schema));
    GoodOnesExact(FencedFrom(text).open, Optional(schema));
  }

  /** A fenced text that counts is the answer if the last bare object agrees with it, or there is none. */
  lemma FencedCounts(text: string, schema: Schema, preferTerminal: bool, alnum: char -> bool, t: string)
    requires !IsGood(text, Optional(schema)) && Counts(FencedFrom(text), Optional(schema), t)
    requires Unequivocal(FencedFrom(text), BareResult(text, Optional(schema), alnum), Optional(schema), preferTerminal)
    ensures var v, bare := Candidate(t, Optional(schema)).value, BareResult(text, Optional(schema), alnum).values;
            ParseText(text, schema, preferTerminal, alnum) ==
              if bare == [] || v == bare[|bare| - 1] || Same(v, bare[|bare| - 1]) then Answer(v)
              else Failed(Conflicting)
  {
    hide Candidate, FencedFrom, BareResult, Optional, FirstError, Prosaic, Decode, Same, GoodOnes, Several;
    GoodOnesExact(FencedFrom(text).closed, Optional(schema));
    GoodOnesExact(FencedFrom(text).open, Optional(schema));
  }

  /** Without one the last bare object is the answer, and without that there is a reason for none. */
  lemma NothingFencedCounts(text: string, schema: Schema, preferTerminal: bool, alnum: char -> bool)
    requires !IsGood(text, Optional(schema)) && forall t :: !Counts(FencedFrom(text), Optional(schema), t)
    requires Unequivocal(FencedFrom(text), BareResult(text, Optional(schema), alnum), Optional(schema), preferTerminal)
    ensures var s, fences := Optional(schema), FencedFrom(text);
            var bare := BareResult(text, s, alnum);
            ParseText(text, schema, preferTerminal, alnum) ==
              if bare.values != [] then Answer(bare.values[|bare.values| - 1])
              else Failed(Reason(text, s, fences, bare))
  {
    hide Candidate, FencedFrom, BareResult, Optional, FirstError, Prosaic, Decode, Same, GoodOnes, Several,
         StartsObject;
    var s, fences := Optional(schema), FencedFrom(text);
    forall t | t in fences.closed ensures !IsGood(t, s) { assert !Counts(fences, s, t); }
    forall t | t in fences.open ensures !IsGood(t, s) { assert !Counts(fences, s, t); }
    GoodOnesExact(fences.closed, s);
    GoodOnesExact(fences.open, s);
    ProsaicExact(text);
    NoErrorWithout(fences.closed + fences.open, s);
  }

  // ---- Blocks inside blocks --------------------------------------------------------------------------------------

  /** The lines of a block: plain ones, and whole blocks with an info text of their own. */
  datatype Listing = Ended | Plain(line: string, rest: Listing) | Nested(info: string, inside: Listing, rest: Listing)

  function Lines(b: Listing): string {
    match b
    case Ended => ""
    case Plain(line, rest) => (line + "\n") + Lines(rest)
    case Nested(info, inside, rest) => ((FENCE + info) + "\n") + (Lines(inside) + ((FENCE + "\n") + Lines(rest)))
  }

  predicate OneLine(line: string) { forall k | 0 <= k < |line| :: line[k] != '\n' }

  /** No plain line starts with a fence, and what follows an inner opening fence is not blank. */
  predicate Listed(b: Listing) {
    match b
    case Ended => true
    case Plain(line, rest) => OneLine(line) && !FenceAt(line, Indent(line, 0, |line|)) && Listed(rest)
    case Nested(info, inside, rest) => OneLine(info) && !Blank(info) && Listed(inside) && Listed(rest)
  }

  /** How deep a block is after one line of it. */
  function DepthOver(line: string, depth: nat): nat
    requires depth > 0
  { DepthAfter(line, Indent(line, 0, |line|), |line|, depth) }

  lemma LineAt(s: string, i: nat, line: string)
    requires i <= |s| && HasWord(s, i, line + "\n") && OneLine(line)
    ensures i + |line| < |s| && LineEnd(s, i) == i + |line| && s[i..i + |line|] == line
    ensures Indent(s, i, i + |line|) == i + Indent(line, 0, |line|)
  {
    Writing.Splits(s, i, line, "\n");
    var end := i + |line|;
    forall k | i <= k < end ensures s[k] == line[k - i] {}
    SkipWhileIs(s, i, c => c != '\n', end);
    var indent := Indent(line, 0, |line|);
    SkipWhileIs(s[..end], i, c => c == ' ' || c == '\t', i + indent);
  }

  lemma SkipsLine(s: string, i: nat, line: string, depth: nat)
    requires i <= |s| && HasWord(s, i, line + "\n") && OneLine(line) && depth > 0 && DepthOver(line, depth) > 0
    ensures i + |line| < |s| && SkipFence(s, i, depth) == SkipFence(s, i + |line| + 1, DepthOver(line, depth))
  {
    hide LineEnd, Indent, HasWord, Blank;
    LineAt(s, i, line);
    var end, indent := i + |line|, Indent(line, 0, |line|);
    var l := s[..end];
    assert FenceAt(l, i + indent) <==> FenceAt(line, indent) by {
      forall k | 0 <= k < |line| ensures l[i + k] == line[k] {}
    }
    assert line[..|line|] == line;
    if FenceAt(line, indent) { assert s[i + indent + 3..end] == line[indent + 3..|line|]; }
  }

  lemma OpeningDepth(info: string, depth: nat)
    requires depth > 0
    ensures DepthOver(FENCE + info, depth) == if Blank(info) then depth - 1 else depth + 1
  {
    hide Blank;
    var line := FENCE + info;
    assert line[..|line|] == line && line[3..] == info && line[0] == '`' && line[1] == '`' && line[2] == '`';
    SkipWhileIs(line[..|line|], 0, c => c == ' ' || c == '\t', 0);
    assert Indent(line, 0, |line|) == 0 && FenceAt(line[..|line|], 0);
    assert line[0 + 3..|line|] == info;
    assert DepthAfter(line, 0, |line|, depth) == if Blank(info) then depth - 1 else depth + 1;
  }

  lemma NestedAt(s: string, i: nat, info: string, inside: Listing, rest: Listing)
    requires i <= |s| && HasWord(s, i, Lines(Nested(info, inside, rest)))
    ensures var start := i + 3 + |info| + 1;
            var end := start + |Lines(inside)|;
            HasWord(s, i, (FENCE + info) + "\n") && start <= end && end + 4 <= |s| &&
            HasWord(s, start, Lines(inside)) &&
            HasWord(s, end, FENCE + "\n") && HasWord(s, end + 4, Lines(rest)) &&
            i + |Lines(Nested(info, inside, rest))| == end + 4 + |Lines(rest)|
  {
    hide HasWord;
    var open, close := (FENCE + info) + "\n", FENCE + "\n";
    Writing.Splits(s, i, open, Lines(inside) + (close + Lines(rest)));
    Writing.Splits(s, i + |open|, Lines(inside), close + Lines(rest));
    Writing.Splits(s, i + |open| + |Lines(inside)|, close, Lines(rest));
  }

  lemma PlainAt(s: string, i: nat, line: string, rest: Listing)
    requires i <= |s| && HasWord(s, i, Lines(Plain(line, rest)))
    ensures HasWord(s, i, line + "\n") && i + |line| + 1 <= |s| && HasWord(s, i + |line| + 1, Lines(rest)) &&
            |Lines(Plain(line, rest))| == |line| + 1 + |Lines(rest)|
  {
    hide HasWord;
    Writing.Splits(s, i, line + "\n", Lines(rest));
  }

  lemma {:induction false} SkipsListing(s: string, i: nat, b: Listing, depth: nat)
    requires i <= |s| && HasWord(s, i, Lines(b)) && Listed(b) && depth > 0
    ensures i + |Lines(b)| <= |s| && SkipFence(s, i, depth) == SkipFence(s, i + |Lines(b)|, depth)
    decreases b
  {
    hide HasWord, SkipFence, DepthOver, Indent, Blank, Lines;
    match b {
      case Ended => NoLines();
      case Plain(line, rest) =>
        PlainAt(s, i, line, rest);
        PlainDepth(line, depth);
        SkipsLine(s, i, line, depth);
        SkipsListing(s, i + |line| + 1, rest, depth);
      case Nested(info, inside, rest) =>
        var start := i + 3 + |info| + 1;
        var end := start + |Lines(inside)|;
        NestedAt(s, i, info, inside, rest);
        OpeningDepth(info, depth);
        SkipsLine(s, i, FENCE + info, depth);
        SkipsListing(s, start, inside, depth + 1);
        BareCloses(depth + 1);
        SkipsLine(s, end, FENCE, depth + 1);
        SkipsListing(s, end + 4, rest, depth);
    }
  }

  lemma NoLines()
    ensures |Lines(Ended)| == 0
  {}

  lemma PlainDepth(line: string, depth: nat)
    requires !FenceAt(line, Indent(line, 0, |line|)) && depth > 0
    ensures DepthOver(line, depth) == depth
  { assert line[..|line|] == line; }

  lemma BareCloses(depth: nat)
    requires depth > 0
    ensures DepthOver(FENCE, depth) == depth - 1
  {
    assert FENCE + "" == FENCE;
    OpeningDepth("", depth);
  }

  /** A block of lines without its last newline, which belongs to the closing fence. */
  function BodyOf(b: Listing): string { if Lines(b) == "" then "" else Lines(b)[..|Lines(b)| - 1] }

  lemma ListingEnds(b: Listing)
    ensures b != Ended ==> Lines(b) != "" && BodyOf(b) + "\n" == Lines(b)
  {
    match b {
      case Ended =>
      case Plain(line, rest) => ListingEnds(rest);
      case Nested(info, inside, rest) => ListingEnds(rest);
    }
  }

  /** A closed block under any other info word is skipped as a whole, blocks inside it included: none of them, json or
      not, yields a candidate. */
  lemma NestedFenceIsSkipped(prose: string, info: string, b: Listing, tail: string)
    requires Unfenced(prose) && Word(info) && !IsJsonInfo(info) && Listed(b) && b != Ended && ClosesBare(tail)
    ensures FencedFrom(FencedBlock(prose, info, BodyOf(b), tail)) == FencedFrom(tail)
  {
    hide SkipFence, IsJsonInfo, Inner, FencedBlock, ClosesBare, FencedFrom, Unfenced, Lines, BodyOf, Listed;
    ListingIsSkipped(b, tail);
    BlockIsSkipped(prose, info, BodyOf(b), tail);
  }

  lemma ListingIsSkipped(b: Listing, tail: string)
    requires Listed(b) && b != Ended && ClosesBare(tail)
    ensures SkipFence(Inner(BodyOf(b), tail), 0, 1) == Some(|BodyOf(b)| + 4)
  {
    hide FenceAt, ClosesBare, Lines, BodyOf, Listed, Blank, LineEnd, Indent;
    var body := BodyOf(b);
    var s, n := Inner(body, tail), |body| + 1;
    ListingEnds(b);
    InnerAt(body, tail);
    assert HasWord(s, 0, Lines(b)) by { assert s[0..|body| + 1] == s[..|body| + 1]; }
    SkipsListing(s, 0, b, 1);
    ClosingRestIsBlank(body, tail);
    ClosingLine(s, n);
  }
}
