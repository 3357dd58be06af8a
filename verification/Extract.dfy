/**
 Finding one structured answer in an agent's text: the whole text, a json code
 fence, a bare object, or one answer split over adjacent objects. Text is a
 sequence of characters.
 */
module Extraction {
  import opened Options
  import opened JsonValues
  import opened Decoding
  import opened Schemas
  import opened Text
  import opened Writing

  // ---- Characters ----------------------------------------------------------------------

  predicate IsWordChar(c: char) { 'a' <= c <= 'z' || 'A' <= c <= 'Z' || '0' <= c <= '9' || c == '-' || c == '_' }

  /** The first index from i on whose character fails the test. */
  function SkipWhile(s: string, i: nat, test: char -> bool): (j: nat)
    requires i <= |s|
    ensures i <= j <= |s| && (j < |s| ==> !test(s[j]))
    ensures forall k | i <= k < j :: test(s[k])
    decreases |s| - i
  {
    if i < |s| && test(s[i]) then SkipWhile(s, i + 1, test) else i
  }

  /** The last index down to which every character passes the test. */
  function TrimEnd(s: string, j: nat, test: char -> bool): (i: nat)
    requires j <= |s|
    ensures i <= j
    ensures forall k | i <= k < j :: test(s[k])
  {
    if j > 0 && test(s[j - 1]) then TrimEnd(s, j - 1, test) else j
  }

  predicate FenceAt(s: string, i: nat) { i + 3 <= |s| && s[i] == '`' && s[i + 1] == '`' && s[i + 2] == '`' }

  predicate NoFence(s: string) { forall i: nat | i < |s| :: !FenceAt(s, i) }

  /** strings.Index(s[i:], "```") */
  function NextFence(s: string, i: nat): (k: Option<nat>)
    requires i <= |s|
    ensures k.Some? ==> i <= k.value && FenceAt(s, k.value)
    ensures forall j: nat | i <= j < (if k.Some? then k.value else |s|) :: !FenceAt(s, j)
    decreases |s| - i
  {
    if i == |s| then None else if FenceAt(s, i) then Some(i) else NextFence(s, i + 1)
  }

  function LineEnd(s: string, i: nat): (j: nat)
    requires i <= |s|
    ensures i <= j <= |s|
  { SkipWhile(s, i, c => c != '\n') }

  // ---- Fences -----------------------------------------------------------------------------

  /** fenceContentStart: where the content of the fence at i begins, and the span of its info token. */
  function ContentStart(s: string, i: nat): (r: (nat, string))
    requires FenceAt(s, i)
    ensures i + 3 <= r.0 <= |s|
  {
    var line := LineEnd(s, i + 3);
    var from := SkipWhile(s[..line], i + 3, c => c == ' ' || c == '\t');
    var to := SkipWhile(s[..line], from, IsWordChar);
    (if to < |s| && s[to] == '\n' then to + 1 else to, s[from..to])
  }

  predicate IsJsonInfo(info: string) {
    |info| == 4 && info[0] in "jJ" && info[1] in "sS" && info[2] in "oO" && info[3] in "nN"
  }

  function Indent(s: string, i: nat, line: nat): (j: nat)
    requires i <= line <= |s|
    ensures i <= j <= line
  { SkipWhile(s[..line], i, c => c == ' ' || c == '\t') }

  /** A bare marker closes one level, a marker with an info string opens one, any other line changes nothing. */
  function DepthAfter(s: string, indent: nat, line: nat, depth: nat): (d: nat)
    requires indent <= line <= |s| && depth > 0
    ensures d == 0 ==> indent + 3 <= line
  {
    if !FenceAt(s[..line], indent) then depth else if Blank(s[indent + 3..line]) then depth - 1 else depth + 1
  }

  /** skipFenceBlock on s[i..]: the index after the marker that closes the block, in lines. */
  function SkipFence(s: string, i: nat, depth: nat): (r: Option<nat>)
    requires i <= |s| && depth > 0
    ensures r.Some? ==> i + 3 <= r.value <= |s|
    decreases |s| - i
  {
    if i == |s| then None
    else
      var line := LineEnd(s, i);
      var indent := Indent(s, i, line);
      var after := DepthAfter(s, indent, line, depth);
      if after == 0 then Some(indent + 3) else if line == |s| then None else SkipFence(s, line + 1, after)
  }

  method SkipFenceBlock(s: string, start: nat) returns (end: Option<nat>)
    requires start <= |s|
    ensures end == SkipFence(s, start, 1)
  {
    hide LineEnd, Indent, DepthAfter;
    var depth, i := 1, start;
    while i < |s|
      invariant start <= i <= |s| && depth > 0
      invariant SkipFence(s, start, 1) == SkipFence(s, i, depth)
      decreases |s| - i
    {
      var line := LineEnd(s, i);
      var indent := Indent(s, i, line);
      depth := DepthAfter(s, indent, line, depth);
      if depth == 0 { return Some(indent + 3); }
      if line == |s| { return None; }
      i := line + 1;
    }
    end := None;
  }

  /** indexJSONFenceClose: where the body of a json fence ends. */
  function FenceClose(s: string, i: nat): (r: Option<nat>)
    requires i <= |s|
    ensures r.Some? ==> r.value <= |s|
    decreases |s| - i
  {
    if i == |s| then FinalFence(s)
    else
      var line := LineEnd(s, i);
      if FenceAt(s[..line], Indent(s, i, line)) then Some(i)
      else if line == |s| then FinalFence(s)
      else FenceClose(s, line + 1)
  }

  function FinalFence(s: string): (r: Option<nat>)
    ensures r.Some? ==> r.value <= |s|
  {
    var end := TrimEnd(s, |s|, c => c == ' ' || c == '\t' || c == '\r' || c == '\n');
    if end >= 3 && FenceAt(s, end - 3) then Some(end - 3) else None
  }

  datatype Fences = Fences(closed: seq<string>, open: seq<string>)

  /** One pass of the scan: the candidates it adds, and the rest to go on with. */
  datatype FencePass = Done(found: Fences) | More(found: Fences, rest: string)

  function OnePass(rest: string): (p: FencePass)
    ensures p.More? ==> |p.rest| < |rest|
  {
    var marker := NextFence(rest, 0);
    if marker.None? then Done(Fences([], []))
    else
      var (start, info) := ContentStart(rest, marker.value);
      var body := rest[start..];
      if !IsJsonInfo(info) then
        var skipped := SkipFence(body, 0, 1);
        More(Fences([], []), if skipped.Some? then body[skipped.value..] else body)
      else
        var end := FenceClose(body, 0);
        if end.None? then Done(Fences([], [body])) else More(Fences([body[..end.value]], []), rest[marker.value + 3..])
  }

  /** fencedJSONCandidates */
  function FencedFrom(rest: string): Fences
    decreases |rest|
  {
    match OnePass(rest)
    case Done(found) => found
    case More(found, next) =>
      var later := FencedFrom(next);
      Fences(found.closed + later.closed, found.open + later.open)
  }

  method FencedCandidates(text: string) returns (found: Fences)
    ensures found == FencedFrom(text)
  {
    hide OnePass;
    var rest := text;
    found := Fences([], []);
    while true
      invariant Fences(found.closed + FencedFrom(rest).closed, found.open + FencedFrom(rest).open) == FencedFrom(text)
      decreases |rest|
    {
      match OnePass(rest) {
        case Done(last) =>
          return Fences(found.closed + last.closed, found.open + last.open);
        case More(some, next) =>
          ghost var later := FencedFrom(next);
          assert found.closed + (some.closed + later.closed) == (found.closed + some.closed) + later.closed;
          assert found.open + (some.open + later.open) == (found.open + some.open) + later.open;
          found := Fences(found.closed + some.closed, found.open + some.open);
          rest := next;
      }
    }
  }

  // ---- Candidates ----------------------------------------------------------------------------

  datatype Parsed = Good(value: Json) | Malformed | Violates

  /** parseStructuredCandidate */
  function Candidate(text: string, s: Schema): Parsed {
    var v := Decode(text);
    if v.None? then Malformed else if Conforms(v.value, s) then Good(v.value) else Violates
  }

  /** A balanced span found outside fences. */
  datatype Found = Found(start: nat, end: nat, parsed: Parsed)

  predicate SpansOf(text: string, s: Schema, found: seq<Found>, from: nat) {
    (forall k | 0 <= k < |found| ::
      from <= found[k].start < found[k].end <= |text| &&
      found[k].parsed == Candidate(text[found[k].start..found[k].end], s)) &&
    forall k | 0 <= k < |found| - 1 :: found[k].end <= found[k + 1].start
  }

  /** The scan for bare objects from index i on. */
  function Bare(text: string, s: Schema, i: nat): (found: seq<Found>)
    requires i <= |text|
    ensures SpansOf(text, s, found, i)
    decreases |text| - i
  {
    if i == |text| then []
    else if FenceAt(text, i) then
      var start := ContentStart(text, i).0;
      var next := SkipFence(text[start..], 0, 1);
      if next.Some? then Bare(text, s, start + next.value) else Bare(text, s, i + 3)
    else if text[i] != '{' || Scan(text, i, Outside(0)).None? then Bare(text, s, i + 1)
    else
      var end := Scan(text, i, Outside(0)).value;
      [Found(i, end, Candidate(text[i..end], s))] + Bare(text, s, end)
  }

  method BareObjects(text: string, s: Schema) returns (found: seq<Found>)
    ensures found == Bare(text, s, 0)
  {
    hide ContentStart, SkipFence, Scan, Candidate, FenceAt, SpansOf;
    found := [];
    var i := 0;
    while i < |text|
      invariant 0 <= i <= |text|
      invariant found + Bare(text, s, i) == Bare(text, s, 0)
      decreases |text| - i
    {
      if FenceAt(text, i) {
        var start := ContentStart(text, i).0;
        var next := SkipFenceBlock(text[start..], 0);
        i := if next.Some? then start + next.value else i + 3;
      } else if text[i] != '{' {
        i := i + 1;
      } else {
        var end := ScanBalanced(text, i);
        if end.None? {
          i := i + 1;
        } else {
          var here := Found(i, end.value, Candidate(text[i..end.value], s));
          assert found + ([here] + Bare(text, s, end.value)) == (found + [here]) + Bare(text, s, end.value);
          found := found + [here];
          i := end.value;
        }
      }
    }
  }

  /** The objects that parsed, in order. */
  function Valid(found: seq<Found>): seq<Found> {
    if found == [] then []
    else (if found[0].parsed.Good? then [found[0]] else []) + Valid(found[1..])
  }

  lemma {:induction false} ValidIsFound(found: seq<Found>, f: Found)
    ensures f in Valid(found) <==> f in found && f.parsed.Good?
  {
    if found != [] { ValidIsFound(found[1..], f); }
  }

  // ---- What may follow the answer ----------------------------------------------------------------

  /** The text outside <...> spans of one token. */
  function WithoutTags(token: string, i: nat): string
    requires i <= |token|
    decreases |token| - i
  {
    if i == |token| then ""
    else
      var close := SkipWhile(token, i, c => c != '>');
      if token[i] == '<' && close < |token| then WithoutTags(token, close + 1)
      else [token[i]] + WithoutTags(token, i + 1)
  }

  /** Every whitespace-delimited piece is markup or punctuation; alnum is unicode.IsLetter or IsDigit. */
  predicate OnlyResidue(rest: string, alnum: char -> bool)
    decreases |rest|
  {
    var from := SkipWhile(rest, 0, IsSpace);
    if from == |rest| then true
    else
      var to := SkipWhile(rest, from, c => !IsSpace(c));
      (forall c | c in WithoutTags(rest[from..to], 0) :: !alnum(c)) && OnlyResidue(rest[to..], alnum)
  }

  /** trailingNonJSONResidue */
  predicate Residue(rest: string, alnum: char -> bool) {
    Blank(rest) || ('{' !in rest && NoFence(rest) && OnlyResidue(rest, alnum))
  }

  // ---- One answer split over adjacent objects -------------------------------------------------------

  /** isBareObjectSeparator: whitespace and at most one comma. */
  predicate Separator(gap: string) {
    Blank(gap) || exists i | 0 <= i < |gap| :: gap[i] == ',' && Blank(gap[..i]) && Blank(gap[i + 1..])
  }

  predicate Ordered(text: string, found: seq<Found>) {
    (forall k | 0 <= k < |found| :: found[k].start < found[k].end <= |text|) &&
    forall k | 0 <= k < |found| - 1 :: found[k].end <= found[k + 1].start
  }

  predicate Adjacent(text: string, found: seq<Found>, i: nat, j: nat)
    requires j < |found| && Ordered(text, found)
  {
    forall k | i <= k < j :: Separator(text[found[k].end..found[k + 1].start])
  }

  datatype Merge = NotObject | Repeated | Union(fields: map<string, Json>)

  function FieldsOf(text: string, f: Found): Option<map<string, Json>>
    requires f.start <= f.end <= |text|
  {
    var v := Decode(text[f.start..f.end]);
    if v.None? || !v.value.Obj? then None else Some(v.value.fields)
  }

  /** The union of the objects, refused as soon as a top-level key repeats. */
  function MergeAll(text: string, run: seq<Found>): Merge
    requires forall k | 0 <= k < |run| :: run[k].start <= run[k].end <= |text|
  {
    if run == [] then Union(map[])
    else
      var before := MergeAll(text, run[..|run| - 1]);
      var here := FieldsOf(text, run[|run| - 1]);
      if !before.Union? then before
      else if here.None? then NotObject
      else if before.fields.Keys !! here.value.Keys then Union(before.fields + here.value)
      else Repeated
  }

  predicate InText(text: string, run: seq<Found>) { forall k | 0 <= k < |run| :: run[k].start <= run[k].end <= |text| }

  /** Two objects of a merged run share no key, and all their fields are in the result. */
  lemma {:induction false} MergeKeepsFields(text: string, run: seq<Found>, k: nat)
    requires InText(text, run) && MergeAll(text, run).Union? && k < |run|
    ensures FieldsOf(text, run[k]).Some?
    ensures forall key | key in FieldsOf(text, run[k]).value ::
      key in MergeAll(text, run).fields && MergeAll(text, run).fields[key] == FieldsOf(text, run[k]).value[key]
  {
    hide FieldsOf;
    if k < |run| - 1 { MergeKeepsFields(text, run[..|run| - 1], k); }
  }

  lemma {:induction false} MergeIsDisjoint(text: string, run: seq<Found>, j: nat, k: nat)
    requires InText(text, run) && MergeAll(text, run).Union? && j < k < |run|
    ensures FieldsOf(text, run[j]).Some? && FieldsOf(text, run[k]).Some?
    ensures FieldsOf(text, run[j]).value.Keys !! FieldsOf(text, run[k]).value.Keys
  {
    hide FieldsOf;
    var before := run[..|run| - 1];
    if k < |run| - 1 { MergeIsDisjoint(text, before, j, k); } else { MergeKeepsFields(text, before, j); }
  }

  lemma {:induction false} MergeAddsNothing(text: string, run: seq<Found>, key: string)
    requires InText(text, run) && MergeAll(text, run).Union? && key in MergeAll(text, run).fields
    ensures exists k | 0 <= k < |run| :: FieldsOf(text, run[k]).Some? && key in FieldsOf(text, run[k]).value
  {
    hide FieldsOf;
    var n := |run| - 1;
    if key !in FieldsOf(text, run[n]).value {
      MergeAddsNothing(text, run[..n], key);
      var k :| 0 <= k < |run[..n]| && FieldsOf(text, run[..n][k]).Some? && key in FieldsOf(text, run[..n][k]).value;
      assert run[k] == run[..n][k];
    } else {
      assert FieldsOf(text, run[n]).Some?;
    }
  }

  datatype Fusion = NoRun | Fused(value: Json) | SplitAnswer

  /** Objects i to j follow one another and the next one does not. */
  function RunEnd(text: string, found: seq<Found>, i: nat): (j: nat)
    requires i < |found| && Ordered(text, found)
    ensures i <= j < |found| && Adjacent(text, found, i, j)
    ensures j + 1 < |found| ==> !Separator(text[found[j].end..found[j + 1].start])
    decreases |found| - i
  {
    if i + 1 < |found| && Separator(text[found[i].end..found[i + 1].start]) then RunEnd(text, found, i + 1) else i
  }

  /** fuseBareObjects */
  function FuseRun(text: string, run: seq<Found>, s: Schema): Fusion
    requires InText(text, run)
  {
    match MergeAll(text, run)
    case Union(fields) => if Conforms(Obj(fields), s) then Fused(Obj(fields)) else SplitAnswer
    case _ => NoRun
  }

  /** fuseAdjacentBareObjects from object i on: the first concluding run decides. */
  function Fuse(text: string, found: seq<Found>, s: Schema, alnum: char -> bool, i: nat): Fusion
    requires i <= |found| && Ordered(text, found)
    decreases |found| - i
  {
    if i == |found| then NoRun
    else
      var j := RunEnd(text, found, i);
      if j > i && Residue(text[found[j].end..], alnum) then FuseRun(text, found[i..j + 1], s)
      else Fuse(text, found, s, alnum, j + 1)
  }

  method FindRunEnd(text: string, found: seq<Found>, i: nat) returns (j: nat)
    requires i < |found| && Ordered(text, found)
    ensures j == RunEnd(text, found, i)
  {
    hide Separator, Adjacent;
    j := i;
    while j + 1 < |found| && Separator(text[found[j].end..found[j + 1].start])
      invariant i <= j < |found|
      invariant RunEnd(text, found, i) == RunEnd(text, found, j)
    {
      j := j + 1;
    }
  }

  method FuseAdjacent(text: string, found: seq<Found>, s: Schema, alnum: char -> bool) returns (fusion: Fusion)
    requires Ordered(text, found)
    ensures fusion == Fuse(text, found, s, alnum, 0)
  {
    hide Separator, Residue, FuseRun, Adjacent, RunEnd;
    var i := 0;
    while i < |found|
      invariant i <= |found|
      invariant Fuse(text, found, s, alnum, 0) == Fuse(text, found, s, alnum, i)
    {
      var j := FindRunEnd(text, found, i);
      if j > i && Residue(text[found[j].end..], alnum) { return FuseRun(text, found[i..j + 1], s); }
      i := j + 1;
    }
    fusion := NoRun;
  }

  // ---- parseStructuredTextOutput -----------------------------------------------------------------------

  datatype Failure = Rejected(parsed: Parsed) | Split | ManyFences | ManyObjects | Conflicting | OnlyProse

  datatype Answer = Answer(value: Json) | Failed(why: Failure)

  /** bareJSONObjects' running error: reset by a valid object, otherwise the first one stays. */
  function LastError(found: seq<Found>): Option<Failure> {
    if found == [] then None
    else
      var n := |found| - 1;
      if found[n].parsed.Good? then None
      else if LastError(found[..n]).Some? then LastError(found[..n])
      else Some(Rejected(found[n].parsed))
  }

  function Values(found: seq<Found>): seq<Json>
    requires forall k | 0 <= k < |found| :: found[k].parsed.Good?
  { seq(|found|, k requires 0 <= k < |found| => found[k].parsed.value) }

  lemma {:induction false} ValidAreGood(found: seq<Found>)
    ensures forall k | 0 <= k < |Valid(found)| :: Valid(found)[k].parsed.Good? && Valid(found)[k] in found
  {
    forall k | 0 <= k < |Valid(found)| ensures Valid(found)[k].parsed.Good? && Valid(found)[k] in found {
      ValidIsFound(found, Valid(found)[k]);
    }
  }

  datatype BareAnswers = BareAnswers(values: seq<Json>, error: Option<Failure>)

  /** bareJSONObjects */
  function BareResult(text: string, s: Schema, alnum: char -> bool): BareAnswers {
    var found := Bare(text, s, 0);
    var valid := Valid(found);
    ValidAreGood(found);
    if |valid| > 1 then BareAnswers(Values(valid), None)
    else if |valid| == 1 then
      if Residue(text[valid[0].end..], alnum) then BareAnswers(Values(valid), None)
         else BareAnswers([], LastError(found))
    else match Fuse(text, found, s, alnum, 0)
      case Fused(v) => BareAnswers([v], None)
      case SplitAnswer => BareAnswers([], Some(Split))
      case NoRun => BareAnswers([], LastError(found))
  }

  function GoodOnes(texts: seq<string>, s: Schema): (good: seq<Json>)
    ensures forall v | v in good :: exists k | 0 <= k < |texts| :: Candidate(texts[k], s) == Good(v)
  {
    if texts == [] then []
    else
      var rest := GoodOnes(texts[..|texts| - 1], s);
      var last := Candidate(texts[|texts| - 1], s);
      assert forall v | v in rest :: exists k | 0 <= k < |texts| - 1 ::
             Candidate(texts[..|texts| - 1][k], s) == Good(v) && texts[k] == texts[..|texts| - 1][k];
      if last.Good? then rest + [last.value] else rest
  }

  function FirstError(texts: seq<string>, s: Schema): Option<Failure> {
    if texts == [] then None
    else if Candidate(texts[0], s).Good? then FirstError(texts[1..], s)
    else Some(Rejected(Candidate(texts[0], s)))
  }

  /** Which of the fenced and bare answers wins. */
  function Choose(fenced: Option<Json>, bare: seq<Json>, failure: Failure): Answer {
    if fenced.Some? && |bare| == 1 then
      if fenced.value == bare[0] || Same(fenced.value, bare[0]) then Answer(fenced.value) else Failed(Conflicting)
    else if fenced.Some? then Answer(fenced.value)
    else if |bare| == 1 then Answer(bare[0])
    else Failed(failure)
  }

  /** parseStructuredTextOutput */
  function ParseText(text: string, schema: Schema, preferTerminal: bool, alnum: char -> bool): Answer {
    var s := Optional(schema);
    var raw := Candidate(text, s);
    if raw.Good? then Answer(raw.value)
    else
      var fences := FencedFrom(text);
      var closed, open := GoodOnes(fences.closed, s), GoodOnes(fences.open, s);
      var bare := BareResult(text, s, alnum);
      if |closed| > 1 || |open| > 1 then Failed(ManyFences)
      else if |bare.values| > 1 && !preferTerminal then Failed(ManyObjects)
      else
        var fenced := if |closed| == 1 then Some(closed[0]) else if |open| == 1 then Some(open[0]) else None;
        var picked := if |bare.values| > 1 then bare.values[|bare.values| - 1..] else bare.values;
        var fenceError := FirstError(fences.closed + fences.open, s);
        var failure :=
          if fenceError.Some? then fenceError.value
          else if bare.error.Some? then bare.error.value
          else if Decode(text).None? && Prosaic(text) then OnlyProse
          else Rejected(raw);
        Choose(fenced, picked, failure)
  }

  predicate Prosaic(text: string) {
    var i := SkipWhile(text, 0, IsSpace);
    i == |text| || text[i] != '{'
  }

  method BareAnswer(text: string, s: Schema, alnum: char -> bool) returns (r: BareAnswers)
    ensures r == BareResult(text, s, alnum)
  {
    hide Bare, Residue, Fuse;
    var found := BareObjects(text, s);
    var valid := Valid(found);
    ValidAreGood(found);
    if |valid| > 1 { return BareAnswers(Values(valid), None); }
    if |valid| == 1 {
      return if Residue(text[valid[0].end..], alnum) then BareAnswers(Values(valid), None)
             else BareAnswers([], LastError(found));
    }
    var fusion := FuseAdjacent(text, found, s, alnum);
    match fusion {
      case Fused(v) => r := BareAnswers([v], None);
      case SplitAnswer => r := BareAnswers([], Some(Split));
      case NoRun => r := BareAnswers([], LastError(found));
    }
  }

  method ParseStructured(text: string, schema: Schema, preferTerminal: bool, alnum: char -> bool)
    returns (answer: Answer)
    ensures answer == ParseText(text, schema, preferTerminal, alnum)
  {
    hide Candidate, FencedFrom, GoodOnes, BareResult, FirstError, Prosaic, Decode, Choose;
    var s := OptionalInPlace(schema);
    var raw := Candidate(text, s);
    if raw.Good? { return Answer(raw.value); }
    var fences := FencedCandidates(text);
    var closed, open := GoodOnes(fences.closed, s), GoodOnes(fences.open, s);
    if |closed| > 1 || |open| > 1 { return Failed(ManyFences); }
    var bare := BareAnswer(text, s, alnum);
    if |bare.values| > 1 && !preferTerminal { return Failed(ManyObjects); }
    var fenced := if |closed| == 1 then Some(closed[0]) else if |open| == 1 then Some(open[0]) else None;
    var picked := if |bare.values| > 1 then bare.values[|bare.values| - 1..] else bare.values;
    var fenceError := FirstError(fences.closed + fences.open, s);
    var failure :=
      if fenceError.Some? then fenceError.value
      else if bare.error.Some? then bare.error.value
      else if Decode(text).None? && Prosaic(text) then OnlyProse
      else Rejected(raw);
    answer := Choose(fenced, picked, failure);
  }

  // ---- Soundness -------------------------------------------------------------------------------------------

  ghost predicate IsSpan(text: string, v: Json) {
    exists a, b | 0 <= a <= b <= |text| :: Decode(text[a..b]) == Some(v)
  }

  /** v is the union of at least two adjacent objects of the text. */
  ghost predicate IsFusion(text: string, found: seq<Found>, v: Json)
    requires Ordered(text, found)
  {
    exists i, j | 0 <= i < j < |found| :: Adjacent(text, found, i, j) &&
      MergeOf(text, found, i, j) == Union(if v.Obj? then v.fields else map[]) && v.Obj?
  }

  function MergeOf(text: string, found: seq<Found>, i: nat, j: nat): Merge
    requires i <= j < |found| && Ordered(text, found)
  { MergeAll(text, found[i..j + 1]) }

  ghost predicate IsPart(text: string, part: string) { exists a, b | 0 <= a <= b <= |text| :: text[a..b] == part }

  lemma PartOfRest(text: string, a: nat, part: string)
    requires a <= |text| && IsPart(text[a..], part)
    ensures IsPart(text, part)
  {
    var x, y :| 0 <= x <= y <= |text[a..]| && text[a..][x..y] == part;
    assert text[a + x..a + y] == part;
  }

  lemma PassIsPart(rest: string)
    ensures forall k | 0 <= k < |OnePass(rest).found.closed| :: IsPart(rest, OnePass(rest).found.closed[k])
    ensures forall k | 0 <= k < |OnePass(rest).found.open| :: IsPart(rest, OnePass(rest).found.open[k])
    ensures OnePass(rest).More? ==> exists a: nat | a <= |rest| :: rest[a..] == OnePass(rest).rest
  {
    hide ContentStart, SkipFence, FenceClose, IsJsonInfo, FenceAt;
    var marker := NextFence(rest, 0);
    if marker.Some? {
      var (start, info) := ContentStart(rest, marker.value);
      var body := rest[start..];
      if !IsJsonInfo(info) {
        var skipped := SkipFence(body, 0, 1);
        if skipped.Some? { assert rest[start + skipped.value..] == body[skipped.value..]; }
      } else {
        var end := FenceClose(body, 0);
        if end.Some? {
          assert rest[start..start + end.value] == body[..end.value];
          assert rest[marker.value + 3..] == OnePass(rest).rest;
        } else {
          assert rest[start..|rest|] == body;
        }
      }
    }
  }

  /** Every fenced candidate is one contiguous part of the text. */
  lemma {:induction false} FencedArePart(rest: string)
    ensures forall k | 0 <= k < |FencedFrom(rest).closed| :: IsPart(rest, FencedFrom(rest).closed[k])
    ensures forall k | 0 <= k < |FencedFrom(rest).open| :: IsPart(rest, FencedFrom(rest).open[k])
    decreases |rest|
  {
    hide OnePass, IsPart;
    PassIsPart(rest);
    if OnePass(rest).More? {
      var a: nat :| a <= |rest| && rest[a..] == OnePass(rest).rest;
      var later := FencedFrom(rest[a..]);
      FencedArePart(rest[a..]);
      forall k | 0 <= k < |later.closed| ensures IsPart(rest, later.closed[k]) { PartOfRest(rest, a, later.closed[k]); }
      forall k | 0 <= k < |later.open| ensures IsPart(rest, later.open[k]) { PartOfRest(rest, a, later.open[k]); }
    }
  }

  lemma RunIsFusion(text: string, found: seq<Found>, s: Schema, i: nat, j: nat)
    requires i < j < |found| && Ordered(text, found) && Adjacent(text, found, i, j)
    requires FuseRun(text, found[i..j + 1], s).Fused?
    ensures var v := FuseRun(text, found[i..j + 1], s).value; Conforms(v, s) && IsFusion(text, found, v)
  {
    hide Separator, Conforms, Adjacent, MergeAll;
    var v := FuseRun(text, found[i..j + 1], s).value;
    assert MergeOf(text, found, i, j) == Union(v.fields);
  }

  lemma {:induction false} FusionIsMerge(text: string, found: seq<Found>, s: Schema, alnum: char -> bool, i: nat)
    requires i <= |found| && Ordered(text, found) && Fuse(text, found, s, alnum, i).Fused?
    ensures var v := Fuse(text, found, s, alnum, i).value; Conforms(v, s) && IsFusion(text, found, v)
    decreases |found| - i
  {
    hide Separator, Residue, Conforms, Adjacent, FuseRun, IsFusion, RunEnd;
    var j := RunEnd(text, found, i);
    if j > i && Residue(text[found[j].end..], alnum) {
      RunIsFusion(text, found, s, i, j);
    } else {
      FusionIsMerge(text, found, s, alnum, j + 1);
    }
  }

  lemma GoodPartIsSpan(text: string, texts: seq<string>, s: Schema, v: Json)
    requires v in GoodOnes(texts, s) && forall k | 0 <= k < |texts| :: IsPart(text, texts[k])
    ensures Conforms(v, s) && IsSpan(text, v)
  {
    var k :| 0 <= k < |texts| && Candidate(texts[k], s) == Good(v);
    var a, b :| 0 <= a <= b <= |text| && text[a..b] == texts[k];
    assert Decode(text[a..b]) == Some(v);
  }

  lemma BareIsSound(text: string, s: Schema, alnum: char -> bool, v: Json)
    requires v in BareResult(text, s, alnum).values
    ensures Conforms(v, s) && (IsSpan(text, v) || IsFusion(text, Bare(text, s, 0), v))
  {
    hide Bare, Valid, Fuse, Conforms, Decode, IsFusion, Residue;
    var found := Bare(text, s, 0);
    var valid := Valid(found);
    ValidAreGood(found);
    if |valid| >= 1 {
      var k :| 0 <= k < |valid| && valid[k].parsed.value == v;
      var f := valid[k];
      assert Decode(text[f.start..f.end]) == Some(v);
    } else {
      FusionIsMerge(text, found, s, alnum, 0);
    }
  }

  /** Whatever is returned conforms to the widened schema, and is one span of the text or the
      union of adjacent objects of it. */
  lemma ParseIsSound(text: string, schema: Schema, preferTerminal: bool, alnum: char -> bool)
    requires ParseText(text, schema, preferTerminal, alnum).Answer?
    ensures var v := ParseText(text, schema, preferTerminal, alnum).value;
            Conforms(v, Optional(schema)) && (IsSpan(text, v) || IsFusion(text, Bare(text, Optional(schema), 0), v))
  {
    hide Bare, Conforms, Decode, IsFusion, FencedFrom, GoodOnes, BareResult, Optional, FirstError;
    var s := Optional(schema);
    var v := ParseText(text, schema, preferTerminal, alnum).value;
    if Candidate(text, s).Good? {
      assert text[0..|text|] == text;
    } else {
      var fences := FencedFrom(text);
      FencedArePart(text);
      if v in GoodOnes(fences.closed, s) { GoodPartIsSpan(text, fences.closed, s, v); }
      else if v in GoodOnes(fences.open, s) { GoodPartIsSpan(text, fences.open, s, v); }
      else { BareIsSound(text, s, alnum, v); }
    }
  }

  // ---- Round trip ---------------------------------------------------------------------------------------------

  lemma {:induction false} BareSkips(text: string, s: Schema, i: nat, j: nat)
    requires i <= j <= |text| && forall k: nat | i <= k < j :: text[k] != '{' && !FenceAt(text, k)
    ensures Bare(text, s, i) == Bare(text, s, j)
    decreases j - i
  {
    if i < j { BareSkips(text, s, i + 1, j); }
  }

  /** Prose before a braced object keeps the whole text from being JSON itself. */
  lemma ProseIsNotJson(prose: string, body: string, tail: string)
    requires '{' !in prose && !Blank(prose) && Blank(tail) && body != "" && body[|body| - 1] == '}'
    ensures Decode(prose + body + tail).None?
  {
    hide ReadValue;
    var text := prose + body + tail;
    var brace := |prose| + |body| - 1;
    assert text[brace] == '}';
    forall x | brace < x < |text| ensures IsSpace(text[x]) { assert text[x] == tail[x - brace - 1]; }
    var k :| 0 <= k < |prose| && !IsSpace(prose[k]);
    assert text[k] == prose[k];
    var i := SkipSpace(text, 0);
    assert i <= k;
    assert text[i] == prose[i];
    if ReadValue(text, i).Some? {
      OnlyObjectsEndInBrace(text, i);
      var last := ReadValue(text, i).value.1 - 1;
      assert !IsSpace(text[last]);
    }
  }

  lemma OneAnswer(text: string, s: Schema, alnum: char -> bool, start: nat, end: nat, v: Json)
    requires start <= end <= |text| && Bare(text, s, 0) == [Found(start, end, Good(v))] && Blank(text[end..])
    ensures BareResult(text, s, alnum) == BareAnswers([v], None)
  {
    hide Bare, Blank, OnlyResidue, NoFence;
    var found := [Found(start, end, Good(v))];
    assert found[1..] == [];
    assert Valid(found) == found;
    assert Values(Valid(found)) == [v];
  }

  lemma NoFenceNoCandidates(text: string)
    requires NoFence(text)
    ensures FencedFrom(text) == Fences([], [])
  {}

  lemma OnlyAnswer(text: string, schema: Schema, preferTerminal: bool, alnum: char -> bool, v: Json)
    requires Decode(text).None? && FencedFrom(text) == Fences([], []) &&
             BareResult(text, Optional(schema), alnum) == BareAnswers([v], None)
    ensures ParseText(text, schema, preferTerminal, alnum) == Answer(v)
  {
    hide Decode, FencedFrom, BareResult, Optional, Conforms;
  }

  lemma ObjectIsScanned(prose: string, body: string, tail: string)
    requires body != "" && body[0] == '{' && body[|body| - 1] == '}' && Decode(body).Some?
    ensures Scan(prose + body + tail, |prose|, Outside(0)) == Some(|prose| + |body|)
    ensures (prose + body + tail)[|prose| + |body|..] == tail
  {
    hide Decode, Scan;
    ScanFindsObject(body);
    ScanIsLocal(prose, body, tail, 0, Outside(0));
  }

  /** Any object's text after prose without a brace or fence comes back as that object. */
  lemma ProseThenObject(prose: string, body: string, tail: string, v: Json, schema: Schema, preferTerminal: bool,
                        alnum: char -> bool)
    requires '{' !in prose && !Blank(prose) && Blank(tail) && NoFence(prose + body + tail)
    requires body != "" && body[0] == '{' && body[|body| - 1] == '}'
    requires Decode(body) == Some(v) && Conforms(v, Optional(schema))
    ensures Scan(prose + body + tail, |prose|, Outside(0)) == Some(|prose| + |body|)
    ensures ParseText(prose + body + tail, schema, preferTerminal, alnum) == Answer(v)
  {
    hide Decode, Scan, Bare, Optional, Conforms, ParseText, BareResult, NoFence, Blank, FencedFrom, SpansOf, FenceAt,
         IsSpace;
    var text, s := prose + body + tail, Optional(schema);
    ProseIsNotJson(prose, body, tail);
    ObjectIsScanned(prose, body, tail);
    OneObject(prose, body, tail, v, s);
    OneAnswer(text, s, alnum, |prose|, |prose| + |body|, v);
    NoFenceNoCandidates(text);
    OnlyAnswer(text, schema, preferTerminal, alnum, v);
  }

  lemma BareTakes(text: string, s: Schema, i: nat, end: nat)
    requires i < |text| && text[i] == '{' && Scan(text, i, Outside(0)) == Some(end)
    ensures end <= |text| && Bare(text, s, i) == [Found(i, end, Candidate(text[i..end], s))] + Bare(text, s, end)
  {
    hide Scan, Candidate, SpansOf, ContentStart, SkipFence;
  }

  lemma BareNothing(text: string, s: Schema, i: nat)
    requires i <= |text| && forall k: nat | i <= k < |text| :: text[k] != '{' && !FenceAt(text, k)
    ensures Bare(text, s, i) == []
  {
    BareSkips(text, s, i, |text|);
  }

  lemma NoBraceOutside(prose: string, body: string, tail: string)
    requires '{' !in prose && Blank(tail) && body != ""
    ensures var text := prose + body + tail;
            (forall k: nat | k < |prose| :: text[k] != '{') &&
              (forall k: nat | |prose| + |body| <= k < |text| :: text[k] != '{') &&
            text[|prose|] == body[0] && text[|prose|..|prose| + |body|] == body
  {
    var text := prose + body + tail;
    forall k: nat | k < |prose| ensures text[k] != '{' { assert text[k] == prose[k]; }
    forall k: nat | |prose| + |body| <= k < |text|
      ensures text[k] != '{'
    {
      assert text[k] == tail[k - |prose| - |body|];
    }
  }

  /** One braced span, with neither brace nor fence before or after it. */
  lemma OneSpan(text: string, s: Schema, start: nat, end: nat)
    requires start < end <= |text| && text[start] == '{' && Scan(text, start, Outside(0)) == Some(end)
    requires forall k: nat | k < start || end <= k < |text| :: text[k] != '{'
    requires NoFence(text)
    ensures Bare(text, s, 0) == [Found(start, end, Candidate(text[start..end], s))]
  {
    hide Scan, Candidate, Bare, FenceAt, SpansOf;
    BareSkips(text, s, 0, start);
    BareTakes(text, s, start, end);
    BareNothing(text, s, end);
  }

  lemma OneObject(prose: string, body: string, tail: string, v: Json, s: Schema)
    requires '{' !in prose && Blank(tail) && NoFence(prose + body + tail) && body != "" && body[0] == '{'
    requires Candidate(body, s) == Good(v)
    requires Scan(prose + body + tail, |prose|, Outside(0)) == Some(|prose| + |body|)
    ensures Bare(prose + body + tail, s, 0) == [Found(|prose|, |prose| + |body|, Good(v))]
  {
    hide Scan, Candidate, Bare, FenceAt, NoFence, Blank;
    NoBraceOutside(prose, body, tail);
    OneSpan(prose + body + tail, s, |prose|, |prose| + |body|);
  }

  // ---- Fenced round trip ------------------------------------------------------------------------------------

  const FENCE := "```"

  predicate Word(info: string) { forall k | 0 <= k < |info| :: IsWordChar(info[k]) }

  /** No fence starts in the prose, not even one that the fence after it would complete. */
  predicate Unfenced(prose: string) { NoFence(prose) && (prose != "" ==> prose[|prose| - 1] != '`') }

  /** Prose, an opening fence with its info word, a body, and a closing fence on a line of its own. */
  function FencedBlock(prose: string, info: string, body: string, tail: string): string {
    prose + FENCE + info + "\n" + body + "\n" + FENCE + tail
  }

  /** The rest of the closing fence's line is blank. */
  predicate ClosesBare(tail: string) { Blank(tail[..LineEnd(tail, 0)]) }

  lemma NextFenceIs(s: string, i: nat, k: nat)
    requires i <= k && FenceAt(s, k) && forall j: nat | i <= j < k :: !FenceAt(s, j)
    ensures NextFence(s, i) == Some(k)
  {
    assert k < |s| && NextFence(s, i) == Some(k);
  }

  lemma SkipWhileIs(s: string, i: nat, test: char -> bool, j: nat)
    requires i <= j <= |s| && (j < |s| ==> !test(s[j])) && forall k | i <= k < j :: test(s[k])
    ensures SkipWhile(s, i, test) == j
  {
    var found := SkipWhile(s, i, test);
    assert found < |s| ==> !test(s[found]);
  }

  /** A fence followed by an info word and a newline: its content starts on the next line. */
  lemma ContentStartIs(s: string, i: nat, info: string)
    requires FenceAt(s, i) && Word(info) && i + 3 + |info| < |s|
    requires s[i + 3..i + 3 + |info|] == info && s[i + 3 + |info|] == '\n'
    ensures ContentStart(s, i) == (i + 3 + |info| + 1, info)
  {
    var line := i + 3 + |info|;
    forall k | i + 3 <= k < line ensures IsWordChar(s[k]) { assert s[k] == info[k - i - 3]; }
    SkipWhileIs(s, i + 3, c => c != '\n', line);
    assert LineEnd(s, i + 3) == line;
    var l := s[..line];
    SkipWhileIs(l, i + 3, c => c == ' ' || c == '\t', i + 3);
    SkipWhileIs(l, i + 3, IsWordChar, line);
  }

  /** The text after an opening fence's line: a body without a fence, and a closing fence on a line of its own. */
  function Inner(body: string, tail: string): string { body + "\n" + FENCE + tail }

  lemma InnerAt(body: string, tail: string)
    ensures var s := Inner(body, tail);
            |s| == |body| + 4 + |tail| && s[|body|] == '\n' && FenceAt(s, |body| + 1) &&
            s[..|body| + 1] == body + "\n" && s[|body| + 4..] == tail
    ensures NoFence(body) ==> forall k: nat | k <= |body| :: !FenceAt(Inner(body, tail), k)
  {
    var s := Inner(body, tail);
    assert s[|body| + 1] == '`' && s[|body| + 2] == '`' && s[|body| + 3] == '`';
    if NoFence(body) {
      forall k: nat | k <= |body| ensures !FenceAt(s, k) {
        if k + 3 <= |body| {
          assert !FenceAt(body, k);
          assert s[k] == body[k] && s[k + 1] == body[k + 1] && s[k + 2] == body[k + 2];
        }
        assert k + 3 <= |body| || (s[|body|] == '\n' && (k == |body| || k + 1 == |body| || k + 2 == |body|));
      }
    }
  }

  /** A line that starts at or before the newline in front of the closing fence ends there at the latest, and does not
      itself start with a fence. */
  lemma BodyLine(s: string, i: nat, n: nat)
    requires i <= n < |s| && s[n] == '\n' && forall k: nat | k <= n :: !FenceAt(s, k)
    ensures i <= LineEnd(s, i) <= n && s[LineEnd(s, i)] == '\n'
    ensures var line := LineEnd(s, i);
            Indent(s, i, line) <= line && !FenceAt(s[..line], Indent(s, i, line))
  {
    var line := LineEnd(s, i);
    assert s[n] == '\n';
    var l, indent := s[..line], Indent(s, i, line);
    assert FenceAt(l, indent) ==> FenceAt(s, indent);
  }

  /** The closing fence's line has no indent and starts with the fence. */
  lemma ClosingLine(s: string, i: nat)
    requires i <= |s| && FenceAt(s, i)
    ensures var line := LineEnd(s, i);
            i + 3 <= line && Indent(s, i, line) == i && FenceAt(s[..line], i)
  {
    var line := LineEnd(s, i);
    assert s[i] != '\n' && s[i + 1] != '\n' && s[i + 2] != '\n';
    SkipWhileIs(s[..line], i, c => c == ' ' || c == '\t', i);
  }

  lemma {:induction false} ClosesAt(s: string, i: nat, n: nat)
    requires i <= n + 1 && n < |s| && s[n] == '\n' && FenceAt(s, n + 1) && forall k: nat | k <= n :: !FenceAt(s, k)
    ensures FenceClose(s, i) == Some(n + 1)
    decreases n + 1 - i
  {
    hide LineEnd, Indent, FenceAt;
    if i == n + 1 {
      ClosingLine(s, i);
    } else {
      BodyLine(s, i, n);
      ClosesAt(s, LineEnd(s, i) + 1, n);
    }
  }

  lemma {:induction false} SkipsTo(s: string, i: nat, n: nat)
    requires i <= n + 1 && n < |s| && s[n] == '\n' && FenceAt(s, n + 1) && forall k: nat | k <= n :: !FenceAt(s, k)
    requires Blank(s[n + 4..LineEnd(s, n + 1)])
    ensures SkipFence(s, i, 1) == Some(n + 4)
    decreases n + 1 - i
  {
    hide LineEnd, Indent, FenceAt, Blank;
    if i == n + 1 {
      ClosingLine(s, i);
    } else {
      BodyLine(s, i, n);
      SkipsTo(s, LineEnd(s, i) + 1, n);
    }
  }

  /** What a fence's body is taken for: a json fence ends where its closing fence's line starts, and skipping any fence
      ends after the closing one. */
  lemma InnerEnds(body: string, tail: string)
    requires NoFence(body) && ClosesBare(tail)
    ensures FenceClose(Inner(body, tail), 0) == Some(|body| + 1)
    ensures SkipFence(Inner(body, tail), 0, 1) == Some(|body| + 4)
  {
    hide FenceAt, Inner, SkipFence, FenceClose;
    var s, n := Inner(body, tail), |body|;
    InnerAt(body, tail);
    ClosesAt(s, 0, n);
    ClosingRestIsBlank(body, tail);
    SkipsTo(s, 0, n);
  }

  lemma ClosingRestIsBlank(body: string, tail: string)
    requires ClosesBare(tail)
    ensures var s := Inner(body, tail);
            |body| + 4 <= LineEnd(s, |body| + 1) && Blank(s[|body| + 4..LineEnd(s, |body| + 1)])
  {
    var s, n := Inner(body, tail), |body| + 4;
    InnerAt(body, tail);
    var line, own := LineEnd(s, n - 3), LineEnd(tail, 0);
    forall k | n - 3 <= k < n + own ensures s[k] != '\n' { if k >= n { assert s[k] == tail[k - n]; } }
    assert n + own < |s| ==> s[n + own] == tail[own];
    SkipWhileIs(s, n - 3, c => c != '\n', n + own);
    assert s[n..line] == tail[..own];
  }

  /** Where the parts of the text stand. */
  lemma BlockChars(prose: string, info: string, body: string, tail: string)
    ensures var text, n := FencedBlock(prose, info, body, tail), |prose|;
            n + 4 + |info| <= |text| && text[n] == '`' && text[n + 1] == '`' && text[n + 2] == '`' &&
            text[n + 3..n + 3 + |info|] == info && text[n + 3 + |info|] == '\n' &&
            text[n + 4 + |info|..] == Inner(body, tail) && text[..n] == prose
  {}

  lemma ProseHoldsNoFence(text: string, prose: string)
    requires |prose| < |text| && text[..|prose|] == prose && Unfenced(prose)
    ensures forall k: nat | k < |prose| :: text[k] == prose[k] && !FenceAt(text, k)
  {
    forall k: nat | k < |prose| ensures text[k] == prose[k] && !FenceAt(text, k) {
      assert forall l: nat | l < |prose| :: text[l] == text[..|prose|][l];
      assert !FenceAt(prose, k);
    }
  }

  lemma BlockAt(prose: string, info: string, body: string, tail: string)
    requires Unfenced(prose) && Word(info)
    ensures var text := FencedBlock(prose, info, body, tail);
            var start := |prose| + 4 + |info|;
            NextFence(text, 0) == Some(|prose|) && FenceAt(text, |prose|) &&
            ContentStart(text, |prose|) == (start, info) && start <= |text| && text[start..] == Inner(body, tail) &&
            (forall k: nat | k < |prose| :: text[k] == prose[k] && !FenceAt(text, k))
  {
    hide FencedBlock, Inner, Unfenced, ContentStart, NextFence;
    var text := FencedBlock(prose, info, body, tail);
    BlockChars(prose, info, body, tail);
    ProseHoldsNoFence(text, prose);
    NextFenceIs(text, 0, |prose|);
    ContentStartIs(text, |prose|, info);
  }

  /** The scan goes on behind a block that is not json, wherever skipping it ends. */
  lemma BlockIsSkipped(prose: string, info: string, body: string, tail: string)
    requires Unfenced(prose) && Word(info) && !IsJsonInfo(info)
    requires SkipFence(Inner(body, tail), 0, 1) == Some(|body| + 4)
    ensures FencedFrom(FencedBlock(prose, info, body, tail)) == FencedFrom(tail)
  {
    hide ContentStart, SkipFence, FenceClose, IsJsonInfo, FenceAt, Inner, FencedBlock, NextFence, Unfenced;
    var text := FencedBlock(prose, info, body, tail);
    BlockAt(prose, info, body, tail);
    InnerAt(body, tail);
    assert OnePass(text) == More(Fences([], []), tail);
    var later := FencedFrom(tail);
    assert [] + later.closed == later.closed && [] + later.open == later.open;
  }

  /** A closed block under any other info word yields no candidate: the scan goes on after it. */
  lemma OtherFenceIsSkipped(prose: string, info: string, body: string, tail: string)
    requires Unfenced(prose) && Word(info) && !IsJsonInfo(info) && NoFence(body) && ClosesBare(tail)
    ensures FencedFrom(FencedBlock(prose, info, body, tail)) == FencedFrom(tail)
  {
    hide SkipFence, FenceClose, IsJsonInfo, Inner, FencedBlock, ClosesBare, NoFence, FencedFrom, Unfenced;
    InnerEnds(body, tail);
    BlockIsSkipped(prose, info, body, tail);
  }

  /** A closed block under the word json, in any case, yields its body; the scan goes on behind the opening fence. */
  lemma JsonFenceIsTaken(prose: string, info: string, body: string, tail: string)
    requires Unfenced(prose) && Word(info) && IsJsonInfo(info) && NoFence(body) && ClosesBare(tail)
    ensures var later := FencedFrom(info + "\n" + Inner(body, tail));
            FencedFrom(FencedBlock(prose, info, body, tail)) == Fences([body + "\n"] + later.closed, later.open)
  {
    hide ContentStart, SkipFence, FenceClose, IsJsonInfo, FenceAt, ClosesBare, NoFence;
    var text, start := FencedBlock(prose, info, body, tail), |prose| + 4 + |info|;
    BlockAt(prose, info, body, tail);
    InnerEnds(body, tail);
    InnerAt(body, tail);
    assert text[|prose| + 3..] == info + "\n" + Inner(body, tail);
    assert OnePass(text) == More(Fences([body + "\n"], []), info + "\n" + Inner(body, tail));
    var later := FencedFrom(info + "\n" + Inner(body, tail));
    assert [] + later.open == later.open;
  }

  /** A block without an info word leaves the scan somewhere behind its fence. */
  lemma NamelessPass(s: string, n: nat) returns (at: nat)
    requires NextFence(s, 0) == Some(n) && FenceAt(s, n) && ContentStart(s, n).1 == ""
    ensures n + 3 <= at <= |s| && OnePass(s) == More(Fences([], []), s[at..])
  {
    hide NextFence, SkipFence, FenceClose, FenceAt;
    var start := ContentStart(s, n).0;
    var skipped := SkipFence(s[start..], 0, 1);
    at := start + if skipped.Some? then skipped.value else 0;
  }

  /** Behind the opening fence of the last block there is only the closing one, which opens nothing. */
  lemma NothingBehind(info: string, body: string, tail: string)
    requires Word(info) && NoFence(body) && Blank(tail)
    ensures FencedFrom(info + "\n" + Inner(body, tail)) == Fences([], [])
  {
    hide NextFence, ContentStart, OnePass, Inner;
    var s, n := info + "\n" + Inner(body, tail), |info| + 1 + |body| + 1;
    ClosingFenceAt(info, body, tail);
    NextFenceIs(s, 0, n);
    BlankTailInfo(s, n);
    var at := NamelessPass(s, n);
    var rest := s[at..];
    forall k: nat | k < |rest| ensures !FenceAt(rest, k) { assert IsSpace(s[at + k]); }
    NoFenceNoCandidates(rest);
  }

  lemma ClosingFenceAt(info: string, body: string, tail: string)
    requires Word(info) && NoFence(body) && Blank(tail)
    ensures var s, n := info + "\n" + Inner(body, tail), |info| + 1 + |body| + 1;
            FenceAt(s, n) && (forall k: nat | k < n :: !FenceAt(s, k)) && forall k | n + 3 <= k < |s| :: IsSpace(s[k])
  {
    var inner := Inner(body, tail);
    var s, n := info + "\n" + inner, |info| + 1 + |body| + 1;
    InnerAt(body, tail);
    assert s[|info| + 1..] == inner;
    assert s[n] == inner[|body| + 1] && s[n + 1] == inner[|body| + 2] && s[n + 2] == inner[|body| + 3];
    forall k: nat | k < n ensures !FenceAt(s, k) {
      if k < |info| { assert s[k] == info[k] && IsWordChar(info[k]); }
      else if k > |info| {
        assert !FenceAt(inner, k - |info| - 1);
        assert FenceAt(s, k) ==> FenceAt(inner, k - |info| - 1);
      }
    }
    forall k | n + 3 <= k < |s| ensures IsSpace(s[k]) { assert s[k] == tail[k - n - 3]; }
  }

  /** A fence with nothing but whitespace after it names no info word. */
  lemma BlankTailInfo(s: string, n: nat)
    requires FenceAt(s, n) && forall k | n + 3 <= k < |s| :: IsSpace(s[k])
    ensures ContentStart(s, n).1 == ""
  {
    var line := LineEnd(s, n + 3);
    var from := SkipWhile(s[..line], n + 3, c => c == ' ' || c == '\t');
    SkipWhileIs(s[..line], from, IsWordChar, from);
  }

  /** The block is skipped by the scan for bare objects, so its object does not count twice. */
  lemma NothingBare(prose: string, info: string, body: string, tail: string, s: Schema)
    requires '{' !in prose && Unfenced(prose) && Word(info) && NoFence(body) && Blank(tail)
    ensures Bare(FencedBlock(prose, info, body, tail), s, 0) == []
  {
    hide ContentStart, SkipFence, Inner, FencedBlock, Bare, NoFence, SpansOf;
    var text, start := FencedBlock(prose, info, body, tail), |prose| + 4 + |info|;
    BlockAt(prose, info, body, tail);
    InnerEnds(body, tail);
    InnerAt(body, tail);
    BareSkips(text, s, 0, |prose|);
    var end := start + |body| + 4;
    BareFence(text, s, |prose|, end);
    assert text[end..] == tail;
    forall k: nat | end <= k < |text| ensures text[k] != '{' && !FenceAt(text, k) {
      assert text[k] == tail[k - end] && IsSpace(tail[k - end]);
    }
    BareNothing(text, s, end);
  }

  lemma BareFence(text: string, s: Schema, i: nat, end: nat)
    requires FenceAt(text, i)
    requires var start := ContentStart(text, i).0;
             SkipFence(text[start..], 0, 1).Some? && end == start + SkipFence(text[start..], 0, 1).value
    ensures end <= |text| && Bare(text, s, i) == Bare(text, s, end)
  {
    hide ContentStart, SkipFence, SpansOf;
  }

  lemma NoBareAnswer(text: string, s: Schema, alnum: char -> bool)
    requires Bare(text, s, 0) == []
    ensures BareResult(text, s, alnum) == BareAnswers([], None)
  {
    hide Bare;
    assert Valid([]) == [];
  }

  lemma BlockIsNotJson(prose: string, info: string, body: string, tail: string)
    requires Word(info)
    ensures Decode(FencedBlock(prose, info, body, tail)).None?
  {
    hide Decode;
    var text, k, m := FencedBlock(prose, info, body, tail), |prose|, |prose| + 3 + |info|;
    assert text[k] == '`' && text[k + 1] == '`' && text[k + 2] == '`' && text[m] == '\n';
    forall x | k <= x < m ensures text[x] != '"' && text[x] != '\\' {
      if x >= k + 3 { assert text[x] == info[x - k - 3] && IsWordChar(info[x - k - 3]); }
    }
    BarredIsNotJson(text, k, m);
  }

  lemma OnlyFencedAnswer(text: string, schema: Schema, preferTerminal: bool, alnum: char -> bool, body: string, v: Json)
    requires Decode(text).None? && FencedFrom(text) == Fences([body], []) &&
             BareResult(text, Optional(schema), alnum) == BareAnswers([], None)
    requires Decode(body) == Some(v) && Conforms(v, Optional(schema))
    ensures ParseText(text, schema, preferTerminal, alnum) == Answer(v)
  {
    hide Decode, FencedFrom, BareResult, Optional, Conforms, FirstError;
    var s := Optional(schema);
    assert Candidate(body, s) == Good(v);
    assert [body][..0] == [];
    assert GoodOnes([body], s) == [v];
    assert GoodOnes([], s) == [];
  }

  /** The canonical answer: prose, then one json block. Its value comes back, whatever kind of JSON it is. */
  lemma FencedAnswer(prose: string, info: string, body: string, tail: string, v: Json, schema: Schema,
                     preferTerminal: bool, alnum: char -> bool)
    requires '{' !in prose && Unfenced(prose) && Word(info) && IsJsonInfo(info) && NoFence(body) && Blank(tail)
    requires Decode(body) == Some(v) && Conforms(v, Optional(schema))
    ensures ParseText(FencedBlock(prose, info, body, tail), schema, preferTerminal, alnum) == Answer(v)
  {
    hide Decode, Optional, Conforms, ParseText, BareResult, FencedFrom, FencedBlock, Inner, NoFence, Unfenced;
    var text, s := FencedBlock(prose, info, body, tail), Optional(schema);
    BlockIsNotJson(prose, info, body, tail);
    JsonFenceIsTaken(prose, info, body, tail);
    NothingBehind(info, body, tail);
    assert [body + "\n"] + [] == [body + "\n"];
    NothingBare(prose, info, body, tail, s);
    NoBareAnswer(text, s, alnum);
    BlanksMayFollow(body, "\n");
    OnlyFencedAnswer(text, schema, preferTerminal, alnum, body + "\n", v);
  }

  // ---- One answer or none -----------------------------------------------------------------------------------

  predicate IsGood(text: string, s: Schema) { Candidate(text, s).Good? }

  lemma {:induction false} EveryGoodCounts(texts: seq<string>, s: Schema, i: nat)
    requires i < |texts| && IsGood(texts[i], s)
    ensures Candidate(texts[i], s).value in GoodOnes(texts, s)
  {
    hide Candidate;
    if i < |texts| - 1 { EveryGoodCounts(texts[..|texts| - 1], s, i); }
  }

  lemma {:induction false} TwoGoodCountTwice(texts: seq<string>, s: Schema, i: nat, j: nat)
    requires i < j < |texts| && IsGood(texts[i], s) && IsGood(texts[j], s)
    ensures |GoodOnes(texts, s)| >= 2
  {
    hide Candidate;
    var before := texts[..|texts| - 1];
    if j < |texts| - 1 { TwoGoodCountTwice(before, s, i, j); } else { EveryGoodCounts(before, s, i); }
  }

  /** An answer is never picked from several: at most one fenced text of a kind conforms, and it is the answer; bare
      objects agree with it, and there are several of them only if the last one was asked for. */
  lemma AnswerIsOnlyOne(text: string, schema: Schema, preferTerminal: bool, alnum: char -> bool)
    requires ParseText(text, schema, preferTerminal, alnum).Answer? && !IsGood(text, Optional(schema))
    ensures var v, s := ParseText(text, schema, preferTerminal, alnum).value, Optional(schema);
            var closed, open := FencedFrom(text).closed, FencedFrom(text).open;
            var bare := BareResult(text, s, alnum).values;
            (forall i, j | 0 <= i < j < |closed| :: !IsGood(closed[i], s) || !IsGood(closed[j], s)) &&
            (forall i, j | 0 <= i < j < |open| :: !IsGood(open[i], s) || !IsGood(open[j], s)) &&
            (forall i | 0 <= i < |closed| && IsGood(closed[i], s) :: Candidate(closed[i], s) == Good(v)) &&
            (forall i | 0 <= i < |open| && IsGood(open[i], s) ::
               Candidate(open[i], s) == Good(v) || exists j | 0 <= j < |closed| :: IsGood(closed[j], s)) &&
            (|bare| > 1 ==> preferTerminal) && (bare != [] ==> v == bare[|bare| - 1] || Same(v, bare[|bare| - 1]))
  {
    hide Candidate, FencedFrom, BareResult, Optional, FirstError, Prosaic, Decode, Same, GoodOnes;
    var v, s := ParseText(text, schema, preferTerminal, alnum).value, Optional(schema);
    var closed, open := FencedFrom(text).closed, FencedFrom(text).open;
    forall i, j | 0 <= i < j < |closed| ensures !IsGood(closed[i], s) || !IsGood(closed[j], s) {
      if IsGood(closed[i], s) && IsGood(closed[j], s) { TwoGoodCountTwice(closed, s, i, j); }
    }
    forall i, j | 0 <= i < j < |open| ensures !IsGood(open[i], s) || !IsGood(open[j], s) {
      if IsGood(open[i], s) && IsGood(open[j], s) { TwoGoodCountTwice(open, s, i, j); }
    }
    forall i | 0 <= i < |closed| && IsGood(closed[i], s) ensures Candidate(closed[i], s) == Good(v) {
      EveryGoodCounts(closed, s, i);
    }
    forall i | 0 <= i < |open| && IsGood(open[i], s)
      ensures Candidate(open[i], s) == Good(v) || exists j | 0 <= j < |closed| :: IsGood(closed[j], s)
    {
      EveryGoodCounts(open, s, i);
      if GoodOnes(closed, s) != [] { assert GoodOnes(closed, s)[0] in GoodOnes(closed, s); }
    }
  }

  /** Prose alone is refused as prose. */
  lemma ProseIsRefused(text: string, schema: Schema, preferTerminal: bool, alnum: char -> bool)
    requires '{' !in text && NoFence(text) && Decode(text).None?
    ensures ParseText(text, schema, preferTerminal, alnum) == Failed(OnlyProse)
  {
    hide Decode, Optional, Conforms, BareResult, FencedFrom;
    NoFenceNoCandidates(text);
    BareNothing(text, Optional(schema), 0);
    NoBareAnswer(text, Optional(schema), alnum);
  }

  // ---- An answer split in two ---------------------------------------------------------------------------------

  function Commas(gap: string): nat { if gap == "" then 0 else (if gap[0] == ',' then 1 else 0) + Commas(gap[1..]) }

  lemma {:induction false} NoCommas(gap: string)
    ensures Commas(gap) == 0 <==> ',' !in gap
  {
    if gap != "" {
      assert gap == [gap[0]] + gap[1..];
      NoCommas(gap[1..]);
    }
  }

  lemma {:induction false} CommasInTwo(a: string, b: string)
    ensures Commas(a + b) == Commas(a) + Commas(b)
  {
    if a == "" {
      assert a + b == b;
    } else {
      assert (a + b)[1..] == a[1..] + b;
      CommasInTwo(a[1..], b);
    }
  }

  /** Between the parts of a split answer stand whitespace and at most one comma. */
  lemma SeparatorExact(gap: string)
    ensures Separator(gap) <==> Commas(gap) <= 1 && forall c | c in gap :: c == ',' || IsSpace(c)
  {
    NoCommas(gap);
    if i: nat :| i < |gap| && gap[i] == ',' {
      assert gap == gap[..i] + ([','] + gap[i + 1..]);
      CommasInTwo(gap[..i], [','] + gap[i + 1..]);
      CommasInTwo([','], gap[i + 1..]);
      NoCommas(gap[..i]);
      NoCommas(gap[i + 1..]);
      if Separator(gap) { OnlyComma(gap, i); }
      if Commas(gap) <= 1 && forall c | c in gap :: c == ',' || IsSpace(c) {
        BlankWithout(gap, gap[..i]);
        BlankWithout(gap, gap[i + 1..]);
      }
    }
  }

  lemma BlankWithout(gap: string, part: string)
    requires (forall c | c in gap :: c == ',' || IsSpace(c)) && (forall c | c in part :: c in gap) && ',' !in part
    ensures Blank(part)
  {
    forall k | 0 <= k < |part| ensures IsSpace(part[k]) { assert part[k] in part; }
  }

  lemma OnlyComma(gap: string, i: nat)
    requires Separator(gap) && i < |gap| && gap[i] == ','
    ensures ',' !in gap[..i] && ',' !in gap[i + 1..]
    ensures forall c | c in gap :: c == ',' || IsSpace(c)
  {
    assert !IsSpace(',') && !Blank(gap);
    var j :| 0 <= j < |gap| && gap[j] == ',' && Blank(gap[..j]) && Blank(gap[j + 1..]);
    forall k | 0 <= k < |gap| && k != j ensures IsSpace(gap[k]) {
      if k < j { assert gap[k] == gap[..j][k]; } else { assert gap[k] == gap[j + 1..][k - j - 1]; }
    }
  }

  predicate Braced(body: string) { body != "" && body[0] == '{' && body[|body| - 1] == '}' }

  lemma BracedReads(body: string)
    requires Braced(body) && Decode(body).Some?
    ensures ReadValue(body, 0) == Some((Decode(body).value, |body|))
  {
    hide ReadValue;
    assert !IsJsonSpace(body[0]) && !IsJsonSpace(body[|body| - 1]);
    SpaceToEnd(body, ReadValue(body, 0).value.1);
  }

  lemma TwoObjectsAreNotJson(a: string, gap: string, b: string)
    requires Braced(a) && Braced(b) && Decode(a).Some? && Separator(gap)
    ensures Decode(a + gap + b).None?
  {
    hide ReadValue, SkipSpace, Separator;
    var rest, text := gap + b, a + gap + b;
    assert text == a + rest;
    BracedReads(a);
    SeparatorExact(gap);
    assert rest[0] == if gap != "" then gap[0] else '{';
    assert gap != "" ==> gap[0] in gap;
    ValueIsLocal(a, rest, 0);
    SpaceToEnd(text, |a|);
    assert text[|a| + |gap|] == '{';
    StartsHere(text);
  }

  lemma StartsHere(text: string)
    requires text != "" && !IsJsonSpace(text[0])
    ensures SkipSpace(text, 0) == 0
  {}

  /** A braced object inside a text is one span of it. */
  lemma SpanAt(text: string, i: nat, end: nat, s: Schema)
    requires i <= end <= |text| && Braced(text[i..end]) && Decode(text[i..end]).Some?
    ensures text[i] == '{' && Bare(text, s, i) == [Found(i, end, Candidate(text[i..end], s))] + Bare(text, s, end)
  {
    hide Scan, Candidate, Bare, Decode;
    var before, body, after := text[..i], text[i..end], text[end..];
    assert text == before + body + after;
    ScanFindsObject(body);
    ScanIsLocal(before, body, after, 0, Outside(0));
    BareTakes(text, s, i, end);
  }

  lemma GapIsSkipped(text: string, i: nat, j: nat, s: Schema)
    requires i <= j <= |text| && Separator(text[i..j]) && NoFence(text)
    ensures Bare(text, s, i) == Bare(text, s, j)
  {
    hide Bare, FenceAt, Separator;
    var gap := text[i..j];
    SeparatorExact(gap);
    forall k: nat | i <= k < j ensures text[k] != '{' && !FenceAt(text, k) {
      assert text[k] == gap[k - i] && gap[k - i] in gap;
    }
    BareSkips(text, s, i, j);
  }

  lemma TwoParts(a: string, gap: string, b: string)
    ensures var text := a + gap + b;
            |text| == |a| + |gap| + |b| && text[0..|a|] == a && text[|a|..|a| + |gap|] == gap &&
            text[|a| + |gap|..|text|] == b
  {}

  lemma TwoSpans(text: string, s: Schema, a: nat, b: nat, f: Found, g: Found)
    requires a <= b <= |text|
    requires Bare(text, s, 0) == [f] + Bare(text, s, a) && Bare(text, s, a) == Bare(text, s, b)
    requires Bare(text, s, b) == [g] + Bare(text, s, |text|)
    ensures Bare(text, s, 0) == [f, g]
  {
    hide Bare;
    NothingAtEnd(text, s);
  }

  lemma TwoFound(text: string, i: nat, j: nat, s: Schema)
    requires i <= j <= |text| && Separator(text[i..j]) && NoFence(text)
    requires Braced(text[0..i]) && Braced(text[j..|text|]) && Decode(text[0..i]).Some? && Decode(text[j..|text|]).Some?
    ensures Bare(text, s, 0) ==
            [Found(0, i, Candidate(text[0..i], s)), Found(j, |text|, Candidate(text[j..|text|], s))]
  {
    hide Candidate, Bare, FenceAt, SpansOf, Decode, Separator, NoFence, Braced;
    SpanAt(text, 0, i, s);
    GapIsSkipped(text, i, j, s);
    SpanAt(text, j, |text|, s);
    TwoSpans(text, s, i, j, Found(0, i, Candidate(text[0..i], s)), Found(j, |text|, Candidate(text[j..|text|], s)));
  }

  lemma NothingAtEnd(text: string, s: Schema)
    ensures Bare(text, s, |text|) == []
  {}

  lemma TwoFused(a: string, gap: string, b: string, s: Schema, alnum: char -> bool, fa: map<string, Json>,
                 fb: map<string, Json>)
    requires Braced(a) && Braced(b) && Separator(gap) && NoFence(a + gap + b)
    requires Decode(a) == Some(Obj(fa)) && Decode(b) == Some(Obj(fb)) && fa.Keys !! fb.Keys
    requires !Conforms(Obj(fa), s) && !Conforms(Obj(fb), s) && Conforms(Obj(fa + fb), s)
    ensures BareResult(a + gap + b, s, alnum) == BareAnswers([Obj(fa + fb)], None)
  {
    hide Decode, Bare, Separator, Conforms, NoFence, OnlyResidue;
    var text := a + gap + b;
    TwoParts(a, gap, b);
    TwoFound(text, |a|, |a| + |gap|, s);
    var f, g := Found(0, |a|, Violates), Found(|a| + |gap|, |text|, Violates);
    var found := [f, g];
    assert Candidate(a, s) == Violates && Candidate(b, s) == Violates;
    assert Bare(text, s, 0) == found;
    assert found[1..] == [g] && [g][1..] == [];
    assert Valid([g]) == Valid([g][1..]) == [];
    assert Valid(found) == Valid(found[1..]);
    assert RunEnd(text, found, 0) == 1;
    assert Residue(text[|text|..], alnum);
    assert found[0..2] == found && found[..1] == [f] && [f][..0] == [];
    TwoMerged(text, f, g, fa, fb);
  }

  lemma TwoMerged(text: string, f: Found, g: Found, fa: map<string, Json>, fb: map<string, Json>)
    requires f.start <= f.end <= |text| && g.start <= g.end <= |text|
    requires FieldsOf(text, f) == Some(fa) && FieldsOf(text, g) == Some(fb)
    requires fa.Keys !! fb.Keys
    ensures MergeAll(text, [f, g]) == Union(fa + fb)
  {
    hide FieldsOf;
    assert [f, g][..1] == [f] && [f][..0] == [];
    assert MergeAll(text, []) == Union(map[]);
    assert map[] + fa == fa;
    assert MergeAll(text, [f]) == Union(fa);
  }

  /** An answer whose fields came in two objects, with whitespace and at most one comma between them, comes back as one
      object where neither part is an answer of its own. */
  lemma SplitAnswerIsFused(a: string, gap: string, b: string, fa: map<string, Json>, fb: map<string, Json>,
                           schema: Schema, preferTerminal: bool, alnum: char -> bool)
    requires Braced(a) && Braced(b) && Separator(gap) && NoFence(a + gap + b)
    requires Decode(a) == Some(Obj(fa)) && Decode(b) == Some(Obj(fb)) && fa.Keys !! fb.Keys
    requires !Conforms(Obj(fa), Optional(schema)) && !Conforms(Obj(fb), Optional(schema))
    requires Conforms(Obj(fa + fb), Optional(schema))
    ensures ParseText(a + gap + b, schema, preferTerminal, alnum) == Answer(Obj(fa + fb))
  {
    hide Decode, Optional, Conforms, ParseText, BareResult, FencedFrom, NoFence, Separator;
    TwoObjectsAreNotJson(a, gap, b);
    TwoFused(a, gap, b, Optional(schema), alnum, fa, fb);
    NoFenceNoCandidates(a + gap + b);
    OnlyAnswer(a + gap + b, schema, preferTerminal, alnum, Obj(fa + fb));
  }
}
