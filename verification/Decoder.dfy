/**
 A JSON decoder (RFC 8259) on character sequences, and the brace scanner that
 finds candidate objects in running text. The scanner knows only braces, quotes
 and backslashes; on every text the decoder accepts it stops where the object ends.
 */
module Decoding {
  import opened Options
  import opened Decimal
  import opened JsonValues

  // ---- The decoder -------------------------------------------------------------------

  predicate IsJsonSpace(c: char) { c == ' ' || c == '\t' || c == '\n' || c == '\r' }

  function SkipSpace(s: string, i: nat): (j: nat)
    requires i <= |s|
    ensures i <= j <= |s|
    ensures forall k | i <= k < j :: IsJsonSpace(s[k])
    decreases |s| - i
  {
    if i < |s| && IsJsonSpace(s[i]) then SkipSpace(s, i + 1) else i
  }

  function SkipDigits(s: string, i: nat): (j: nat)
    requires i <= |s|
    ensures i <= j <= |s|
    ensures forall k | i <= k < j :: IsDigit(s[k])
    decreases |s| - i
  {
    if i < |s| && IsDigit(s[i]) then SkipDigits(s, i + 1) else i
  }

  predicate IsHex(c: char) { IsDigit(c) || 'a' <= c <= 'f' || 'A' <= c <= 'F' }

  function HexValue(c: char): (v: nat)
    requires IsHex(c)
    ensures v < 16
  {
    if IsDigit(c) then DigitValue(c)
    else if 'a' <= c <= 'f' then (c as int) - ('a' as int) + 10
    else (c as int) - ('A' as int) + 10
  }

  /** The four hex digits of a \u escape whose digits start at i. */
  function HexFour(s: string, i: nat): (r: Option<nat>)
    ensures r.Some? ==> i + 4 <= |s| && r.value < 0x10000 && forall k | i <= k < i + 4 :: IsHex(s[k])
  {
    if i + 4 <= |s| && IsHex(s[i]) && IsHex(s[i + 1]) && IsHex(s[i + 2]) && IsHex(s[i + 3]) then
      Some(((HexValue(s[i]) * 16 + HexValue(s[i + 1])) * 16 + HexValue(s[i + 2])) * 16 + HexValue(s[i + 3]))
    else None
  }

  const REPLACEMENT: char := '\U{FFFD}'

  /** One \u escape, or a surrogate pair of two: the character and the index after it.
      A lone surrogate becomes the replacement character. */
  function UnicodeEscape(s: string, i: nat): (r: Option<(char, nat)>)
    requires i <= |s|
    ensures r.Some? ==> r.value.1 in {i + 4, i + 10} && r.value.1 <= |s|
    ensures r.Some? && r.value.1 == i + 10 ==>
      s[i + 4] == '\\' && s[i + 5] == 'u' && forall k | i + 6 <= k < i + 10 :: IsHex(s[k])
    ensures r.Some? ==> forall k | i <= k < i + 4 :: IsHex(s[k])
  {
    var high := HexFour(s, i);
    if high.None? then None
    else if !(0xD800 <= high.value < 0xE000) then Some((high.value as char, i + 4))
    else if high.value < 0xDC00 && i + 6 <= |s| && s[i + 4] == '\\' && s[i + 5] == 'u' then
      var low := HexFour(s, i + 6);
      if low.Some? && 0xDC00 <= low.value < 0xE000 then
        Some(((0x10000 + (high.value - 0xD800) * 0x400 + (low.value - 0xDC00)) as char, i + 10))
      else Some((REPLACEMENT, i + 4))
    else Some((REPLACEMENT, i + 4))
  }

  function SimpleEscape(c: char): Option<char> {
    match c
    case '"' => Some('"')
    case '\\' => Some('\\')
    case '/' => Some('/')
    case 'b' => Some('\U{8}')
    case 'f' => Some('\U{C}')
    case 'n' => Some('\n')
    case 'r' => Some('\r')
    case 't' => Some('\t')
    case _ => None
  }

  /** The rest of a string literal whose next character is at i: its value and the index after the quote. */
  function ReadString(s: string, i: nat): (r: Option<(string, nat)>)
    requires i <= |s|
    ensures r.Some? ==> i < r.value.1 <= |s| && s[r.value.1 - 1] == '"'
    decreases |s| - i
  {
    if i == |s| || s[i] < ' ' then None
    else if s[i] == '"' then Some(("", i + 1))
    else if s[i] != '\\' then
      var rest := ReadString(s, i + 1);
      if rest.None? then None else Some(([s[i]] + rest.value.0, rest.value.1))
    else if i + 1 == |s| then None
    else if s[i + 1] == 'u' then
      var escape := UnicodeEscape(s, i + 2);
      if escape.None? then None
      else
        var rest := ReadString(s, escape.value.1);
        if rest.None? then None else Some(([escape.value.0] + rest.value.0, rest.value.1))
    else
      var escape := SimpleEscape(s[i + 1]);
      if escape.None? then None
      else
        var rest := ReadString(s, i + 2);
        if rest.None? then None else Some(([escape.value] + rest.value.0, rest.value.1))
  }

  /** The end of the fraction or exponent digits that must follow, or nothing. */
  function SomeDigits(s: string, i: nat): (r: Option<nat>)
    requires i <= |s|
    ensures r.Some? ==> i < r.value <= |s| && forall k | i <= k < r.value :: IsDigit(s[k])
  {
    var j := SkipDigits(s, i);
    if j == i then None else Some(j)
  }

  function ReadExponent(s: string, i: nat): (r: Option<nat>)
    requires i <= |s|
    ensures r.Some? ==> i <= r.value <= |s| && (r.value > i ==> IsDigit(s[r.value - 1]))
    ensures r.Some? ==> forall k | i <= k < r.value :: IsNumberChar(s[k])
  {
    if i < |s| && s[i] in "eE" then
      var sign := if i + 1 < |s| && s[i + 1] in "+-" then i + 2 else i + 1;
      SomeDigits(s, sign)
    else Some(i)
  }

  predicate IsNumberChar(c: char) { IsDigit(c) || c in "+-.eE" }

  /** The index after the number that starts at i: minus? int frac? exp?. */
  function ReadNumber(s: string, i: nat): (r: Option<nat>)
    requires i <= |s|
    ensures r.Some? ==> i < r.value <= |s| && IsDigit(s[r.value - 1])
    ensures r.Some? ==> forall k | i <= k < r.value :: IsNumberChar(s[k])
  {
    var start := if i < |s| && s[i] == '-' then i + 1 else i;
    var whole := if start < |s| && s[start] == '0' then Some(start + 1) else SomeDigits(s, start);
    if whole.None? then None
    else
      var fraction :=
        if whole.value < |s| && s[whole.value] == '.' then SomeDigits(s, whole.value + 1) else Some(whole.value);
      if fraction.None? then None else ReadExponent(s, fraction.value)
  }

  predicate HasWord(s: string, i: nat, word: string)
    requires i <= |s|
  { i + |word| <= |s| && s[i..i + |word|] == word }

  /** The value that starts exactly at i, and the index after it. */
  function ReadValue(s: string, i: nat): (r: Option<(Json, nat)>)
    requires i <= |s|
    ensures r.Some? ==> i < r.value.1 <= |s|
    decreases |s| - i, 0
  {
    if i == |s| then None
    else if s[i] == '"' then
      var text := ReadString(s, i + 1);
      if text.None? then None else Some((Str(text.value.0), text.value.1))
    else if s[i] == '{' then
      var fields := ReadObject(s, i + 1);
      if fields.None? then None else Some((Obj(fields.value.0), fields.value.1))
    else if s[i] == '[' then
      var items := ReadArray(s, i + 1);
      if items.None? then None else Some((Arr(items.value.0), items.value.1))
    else if HasWord(s, i, "true") then Some((Bool(true), i + 4))
    else if HasWord(s, i, "false") then Some((Bool(false), i + 5))
    else if HasWord(s, i, "null") then Some((Null, i + 4))
    else
      var end := ReadNumber(s, i);
      if end.None? then None else Some((Num(s[i..end.value]), end.value))
  }

  /** The rest of an object after its opening brace. */
  function ReadObject(s: string, i: nat): (r: Option<(map<string, Json>, nat)>)
    requires i <= |s|
    ensures r.Some? ==> i < r.value.1 <= |s| && s[r.value.1 - 1] == '}'
    decreases |s| - i, 3
  {
    var j := SkipSpace(s, i);
    if j < |s| && s[j] == '}' then Some((map[], j + 1)) else ReadMembers(s, j, map[])
  }

  function ReadArray(s: string, i: nat): (r: Option<(seq<Json>, nat)>)
    requires i <= |s|
    ensures r.Some? ==> i < r.value.1 <= |s| && s[r.value.1 - 1] == ']'
    decreases |s| - i, 3
  {
    var j := SkipSpace(s, i);
    if j < |s| && s[j] == ']' then Some(([], j + 1)) else ReadItems(s, j)
  }

  /** One member, and the index of what follows it. */
  function ReadMember(s: string, i: nat): (r: Option<(string, Json, nat)>)
    requires i <= |s|
    ensures r.Some? ==> i < r.value.2 <= |s|
    decreases |s| - i, 1
  {
    if i == |s| || s[i] != '"' then None
    else
      var key := ReadString(s, i + 1);
      if key.None? then None
      else
        var colon := SkipSpace(s, key.value.1);
        if colon == |s| || s[colon] != ':' then None
        else
          var value := ReadValue(s, SkipSpace(s, colon + 1));
          if value.None? then None else Some((key.value.0, value.value.0, SkipSpace(s, value.value.1)))
  }

  /** Members up to and including the closing brace; a repeated key keeps its last value. */
  function ReadMembers(s: string, i: nat, before: map<string, Json>): (r: Option<(map<string, Json>, nat)>)
    requires i <= |s|
    ensures r.Some? ==> i < r.value.1 <= |s| && s[r.value.1 - 1] == '}'
    decreases |s| - i, 2
  {
    var member := ReadMember(s, i);
    if member.None? then None
    else
      var fields, next := before[member.value.0 := member.value.1], member.value.2;
      if next == |s| then None
      else if s[next] == '}' then Some((fields, next + 1))
      else if s[next] == ',' then ReadMembers(s, SkipSpace(s, next + 1), fields)
      else None
  }

  /** One element, and the index of what follows it. */
  function ReadItem(s: string, i: nat): (r: Option<(Json, nat)>)
    requires i <= |s|
    ensures r.Some? ==> i < r.value.1 <= |s|
    decreases |s| - i, 1
  {
    var value := ReadValue(s, i);
    if value.None? then None else Some((value.value.0, SkipSpace(s, value.value.1)))
  }

  function ReadItems(s: string, i: nat): (r: Option<(seq<Json>, nat)>)
    requires i <= |s|
    ensures r.Some? ==> i < r.value.1 <= |s| && s[r.value.1 - 1] == ']'
    decreases |s| - i, 2
  {
    var item := ReadItem(s, i);
    if item.None? then None
    else
      var next := item.value.1;
      if next == |s| then None
      else if s[next] == ']' then Some(([item.value.0], next + 1))
      else if s[next] == ',' then
        var rest := ReadItems(s, SkipSpace(s, next + 1));
        if rest.None? then None else Some(([item.value.0] + rest.value.0, rest.value.1))
      else None
  }

  /** The whole text is one value with whitespace around it. */
  function Decode(s: string): Option<Json> {
    var r := ReadValue(s, SkipSpace(s, 0));
    if r.None? || SkipSpace(s, r.value.1) != |s| then None else Some(r.value.0)
  }

  // ---- What decodes is grammatical ---------------------------------------------------------

  lemma CutInThree(s: string, a: nat, b: nat, c: nat, d: nat)
    requires a <= b <= c <= d <= |s|
    ensures s[a..d] == s[a..b] + (s[b..c] + s[c..d])
  {
    assert s[b..d] == s[b..c] + s[c..d];
    assert s[a..d] == s[a..b] + s[b..d];
  }

  /** The marker, the sign and the digits of an exponent. */
  lemma ExponentPrints(s: string, i: nat) returns (e: Exponent)
    requires i <= |s| && ReadExponent(s, i).Some?
    ensures e.Exponent? ==> e.digits != "" && AllDigits(e.digits)
    ensures s[i..ReadExponent(s, i).value] == ExponentText(e)
  {
    hide SkipDigits, ExponentText;
    var end := ReadExponent(s, i).value;
    if i < |s| && s[i] in "eE" {
      var signed := i + 1 < |s| && s[i + 1] in "+-";
      var sign := if !signed then NoSign else if s[i + 1] == '+' then Plus else Minus;
      var start := if signed then i + 2 else i + 1;
      e := Exponent(s[i] == 'E', sign, s[start..end]);
      assert s[i + 1..start] == SignText(sign);
      ExponentTextIs(s, i, start, end, sign);
    } else {
      e := NoExponent;
      NoExponentText();
    }
  }

  lemma NoExponentText()
    ensures ExponentText(NoExponent) == ""
  {}

  lemma ExponentTextIs(s: string, i: nat, start: nat, end: nat, sign: Sign)
    requires i + 1 <= start <= end <= |s| && s[i] in "eE" && s[i + 1..start] == SignText(sign)
    ensures s[i..end] == ExponentText(Exponent(s[i] == 'E', sign, s[start..end]))
  {
    hide SignText;
    CutInThree(s, i, i + 1, start, end);
    assert s[i..i + 1] == [s[i]] == if s[i] == 'E' then "E" else "e";
  }

  /** Where the sign, the digits and the fraction of a number end. */
  lemma NumberParts(s: string, i: nat) returns (start: nat, whole: nat, middle: nat)
    requires i <= |s| && ReadNumber(s, i).Some?
    ensures i <= start < whole <= middle <= ReadNumber(s, i).value <= |s|
    ensures s[i..start] == "-" || s[i..start] == ""
    ensures AllDigits(s[start..whole])
    ensures middle == whole || (whole + 1 < middle && s[whole] == '.' && AllDigits(s[whole + 1..middle]))
    ensures ReadExponent(s, middle) == Some(ReadNumber(s, i).value)
  {
    hide ReadExponent, SkipDigits;
    start := if i < |s| && s[i] == '-' then i + 1 else i;
    whole := if start < |s| && s[start] == '0' then start + 1 else SomeDigits(s, start).value;
    middle := whole;
    if whole < |s| && s[whole] == '.' {
      assert SomeDigits(s, whole + 1).Some?;
      middle := SomeDigits(s, whole + 1).value;
    }
  }

  function FractionIn(s: string, whole: nat, middle: nat): Option<string>
    requires middle == whole || whole + 1 < middle <= |s|
  {
    if middle == whole then None else Some(s[whole + 1..middle])
  }

  lemma FractionTextIs(s: string, whole: nat, middle: nat)
    requires whole <= middle <= |s| && (middle == whole || (whole + 1 < middle && s[whole] == '.'))
    ensures s[whole..middle] == match FractionIn(s, whole, middle) case None => "" case Some(digits) => "." + digits
  {
    if whole < middle { assert s[whole..middle] == [s[whole]] + s[whole + 1..middle]; }
  }

  lemma NumberText(s: string, i: nat, start: nat, whole: nat, middle: nat, end: nat, e: Exponent)
    requires i <= start < whole <= middle <= end <= |s|
    requires s[i..start] == "-" || s[i..start] == ""
    requires middle == whole || (whole + 1 < middle && s[whole] == '.')
    requires s[middle..end] == ExponentText(e)
    ensures s[i..end] == Print(Number(s[i..start] == "-", s[start..whole], FractionIn(s, whole, middle), e))
  {
    FractionTextIs(s, whole, middle);
    hide ExponentText, FractionIn;
    CutInThree(s, i, start, middle, end);
    assert s[start..middle] == s[start..whole] + s[whole..middle];
  }

  /** The text a number is read from is one the grammar of numbers builds. */
  lemma NumberPrints(s: string, i: nat) returns (n: Number)
    requires i <= |s| && ReadNumber(s, i).Some?
    ensures IsNumber(n) && s[i..ReadNumber(s, i).value] == Print(n)
  {
    hide ReadNumber, ReadExponent, Print, ExponentText;
    var start, whole, middle := NumberParts(s, i);
    var e := ExponentPrints(s, middle);
    NumberText(s, i, start, whole, middle, ReadNumber(s, i).value, e);
    n := Number(s[i..start] == "-", s[start..whole], FractionIn(s, whole, middle), e);
  }

  lemma {:induction false} ValueIsGrammatical(s: string, i: nat)
    requires i <= |s| && ReadValue(s, i).Some?
    ensures Grammatical(ReadValue(s, i).value.0)
    decreases |s| - i, 0
  {
    hide ReadString, ReadNumber, ReadObject, ReadArray;
    if s[i] == '"' || HasWord(s, i, "true") || HasWord(s, i, "false") || HasWord(s, i, "null") {
    } else if s[i] == '{' {
      ObjectIsGrammatical(s, i + 1);
    } else if s[i] == '[' {
      ArrayIsGrammatical(s, i + 1);
    } else {
      var n := NumberPrints(s, i);
    }
  }

  lemma {:induction false} ObjectIsGrammatical(s: string, i: nat)
    requires i <= |s| && ReadObject(s, i).Some?
    ensures forall k | k in ReadObject(s, i).value.0 :: Grammatical(ReadObject(s, i).value.0[k])
    decreases |s| - i, 3
  {
    hide ReadMembers;
    var j := SkipSpace(s, i);
    if !(j < |s| && s[j] == '}') { MembersAreGrammatical(s, j, map[]); }
  }

  lemma {:induction false} ArrayIsGrammatical(s: string, i: nat)
    requires i <= |s| && ReadArray(s, i).Some?
    ensures forall k | 0 <= k < |ReadArray(s, i).value.0| :: Grammatical(ReadArray(s, i).value.0[k])
    decreases |s| - i, 3
  {
    hide ReadItems;
    var j := SkipSpace(s, i);
    if !(j < |s| && s[j] == ']') { ItemsAreGrammatical(s, j); }
  }

  lemma {:induction false} MembersAreGrammatical(s: string, i: nat, before: map<string, Json>)
    requires i <= |s| && ReadMembers(s, i, before).Some? && forall k | k in before :: Grammatical(before[k])
    ensures forall k | k in ReadMembers(s, i, before).value.0 :: Grammatical(ReadMembers(s, i, before).value.0[k])
    decreases |s| - i, 2
  {
    hide SkipSpace, ReadMember, Grammatical;
    var member := ReadMember(s, i).value;
    MemberIsGrammatical(s, i);
    var fields, next := before[member.0 := member.1], member.2;
    if s[next] == ',' { MembersAreGrammatical(s, SkipSpace(s, next + 1), fields); }
  }

  lemma {:induction false} MemberIsGrammatical(s: string, i: nat)
    requires i <= |s| && ReadMember(s, i).Some?
    ensures Grammatical(ReadMember(s, i).value.1)
    decreases |s| - i, 1
  {
    hide SkipSpace, ReadString, ReadValue;
    var colon := SkipSpace(s, ReadString(s, i + 1).value.1);
    ValueIsGrammatical(s, SkipSpace(s, colon + 1));
  }

  lemma {:induction false} ItemsAreGrammatical(s: string, i: nat)
    requires i <= |s| && ReadItems(s, i).Some?
    ensures forall k | 0 <= k < |ReadItems(s, i).value.0| :: Grammatical(ReadItems(s, i).value.0[k])
    decreases |s| - i, 2
  {
    hide SkipSpace, ReadValue, Grammatical;
    ValueIsGrammatical(s, i);
    var next := ReadItem(s, i).value.1;
    if s[next] == ',' { ItemsAreGrammatical(s, SkipSpace(s, next + 1)); }
  }

  /** Every decoded value is one that equality of values is proved for. */
  lemma DecodedIsGrammatical(s: string)
    requires Decode(s).Some?
    ensures Grammatical(Decode(s).value) && Same(Decode(s).value, Decode(s).value)
  {
    hide ReadValue, Same, Grammatical;
    ValueIsGrammatical(s, SkipSpace(s, 0));
    SameReflexive(Decode(s).value);
  }

  // ---- The scanner -----------------------------------------------------------------------

  datatype Scanner = Scanner(depth: int, inString: bool, escape: bool)

  function Outside(depth: int): Scanner { Scanner(depth, false, false) }

  function Inside(depth: int): Scanner { Scanner(depth, true, false) }

  /** One character; None when it closes the object. */
  function Step(st: Scanner, c: char): Option<Scanner> {
    if st.inString then
      if st.escape then Some(Inside(st.depth))
      else if c == '\\' then Some(st.(escape := true))
      else if c == '"' then Some(Outside(st.depth))
      else Some(st)
    else if c == '"' then Some(Inside(st.depth))
    else if c == '{' then Some(Outside(st.depth + 1))
    else if c == '}' then (if st.depth == 1 then None else Some(Outside(st.depth - 1)))
    else Some(Outside(st.depth))
  }

  /** scanBalancedObject from index i in state st: the index after the closing brace. */
  function Scan(s: string, i: nat, st: Scanner): (r: Option<nat>)
    requires i <= |s|
    ensures r.Some? ==> i < r.value <= |s| && s[r.value - 1] == '}'
    decreases |s| - i
  {
    if i == |s| then None
    else
      match Step(st, s[i])
      case None => Some(i + 1)
      case Some(next) => Scan(s, i + 1, next)
  }

  /** scanBalancedObject */
  method ScanBalanced(s: string, start: nat) returns (end: Option<nat>)
    requires start <= |s|
    ensures end == Scan(s, start, Outside(0))
  {
    var depth, inString, escape := 0, false, false;
    var i := start;
    while i < |s|
      invariant start <= i <= |s|
      invariant escape ==> inString
      invariant Scan(s, start, Outside(0)) == Scan(s, i, Scanner(depth, inString, escape))
    {
      var c := s[i];
      if inString {
        if escape {
          escape := false;
        } else if c == '\\' {
          escape := true;
        } else if c == '"' {
          inString := false;
        }
      } else if c == '"' {
        inString := true;
      } else if c == '{' {
        depth := depth + 1;
      } else if c == '}' {
        depth := depth - 1;
        if depth == 0 { return Some(i + 1); }
      }
      i := i + 1;
    }
    end := None;
  }

  // ---- The scanner follows the decoder -------------------------------------------------------

  lemma ScanOne(s: string, i: nat, st: Scanner)
    requires i < |s|
    ensures Scan(s, i, st) == if Step(st, s[i]).None? then Some(i + 1) else Scan(s, i + 1, Step(st, s[i]).value)
  {}

  lemma {:induction false} ScanSkips(s: string, i: nat, j: nat, depth: int)
    requires i <= j <= |s| && forall k | i <= k < j :: s[k] != '"' && s[k] != '{' && s[k] != '}'
    ensures Scan(s, i, Outside(depth)) == Scan(s, j, Outside(depth))
    decreases j - i
  {
    if i < j { ScanSkips(s, i + 1, j, depth); }
  }

  lemma {:induction false} ScanSkipsInString(s: string, i: nat, j: nat, depth: int)
    requires i <= j <= |s| && forall k | i <= k < j :: s[k] != '"' && s[k] != '\\'
    ensures Scan(s, i, Inside(depth)) == Scan(s, j, Inside(depth))
    decreases j - i
  {
    if i < j { ScanSkipsInString(s, i + 1, j, depth); }
  }

  lemma ScanSkipsEscape(s: string, i: nat, depth: int)
    requires i + 2 <= |s| && s[i] == '\\'
    ensures Scan(s, i, Inside(depth)) == Scan(s, i + 2, Inside(depth))
  {
    ScanOne(s, i, Inside(depth));
    ScanOne(s, i + 1, Inside(depth).(escape := true));
  }

  lemma ScanSkipsUnicode(s: string, i: nat, depth: int)
    requires i + 2 <= |s| && s[i] == '\\' && UnicodeEscape(s, i + 2).Some?
    ensures Scan(s, i, Inside(depth)) == Scan(s, UnicodeEscape(s, i + 2).value.1, Inside(depth))
  {
    hide Scan;
    ScanSkipsEscape(s, i, depth);
    ScanSkipsInString(s, i + 2, i + 6, depth);
    if UnicodeEscape(s, i + 2).value.1 == i + 12 {
      ScanSkipsEscape(s, i + 6, depth);
      ScanSkipsInString(s, i + 8, i + 12, depth);
    }
  }

  lemma {:induction false} ScanPassesString(s: string, i: nat, depth: int)
    requires i <= |s| && ReadString(s, i).Some?
    ensures Scan(s, i, Inside(depth)) == Scan(s, ReadString(s, i).value.1, Outside(depth))
    decreases |s| - i
  {
    hide Scan, UnicodeEscape, SimpleEscape;
    ScanOne(s, i, Inside(depth));
    if s[i] == '"' {
    } else if s[i] != '\\' {
      ScanPassesString(s, i + 1, depth);
    } else if s[i + 1] == 'u' {
      ScanSkipsUnicode(s, i, depth);
      ScanPassesString(s, UnicodeEscape(s, i + 2).value.1, depth);
    } else {
      ScanSkipsEscape(s, i, depth);
      ScanPassesString(s, i + 2, depth);
    }
  }

  /** Inside an object, every decoded value leaves the scanner at the depth it started from. */
  lemma {:induction false} ScanPassesValue(s: string, i: nat, depth: int)
    requires i <= |s| && depth >= 1 && ReadValue(s, i).Some?
    ensures Scan(s, i, Outside(depth)) == Scan(s, ReadValue(s, i).value.1, Outside(depth))
    decreases |s| - i, 0
  {
    hide Scan, ReadString, ReadNumber, ReadObject, ReadArray;
    ScanOne(s, i, Outside(depth));
    if s[i] == '"' {
      ScanPassesString(s, i + 1, depth);
    } else if s[i] == '{' {
      ScanPassesObject(s, i, depth);
    } else if s[i] == '[' {
      ScanPassesArray(s, i, depth);
    } else if HasWord(s, i, "true") {
      ScanPassesWord(s, i, "true", depth);
    } else if HasWord(s, i, "false") {
      ScanPassesWord(s, i, "false", depth);
    } else if HasWord(s, i, "null") {
      ScanPassesWord(s, i, "null", depth);
    } else {
      ScanSkips(s, i, ReadValue(s, i).value.1, depth);
    }
  }

  lemma ScanPassesWord(s: string, i: nat, word: string, depth: int)
    requires i <= |s| && HasWord(s, i, word) && forall k | 0 <= k < |word| :: 'a' <= word[k] <= 'z'
    ensures Scan(s, i, Outside(depth)) == Scan(s, i + |word|, Outside(depth))
  {
    forall k | i <= k < i + |word| ensures 'a' <= s[k] <= 'z' {
      assert s[k] == s[i..i + |word|][k - i] == word[k - i];
    }
    ScanSkips(s, i, i + |word|, depth);
  }

  /** What the scanner does after the brace that brings it back to depth. */
  function AfterClose(s: string, end: nat, depth: int): Option<nat>
    requires end <= |s|
  { if depth == 0 then Some(end) else Scan(s, end, Outside(depth)) }

  /** An object seen at any depth, including as the outermost one. */
  lemma {:induction false} ScanPassesObject(s: string, i: nat, depth: int)
    requires i < |s| && s[i] == '{' && depth >= 0 && ReadObject(s, i + 1).Some?
    ensures Scan(s, i, Outside(depth)) == AfterClose(s, ReadObject(s, i + 1).value.1, depth)
    decreases |s| - i - 1, 3
  {
    hide Scan, SkipSpace, ReadMembers;
    ScanOne(s, i, Outside(depth));
    var j := SkipSpace(s, i + 1);
    ScanSkips(s, i + 1, j, depth + 1);
    if j < |s| && s[j] == '}' { ScanOne(s, j, Outside(depth + 1)); } else { ScanPassesMembers(s, j, map[], depth); }
  }

  lemma {:induction false} ScanPassesMember(s: string, i: nat, depth: int)
    requires i <= |s| && depth >= 1 && ReadMember(s, i).Some?
    ensures Scan(s, i, Outside(depth)) == Scan(s, ReadMember(s, i).value.2, Outside(depth))
    decreases |s| - i, 1
  {
    hide Scan, SkipSpace, ReadString, ReadValue;
    var key := ReadString(s, i + 1).value;
    var colon := SkipSpace(s, key.1);
    var at := SkipSpace(s, colon + 1);
    var value := ReadValue(s, at).value;
    ScanOne(s, i, Outside(depth));
    ScanPassesString(s, i + 1, depth);
    ScanSkips(s, key.1, at, depth);
    ScanPassesValue(s, at, depth);
    ScanSkips(s, value.1, SkipSpace(s, value.1), depth);
  }

  /** The members of an object end with the brace that closes it. */
  lemma {:induction false} ScanPassesMembers(s: string, i: nat, before: map<string, Json>, depth: int)
    requires i <= |s| && depth >= 0 && ReadMembers(s, i, before).Some?
    ensures Scan(s, i, Outside(depth + 1)) == AfterClose(s, ReadMembers(s, i, before).value.1, depth)
    decreases |s| - i, 2
  {
    hide Scan, SkipSpace, ReadMember;
    var member := ReadMember(s, i).value;
    var next := member.2;
    ScanPassesMember(s, i, depth + 1);
    ScanOne(s, next, Outside(depth + 1));
    if s[next] == ',' {
      var more := SkipSpace(s, next + 1);
      ScanSkips(s, next, more, depth + 1);
      ScanPassesMembers(s, more, before[member.0 := member.1], depth);
    }
  }

  lemma {:induction false} ScanPassesArray(s: string, i: nat, depth: int)
    requires i < |s| && s[i] == '[' && depth >= 1 && ReadArray(s, i + 1).Some?
    ensures Scan(s, i, Outside(depth)) == Scan(s, ReadArray(s, i + 1).value.1, Outside(depth))
    decreases |s| - i - 1, 3
  {
    hide Scan, SkipSpace, ReadItems;
    ScanOne(s, i, Outside(depth));
    var j := SkipSpace(s, i + 1);
    ScanSkips(s, i + 1, j, depth);
    if j < |s| && s[j] == ']' { ScanOne(s, j, Outside(depth)); } else { ScanPassesItems(s, j, depth); }
  }

  lemma {:induction false} ScanPassesItem(s: string, i: nat, depth: int)
    requires i <= |s| && depth >= 1 && ReadItem(s, i).Some?
    ensures Scan(s, i, Outside(depth)) == Scan(s, ReadItem(s, i).value.1, Outside(depth))
    decreases |s| - i, 1
  {
    hide Scan, SkipSpace, ReadValue;
    ScanPassesValue(s, i, depth);
    var end := ReadValue(s, i).value.1;
    ScanSkips(s, end, SkipSpace(s, end), depth);
  }

  lemma {:induction false} ScanPassesItems(s: string, i: nat, depth: int)
    requires i <= |s| && depth >= 1 && ReadItems(s, i).Some?
    ensures Scan(s, i, Outside(depth)) == Scan(s, ReadItems(s, i).value.1, Outside(depth))
    decreases |s| - i, 2
  {
    hide Scan, SkipSpace, ReadItem;
    ScanPassesItem(s, i, depth);
    var next := ReadItem(s, i).value.1;
    ScanOne(s, next, Outside(depth));
    if s[next] == ',' {
      var more := SkipSpace(s, next + 1);
      ScanSkips(s, next, more, depth);
      ScanPassesItems(s, more, depth);
    }
  }

  /** On every text that decodes to an object and is bounded by its braces, the scan ends
      exactly at the end of the object, whatever the strings inside it contain. */
  lemma ScanFindsObject(s: string)
    requires s != "" && s[0] == '{' && s[|s| - 1] == '}' && Decode(s).Some?
    ensures Scan(s, 0, Outside(0)) == Some(|s|)
  {
    hide Scan, ReadObject;
    ScanPassesObject(s, 0, 0);
    var end := ReadValue(s, 0).value.1;
    assert !IsJsonSpace(s[|s| - 1]);
  }

  /** The scan reads forwards only, so text around the object does not change where it ends. */
  lemma {:induction false} ScanIsLocal(before: string, s: string, after: string, i: nat, st: Scanner)
    requires i <= |s| && Scan(s, i, st).Some?
    ensures Scan(before + s + after, |before| + i, st) == Some(|before| + Scan(s, i, st).value)
    decreases |s| - i
  {
    hide Step;
    assert (before + s + after)[|before| + i] == s[i];
    if Step(st, s[i]).Some? { ScanIsLocal(before, s, after, i + 1, Step(st, s[i]).value); }
  }

  lemma WordEnds(s: string, i: nat, word: string)
    requires i <= |s| && word != "" && HasWord(s, i, word)
    ensures s[i + |word| - 1] == word[|word| - 1]
  {
    assert s[i..i + |word|][|word| - 1] == word[|word| - 1];
  }

  predicate EndsOther(c: char) { c == '"' || c == ']' || IsDigit(c) || 'a' <= c <= 'z' }

  /** Only an object's text can end with a brace, and no value's text ends with whitespace. */
  lemma OnlyObjectsEndInBrace(s: string, i: nat)
    requires i <= |s| && ReadValue(s, i).Some? && s[i] != '{'
    ensures EndsOther(s[ReadValue(s, i).value.1 - 1])
  {
    if s[i] != '"' && s[i] != '[' {
      if HasWord(s, i, "true") { WordEnds(s, i, "true"); }
      else if HasWord(s, i, "false") { WordEnds(s, i, "false"); }
      else if HasWord(s, i, "null") { WordEnds(s, i, "null"); }
    }
  }
}
