/**
 What the decoder makes of text around a value and of written values: the text
 after a value does not change how it is read, a character that no value can
 hold ends the reading, and every value written out is read back.
 */
module Writing {
  import opened Options
  import opened Decimal
  import opened JsonValues
  import opened Decoding

  // ---- Text after a value -------------------------------------------------------------------

  lemma SameAt(s: string, b: string, k: nat)
    requires k < |s|
    ensures (s + b)[k] == s[k]
  {}

  lemma {:induction false} SpaceIsLocal(s: string, b: string, i: nat)
    requires i <= |s| && SkipSpace(s, i) < |s|
    ensures SkipSpace(s + b, i) == SkipSpace(s, i)
    decreases |s| - i
  {
    if IsJsonSpace(s[i]) { SpaceIsLocal(s, b, i + 1); }
  }

  lemma HexIsLocal(s: string, b: string, i: nat)
    requires HexFour(s, i).Some?
    ensures HexFour(s + b, i) == HexFour(s, i)
  {}

  /** A complete escape followed by the rest of a complete string. */
  lemma EscapeIsLocal(s: string, b: string, i: nat)
    requires i <= |s| && UnicodeEscape(s, i).Some? && ReadString(s, UnicodeEscape(s, i).value.1).Some?
    ensures UnicodeEscape(s + b, i) == UnicodeEscape(s, i)
  {
    hide HexFour, ReadString;
    HexIsLocal(s, b, i);
    var high, end := HexFour(s, i).value, UnicodeEscape(s, i).value.1;
    if 0xD800 <= high < 0xDC00 && i + 6 <= |s + b| {
      NoLoneBackslash(s, i + 4);
      SameAt(s, b, i + 4);
      if s[i + 4] == '\\' { SameAt(s, b, i + 5); }
      if s[i + 4] == '\\' && s[i + 5] == 'u' {
        if end == i + 4 { EscapeIsWhole(s, i + 4); }
        HexIsLocal(s, b, i + 6);
      }
    }
  }

  /** A string that goes on at i does not end there, and a backslash is not its last character. */
  lemma NoLoneBackslash(s: string, i: nat)
    requires i <= |s| && (ReadString(s, i).Some? || (i + 6 <= |s| && s[i] == '\\' && s[i + 1] == 'u'))
    ensures i < |s| && (s[i] == '\\' ==> i + 1 < |s|)
  {}

  lemma EscapeIsWhole(s: string, i: nat)
    requires i + 1 < |s| && s[i] == '\\' && s[i + 1] == 'u' && ReadString(s, i).Some?
    ensures HexFour(s, i + 2).Some?
  {}

  lemma {:induction false} StringIsLocal(s: string, b: string, i: nat)
    requires i <= |s| && ReadString(s, i).Some?
    ensures ReadString(s + b, i) == ReadString(s, i)
    decreases |s| - i
  {
    hide UnicodeEscape, SimpleEscape;
    var all := s + b;
    assert all[i] == s[i];
    if s[i] == '"' {
    } else if s[i] != '\\' {
      StringIsLocal(s, b, i + 1);
    } else {
      assert all[i + 1] == s[i + 1];
      if s[i + 1] == 'u' {
        EscapeIsLocal(s, b, i + 2);
        StringIsLocal(s, b, UnicodeEscape(s, i + 2).value.1);
      } else {
        StringIsLocal(s, b, i + 2);
      }
    }
  }

  /** The text after a value read to here cannot make the value longer. */
  predicate Ends(s: string, b: string, end: nat) { end < |s| || b == "" || !IsNumberChar(b[0]) }

  lemma {:induction false} DigitsAreLocal(s: string, b: string, i: nat)
    requires i <= |s| && Ends(s, b, SkipDigits(s, i))
    ensures SkipDigits(s + b, i) == SkipDigits(s, i)
    decreases |s| - i
  {
    if i < |s| && IsDigit(s[i]) { DigitsAreLocal(s, b, i + 1); }
  }

  lemma ExponentIsLocal(s: string, b: string, i: nat)
    requires i <= |s| && ReadExponent(s, i).Some? && Ends(s, b, ReadExponent(s, i).value)
    ensures ReadExponent(s + b, i) == ReadExponent(s, i)
  {
    hide SkipDigits;
    if i < |s| && s[i] in "eE" {
      var sign := if i + 1 < |s| && s[i + 1] in "+-" then i + 2 else i + 1;
      DigitsAreLocal(s, b, sign);
    }
  }

  lemma NumberIsLocal(s: string, b: string, i: nat)
    requires i <= |s| && ReadNumber(s, i).Some? && Ends(s, b, ReadNumber(s, i).value)
    ensures ReadNumber(s + b, i) == ReadNumber(s, i)
  {
    hide SkipDigits, ReadExponent;
    var all := s + b;
    assert forall k | 0 <= k < |s| :: all[k] == s[k];
    var start := if s[i] == '-' then i + 1 else i;
    WholeIsLocal(s, b, start);
    var whole := if s[start] == '0' then start + 1 else SomeDigits(s, start).value;
    var fractional := whole < |s| && s[whole] == '.';
    var middle := if fractional then SomeDigits(s, whole + 1).value else whole;
    if fractional { DigitsAreLocal(s, b, whole + 1); }
    ExponentIsLocal(s, b, middle);
    assert SomeDigits(all, start) == SomeDigits(s, start) || s[start] == '0';
    NumberFrom(all, i, start, whole, middle, ReadExponent(s, middle).value);
  }

  lemma WholeIsLocal(s: string, b: string, start: nat)
    requires start < |s| && (s[start] == '0' || Ends(s, b, SkipDigits(s, start)))
    ensures s[start] != '0' ==> SomeDigits(s + b, start) == SomeDigits(s, start)
  {
    hide SkipDigits;
    if s[start] != '0' { DigitsAreLocal(s, b, start); }
  }

  lemma WordIsLocal(s: string, b: string, i: nat, word: string)
    requires i <= |s|
    ensures HasWord(s, i, word) ==> HasWord(s + b, i, word)
    ensures i + |word| <= |s| || (i < |s| && word != "" && s[i] != word[0]) ==>
      (HasWord(s + b, i, word) <==> HasWord(s, i, word))
  {
    var all := s + b;
    if i + |word| <= |s| {
      assert all[i..i + |word|] == s[i..i + |word|];
    } else if HasWord(all, i, word) {
      assert word != "" ==> all[i..i + |word|][0] == all[i];
    }
  }

  lemma {:induction false} ValueIsLocal(s: string, b: string, i: nat)
    requires i <= |s| && ReadValue(s, i).Some? && Ends(s, b, ReadValue(s, i).value.1)
    ensures ReadValue(s + b, i) == ReadValue(s, i)
    decreases |s| - i, 0
  {
    hide ReadString, ReadNumber, ReadObject, ReadArray, HasWord;
    var all := s + b;
    assert all[i] == s[i];
    if s[i] == '"' {
      StringIsLocal(s, b, i + 1);
    } else if s[i] == '{' {
      ObjectIsLocal(s, b, i + 1);
    } else if s[i] == '[' {
      ArrayIsLocal(s, b, i + 1);
    } else {
      PlainIsLocal(s, b, i);
    }
  }

  lemma PlainIsLocal(s: string, b: string, i: nat)
    requires i < |s| && ReadValue(s, i).Some? && s[i] != '"' && s[i] != '{' && s[i] != '['
    requires Ends(s, b, ReadValue(s, i).value.1)
    ensures ReadValue(s + b, i) == ReadValue(s, i)
  {
    hide ReadNumber;
    var all := s + b;
    assert all[i] == s[i];
    WordIsLocal(s, b, i, "true");
    WordIsLocal(s, b, i, "false");
    WordIsLocal(s, b, i, "null");
    if !HasWord(s, i, "true") && !HasWord(s, i, "false") && !HasWord(s, i, "null") {
      NumberIsLocal(s, b, i);
      assert IsNumberChar(s[i]);
      assert all[i..ReadNumber(s, i).value] == s[i..ReadNumber(s, i).value];
    }
  }

  lemma {:induction false} ObjectIsLocal(s: string, b: string, i: nat)
    requires i <= |s| && ReadObject(s, i).Some?
    ensures ReadObject(s + b, i) == ReadObject(s, i)
    decreases |s| - i, 3
  {
    hide SkipSpace, ReadMembers;
    var j := SkipSpace(s, i);
    if j == |s| { NoMemberAtEnd(s, j, map[]); }
    SpaceIsLocal(s, b, i);
    SameAt(s, b, j);
    if s[j] != '}' { MembersAreLocal(s, b, j, map[]); }
  }

  lemma NoMemberAtEnd(s: string, i: nat, before: map<string, Json>)
    requires i == |s|
    ensures ReadMembers(s, i, before).None? && ReadItems(s, i).None?
  {}

  lemma {:induction false} ArrayIsLocal(s: string, b: string, i: nat)
    requires i <= |s| && ReadArray(s, i).Some?
    ensures ReadArray(s + b, i) == ReadArray(s, i)
    decreases |s| - i, 3
  {
    hide SkipSpace, ReadItems;
    var j := SkipSpace(s, i);
    if j == |s| { NoMemberAtEnd(s, j, map[]); }
    SpaceIsLocal(s, b, i);
    SameAt(s, b, j);
    if s[j] != ']' { ItemsAreLocal(s, b, j); }
  }

  lemma {:induction false} MemberIsLocal(s: string, b: string, i: nat)
    requires i <= |s| && ReadMember(s, i).Some? && ReadMember(s, i).value.2 < |s|
    ensures ReadMember(s + b, i) == ReadMember(s, i)
    decreases |s| - i, 1
  {
    hide SkipSpace, ReadString, ReadValue;
    var key := ReadString(s, i + 1).value;
    var colon := SkipSpace(s, key.1);
    var at := SkipSpace(s, colon + 1);
    var value := ReadValue(s, at).value;
    SameAt(s, b, i);
    SameAt(s, b, colon);
    StringIsLocal(s, b, i + 1);
    SpaceIsLocal(s, b, key.1);
    if at == |s| { NoValueAtEnd(s, at); }
    SpaceIsLocal(s, b, colon + 1);
    ValueIsLocal(s, b, at);
    SpaceIsLocal(s, b, value.1);
  }

  lemma NoValueAtEnd(s: string, i: nat)
    requires i == |s|
    ensures ReadValue(s, i).None?
  {}

  /** One unfolding of the reading of members. */
  lemma MembersStep(s: string, i: nat, before: map<string, Json>)
    requires i <= |s|
    ensures ReadMember(s, i).None? || ReadMember(s, i).value.2 == |s| ==> ReadMembers(s, i, before).None?
    ensures ReadMember(s, i).Some? && ReadMember(s, i).value.2 < |s| ==>
      var member, next := ReadMember(s, i).value, ReadMember(s, i).value.2;
      var fields := before[member.0 := member.1];
      ReadMembers(s, i, before) ==
        if s[next] == '}' then Some((fields, next + 1))
        else if s[next] == ',' then ReadMembers(s, SkipSpace(s, next + 1), fields)
        else None
  {
    hide SkipSpace, ReadMember;
  }

  lemma {:induction false} MembersAreLocal(s: string, b: string, i: nat, before: map<string, Json>)
    requires i <= |s| && ReadMembers(s, i, before).Some?
    ensures ReadMembers(s + b, i, before) == ReadMembers(s, i, before)
    decreases |s| - i, 2
  {
    hide SkipSpace, ReadMember, ReadMembers;
    MembersStep(s, i, before);
    MembersStep(s + b, i, before);
    var member := ReadMember(s, i).value;
    var next := member.2;
    MemberIsLocal(s, b, i);
    SameAt(s, b, next);
    if s[next] == ',' {
      var more := SkipSpace(s, next + 1);
      if more == |s| { NoMemberAtEnd(s, more, before[member.0 := member.1]); }
      SpaceIsLocal(s, b, next + 1);
      MembersAreLocal(s, b, more, before[member.0 := member.1]);
    }
  }

  lemma {:induction false} ItemIsLocal(s: string, b: string, i: nat)
    requires i <= |s| && ReadItem(s, i).Some? && ReadItem(s, i).value.1 < |s|
    ensures ReadItem(s + b, i) == ReadItem(s, i)
    decreases |s| - i, 1
  {
    hide SkipSpace, ReadValue;
    ValueIsLocal(s, b, i);
    SpaceIsLocal(s, b, ReadValue(s, i).value.1);
  }

  /** One unfolding of the reading of elements. */
  lemma ItemsStep(s: string, i: nat)
    requires i <= |s|
    ensures ReadItem(s, i).None? || ReadItem(s, i).value.1 == |s| ==> ReadItems(s, i).None?
    ensures ReadItem(s, i).Some? && ReadItem(s, i).value.1 < |s| ==>
      var item, next := ReadItem(s, i).value.0, ReadItem(s, i).value.1;
      ReadItems(s, i) ==
        if s[next] == ']' then Some(([item], next + 1))
        else if s[next] != ',' || ReadItems(s, SkipSpace(s, next + 1)).None? then None
        else
          var rest := ReadItems(s, SkipSpace(s, next + 1)).value;
          Some(([item] + rest.0, rest.1))
  {
    hide SkipSpace, ReadItem;
  }

  lemma {:induction false} ItemsAreLocal(s: string, b: string, i: nat)
    requires i <= |s| && ReadItems(s, i).Some?
    ensures ReadItems(s + b, i) == ReadItems(s, i)
    decreases |s| - i, 2
  {
    hide SkipSpace, ReadItem, ReadItems;
    ItemsStep(s, i);
    ItemsStep(s + b, i);
    var next := ReadItem(s, i).value.1;
    ItemIsLocal(s, b, i);
    SameAt(s, b, next);
    if s[next] == ',' {
      var more := SkipSpace(s, next + 1);
      if more == |s| { NoMemberAtEnd(s, more, map[]); }
      SpaceIsLocal(s, b, next + 1);
      ItemsAreLocal(s, b, more);
    }
  }

  lemma {:induction false} SpaceToEnd(s: string, i: nat)
    requires i <= |s|
    ensures SkipSpace(s, i) == |s| <==> forall k | i <= k < |s| :: IsJsonSpace(s[k])
    decreases |s| - i
  {
    if i < |s| && IsJsonSpace(s[i]) { SpaceToEnd(s, i + 1); }
  }

  /** Whitespace after a text does not change what the text decodes to. */
  lemma BlanksMayFollow(s: string, blanks: string)
    requires Decode(s).Some? && forall c | c in blanks :: IsJsonSpace(c)
    ensures Decode(s + blanks) == Decode(s)
  {
    hide SkipSpace, ReadValue;
    var all, i := s + blanks, SkipSpace(s, 0);
    var end := ReadValue(s, i).value.1;
    if i == |s| { NoValueAtEnd(s, i); }
    assert blanks != "" ==> blanks[0] in blanks;
    SpaceIsLocal(s, blanks, 0);
    ValueIsLocal(s, blanks, i);
    SpaceToEnd(s, end);
    forall k | end <= k < |all| ensures IsJsonSpace(all[k]) {
      if k < |s| { assert all[k] == s[k]; } else { assert all[k] in blanks; }
    }
    SpaceToEnd(all, end);
  }

  // ---- A character no value can hold ---------------------------------------------------------

  /** A backtick, and after it a control character with neither quote nor backslash in between: no string reaches from
      the one to the other, so no value holds this backtick. */
  predicate Barred(s: string, k: nat, m: nat) {
    k < m < |s| && s[k] == '`' && s[m] < ' ' && forall x | k <= x < m :: s[x] != '"' && s[x] != '\\'
  }

  lemma {:induction false} StringStops(s: string, i: nat, k: nat, m: nat)
    requires i <= m && Barred(s, k, m) && ReadString(s, i).Some?
    ensures i <= k && ReadString(s, i).value.1 <= k
    decreases |s| - i
  {
    hide UnicodeEscape, SimpleEscape;
    if k <= i {
      if i < m { StringStops(s, i + 1, k, m); }
    } else if s[i] == '"' {
    } else if s[i] != '\\' {
      StringStops(s, i + 1, k, m);
    } else {
      EscapeStops(s, i, k);
      if s[i + 1] == 'u' {
        StringStops(s, UnicodeEscape(s, i + 2).value.1, k, m);
      } else {
        StringStops(s, i + 2, k, m);
      }
    }
  }

  /** An escape does not reach over a backtick. */
  lemma EscapeStops(s: string, i: nat, k: nat)
    requires i < k < |s| && s[i] == '\\' && s[k] == '`' && ReadString(s, i).Some?
    ensures if s[i + 1] == 'u' then UnicodeEscape(s, i + 2).Some? && UnicodeEscape(s, i + 2).value.1 <= k
            else i + 2 <= k
  {
    if s[i + 1] == 'u' {
      var end := UnicodeEscape(s, i + 2).value.1;
      if end == i + 12 { assert !IsHex(s[k]); }
    }
  }

  lemma {:induction false} SpaceStops(s: string, i: nat, k: nat)
    requires i <= k < |s| && s[k] == '`'
    ensures SkipSpace(s, i) <= k
    decreases k - i
  {
    if i < k && IsJsonSpace(s[i]) { SpaceStops(s, i + 1, k); }
  }

  /** Neither a word nor a number holds a backtick. */
  lemma PlainStops(s: string, i: nat, k: nat)
    requires i <= k < |s| && s[k] == '`' && ReadValue(s, i).Some? && s[i] != '"' && s[i] != '{' && s[i] != '['
    ensures ReadValue(s, i).value.1 <= k
  {
    hide ReadNumber;
    var end := ReadValue(s, i).value.1;
    if HasWord(s, i, "true") { NoBacktickIn(s, i, "true"); }
    else if HasWord(s, i, "false") { NoBacktickIn(s, i, "false"); }
    else if HasWord(s, i, "null") { NoBacktickIn(s, i, "null"); }
  }

  lemma NoBacktickIn(s: string, i: nat, word: string)
    requires i <= |s| && HasWord(s, i, word) && '`' !in word
    ensures forall k | i <= k < i + |word| :: s[k] != '`'
  {
    forall k | i <= k < i + |word| ensures s[k] != '`' { assert s[k] == s[i..i + |word|][k - i]; }
  }

  lemma {:induction false} ValueStops(s: string, i: nat, k: nat, m: nat)
    requires i <= k && Barred(s, k, m) && ReadValue(s, i).Some?
    ensures ReadValue(s, i).value.1 <= k
    decreases |s| - i, 0
  {
    hide ReadString, ReadNumber, ReadObject, ReadArray, HasWord;
    if s[i] == '"' { StringStops(s, i + 1, k, m); }
    else if s[i] == '{' { ObjectStops(s, i + 1, k, m); }
    else if s[i] == '[' { ArrayStops(s, i + 1, k, m); }
    else { PlainStops(s, i, k); }
  }

  lemma {:induction false} ObjectStops(s: string, i: nat, k: nat, m: nat)
    requires i <= k && Barred(s, k, m) && ReadObject(s, i).Some?
    ensures ReadObject(s, i).value.1 <= k
    decreases |s| - i, 3
  {
    hide SkipSpace, ReadMembers;
    SpaceStops(s, i, k);
    var j := SkipSpace(s, i);
    if s[j] != '}' { MembersStop(s, j, map[], k, m); }
  }

  lemma {:induction false} ArrayStops(s: string, i: nat, k: nat, m: nat)
    requires i <= k && Barred(s, k, m) && ReadArray(s, i).Some?
    ensures ReadArray(s, i).value.1 <= k
    decreases |s| - i, 3
  {
    hide SkipSpace, ReadItems;
    SpaceStops(s, i, k);
    var j := SkipSpace(s, i);
    if s[j] != ']' { ItemsStop(s, j, k, m); }
  }

  lemma {:induction false} MemberStops(s: string, i: nat, k: nat, m: nat)
    requires i <= k && Barred(s, k, m) && ReadMember(s, i).Some?
    ensures ReadMember(s, i).value.2 <= k
    decreases |s| - i, 1
  {
    hide SkipSpace, ReadString, ReadValue;
    var key := ReadString(s, i + 1).value;
    StringStops(s, i + 1, k, m);
    SpaceStops(s, key.1, k);
    var colon := SkipSpace(s, key.1);
    SpaceStops(s, colon + 1, k);
    var at := SkipSpace(s, colon + 1);
    ValueStops(s, at, k, m);
    SpaceStops(s, ReadValue(s, at).value.1, k);
  }

  lemma {:induction false} MembersStop(s: string, i: nat, before: map<string, Json>, k: nat, m: nat)
    requires i <= k && Barred(s, k, m) && ReadMembers(s, i, before).Some?
    ensures ReadMembers(s, i, before).value.1 <= k
    decreases |s| - i, 2
  {
    hide SkipSpace, ReadMember;
    var member := ReadMember(s, i).value;
    MemberStops(s, i, k, m);
    if s[member.2] == ',' {
      SpaceStops(s, member.2 + 1, k);
      MembersStop(s, SkipSpace(s, member.2 + 1), before[member.0 := member.1], k, m);
    }
  }

  lemma {:induction false} ItemsStop(s: string, i: nat, k: nat, m: nat)
    requires i <= k && Barred(s, k, m) && ReadItems(s, i).Some?
    ensures ReadItems(s, i).value.1 <= k
    decreases |s| - i, 2
  {
    hide SkipSpace, ReadValue;
    ValueStops(s, i, k, m);
    var end := ReadValue(s, i).value.1;
    SpaceStops(s, end, k);
    var next := SkipSpace(s, end);
    if s[next] == ',' {
      SpaceStops(s, next + 1, k);
      ItemsStop(s, SkipSpace(s, next + 1), k, m);
    }
  }

  /** A text with such a backtick is no JSON. */
  lemma BarredIsNotJson(s: string, k: nat, m: nat)
    requires Barred(s, k, m)
    ensures Decode(s).None?
  {
    hide SkipSpace, ReadValue;
    SpaceStops(s, 0, k);
    var i := SkipSpace(s, 0);
    if ReadValue(s, i).Some? {
      ValueStops(s, i, k, m);
      SpaceStops(s, ReadValue(s, i).value.1, k);
    }
  }

  // ---- Values written out ---------------------------------------------------------------------

  /** A value as it is written: an object is a list of members, which may repeat a key. */
  datatype Doc =
    | NullDoc
    | BoolDoc(value: bool)
    | NumDoc(number: Number)
    | StrDoc(chars: string)
    | ArrDoc(items: seq<Doc>)
    | ObjDoc(members: seq<Member>)

  datatype Member = Member(key: string, value: Doc)

  /** RFC 8259 section 6 allows no leading zero. */
  predicate JsonNumber(n: Number) { IsNumber(n) && (n.whole == "0" || n.whole[0] != '0') }

  predicate Writable(d: Doc) {
    match d
    case NumDoc(n) => JsonNumber(n)
    case ArrDoc(items) => forall k | 0 <= k < |items| :: Writable(items[k])
    case ObjDoc(members) => forall k | 0 <= k < |members| :: Writable(members[k].value)
    case _ => true
  }

  function ValueOf(d: Doc): Json
    decreases d
  {
    match d
    case NullDoc => Null
    case BoolDoc(b) => Bool(b)
    case NumDoc(n) => Num(Print(n))
    case StrDoc(chars) => Str(chars)
    case ArrDoc(items) => Arr(ValuesOf(items))
    case ObjDoc(members) => Obj(FieldsOf(members, map[]))
  }

  function ValuesOf(items: seq<Doc>): (values: seq<Json>)
    ensures |values| == |items|
    decreases items
  {
    if items == [] then [] else [ValueOf(items[0])] + ValuesOf(items[1..])
  }

  /** A repeated key keeps its last value. */
  function FieldsOf(members: seq<Member>, before: map<string, Json>): map<string, Json>
    decreases members
  {
    if members == [] then before
    else FieldsOf(members[1..], before[members[0].key := ValueOf(members[0].value)])
  }

  function HexDigit(n: nat): (c: char)
    requires n < 16
    ensures IsHex(c) && HexValue(c) == n
  {
    if n < 10 then '0' + n as char else 'a' + (n - 10) as char
  }

  /** A quote, a backslash or a control character is escaped, anything else stands for itself. */
  function Escaped(c: char): string {
    if c == '"' then "\\\""
    else if c == '\\' then "\\\\"
    else if c < ' ' then "\\u00" + [HexDigit(c as int / 16), HexDigit(c as int % 16)]
    else [c]
  }

  function Quoted(chars: string): string { if chars == "" then "\"" else Escaped(chars[0]) + Quoted(chars[1..]) }

  /** The text of a value, with the same whitespace wherever whitespace may stand. */
  function Written(d: Doc, gap: string): string
    decreases d
  {
    match d
    case NullDoc => "null"
    case BoolDoc(b) => if b then "true" else "false"
    case NumDoc(n) => Print(n)
    case StrDoc(chars) => "\"" + Quoted(chars)
    case ArrDoc(items) => "[" + gap + if items == [] then "]" else WrittenItems(items, gap)
    case ObjDoc(members) => "{" + gap + if members == [] then "}" else WrittenMembers(members, gap)
  }

  function WrittenItems(items: seq<Doc>, gap: string): string
    requires items != []
    decreases items
  {
    (Written(items[0], gap) + gap) + if |items| == 1 then "]" else ("," + gap) + WrittenItems(items[1..], gap)
  }

  function WrittenMember(m: Member, gap: string): string
    decreases m
  {
    "\"" + (Quoted(m.key) + (gap + (":" + (gap + (Written(m.value, gap) + gap)))))
  }

  function WrittenMembers(members: seq<Member>, gap: string): string
    requires members != []
    decreases members
  {
    WrittenMember(members[0], gap) + if |members| == 1 then "}" else ("," + gap) + WrittenMembers(members[1..], gap)
  }

  // ---- Reading back ---------------------------------------------------------------------------

  lemma Splits(s: string, i: nat, a: string, b: string)
    requires i <= |s| && HasWord(s, i, a + b)
    ensures i + |a| + |b| <= |s| && HasWord(s, i, a) && HasWord(s, i + |a|, b)
    ensures a != "" ==> s[i] == a[0]
    ensures b != "" ==> s[i + |a|] == b[0]
  {
    var all := s[i..i + |a + b|];
    assert s[i..i + |a|] == all[..|a|];
    assert s[i + |a|..i + |a + b|] == all[|a|..];
  }

  lemma {:induction false} SpaceReadsBack(s: string, i: nat, gap: string)
    requires i <= |s| && HasWord(s, i, gap) && forall c | c in gap :: IsJsonSpace(c)
    requires i + |gap| < |s| && !IsJsonSpace(s[i + |gap|])
    ensures SkipSpace(s, i) == i + |gap|
    decreases |gap|
  {
    if gap != "" {
      Splits(s, i, [gap[0]], gap[1..]);
      assert [gap[0]] + gap[1..] == gap;
      SpaceReadsBack(s, i + 1, gap[1..]);
    }
  }

  lemma {:induction false} DigitsReadBack(s: string, i: nat, digits: string)
    requires i <= |s| && HasWord(s, i, digits) && AllDigits(digits)
    requires i + |digits| < |s| ==> !IsDigit(s[i + |digits|])
    ensures SkipDigits(s, i) == i + |digits|
    decreases |digits|
  {
    if digits != "" {
      assert [digits[0]] + digits[1..] == digits;
      Splits(s, i, [digits[0]], digits[1..]);
      DigitsReadBack(s, i + 1, digits[1..]);
    }
  }

  predicate NumberEnds(s: string, end: nat) { end < |s| ==> !IsNumberChar(s[end]) }

  lemma SomeDigitsReadBack(s: string, i: nat, digits: string)
    requires i <= |s| && HasWord(s, i, digits) && digits != "" && AllDigits(digits) && NumberEnds(s, i + |digits|)
    ensures SomeDigits(s, i) == Some(i + |digits|)
  {
    hide SkipDigits, HasWord;
    DigitsReadBack(s, i, digits);
  }

  lemma ExponentReadsBack(s: string, i: nat, e: Exponent)
    requires i <= |s| && HasWord(s, i, ExponentText(e)) && NumberEnds(s, i + |ExponentText(e)|)
    requires e.Exponent? ==> e.digits != "" && AllDigits(e.digits)
    ensures ReadExponent(s, i) == Some(i + |ExponentText(e)|)
  {
    hide SkipDigits, HasWord, SomeDigits;
    if e.Exponent? {
      var marker, sign := if e.upper then "E" else "e", SignText(e.sign);
      Splits(s, i, marker, sign + e.digits);
      Splits(s, i + 1, sign, e.digits);
      SomeDigitsReadBack(s, i + 1 + |sign|, e.digits);
      assert IsDigit(e.digits[0]);
    }
  }

  lemma NumberFrom(s: string, i: nat, start: nat, whole: nat, middle: nat, end: nat)
    requires i < |s| && start == (if s[i] == '-' then i + 1 else i) && start < |s| && start < whole <= middle <= |s|
    requires if s[start] == '0' then whole == start + 1 else SomeDigits(s, start) == Some(whole)
    requires if whole < |s| && s[whole] == '.' then SomeDigits(s, whole + 1) == Some(middle) else middle == whole
    requires ReadExponent(s, middle) == Some(end)
    ensures ReadNumber(s, i) == Some(end)
  {
    hide SomeDigits, ReadExponent;
  }

  lemma NumberStarts(n: Number)
    requires IsNumber(n)
    ensures Print(n) != "" && (Print(n)[0] == '-' || IsDigit(Print(n)[0]))
  {
    hide FractionText, ExponentText;
    assert IsDigit(n.whole[0]);
  }

  /** Where the parts of a number's text are. */
  lemma NumberAt(s: string, i: nat, n: Number)
    requires i <= |s| && HasWord(s, i, Print(n)) && IsNumber(n)
    ensures var start := i + if n.negative then 1 else 0;
            var whole := start + |n.whole|;
            var middle := whole + |FractionText(n)|;
            middle + |ExponentText(n.exponent)| == i + |Print(n)| && i + |Print(n)| <= |s| && n.whole != "" &&
            (s[i] == '-' <==> n.negative) &&
            HasWord(s, start, n.whole) && HasWord(s, whole, FractionText(n)) &&
            HasWord(s, middle, ExponentText(n.exponent))
  {
    hide HasWord, FractionText, ExponentText, AllDigits;
    var minus, fraction, exponent := if n.negative then "-" else "", FractionText(n), ExponentText(n.exponent);
    var start := i + |minus|;
    Splits(s, i, minus, (n.whole + fraction) + exponent);
    Splits(s, start, n.whole + fraction, exponent);
    Splits(s, start, n.whole, fraction);
    assert IsDigit(n.whole[0]) by { assert AllDigits(n.whole); FirstDigit(n.whole); }
  }

  lemma NumberReadsBack(s: string, i: nat, n: Number)
    requires i <= |s| && HasWord(s, i, Print(n)) && JsonNumber(n) && NumberEnds(s, i + |Print(n)|)
    ensures ReadNumber(s, i) == Some(i + |Print(n)|)
  {
    hide SkipDigits, ReadExponent, ExponentText, HasWord, FractionText, ReadNumber, SomeDigits, AllDigits, Print;
    NumberAt(s, i, n);
    var start := i + if n.negative then 1 else 0;
    var whole := start + |n.whole|;
    var middle := whole + |FractionText(n)|;
    ExponentReadsBack(s, middle, n.exponent);
    FractionReadsBack(s, whole, n);
    WholeReadsBack(s, start, n.whole);
    NumberFrom(s, i, start, whole, middle, middle + |ExponentText(n.exponent)|);
  }

  lemma FirstDigit(digits: string)
    requires AllDigits(digits) && digits != ""
    ensures IsDigit(digits[0])
  {}

  /** The fraction, if any, ends where the exponent starts. */
  lemma FractionReadsBack(s: string, whole: nat, n: Number)
    requires whole <= |s| && IsNumber(n) && HasWord(s, whole, FractionText(n))
    requires whole + |FractionText(n)| <= |s| && HasWord(s, whole + |FractionText(n)|, ExponentText(n.exponent))
    requires NumberEnds(s, whole + |FractionText(n)| + |ExponentText(n.exponent)|)
    ensures whole < |s| ==> !IsDigit(s[whole])
    ensures n.fraction.None? ==> FractionText(n) == "" && (whole < |s| ==> s[whole] != '.')
    ensures n.fraction.Some? ==>
      whole < |s| && s[whole] == '.' && SomeDigits(s, whole + 1) == Some(whole + |FractionText(n)|)
  {
    hide SkipDigits, HasWord, ExponentText;
    ExponentStarts(s, whole + |FractionText(n)|, n.exponent);
    if n.fraction.Some? {
      Splits(s, whole, ".", n.fraction.value);
      DigitsReadBack(s, whole + 1, n.fraction.value);
    }
  }

  /** What follows the digits is no digit and no point. */
  lemma ExponentStarts(s: string, i: nat, e: Exponent)
    requires i <= |s| && HasWord(s, i, ExponentText(e)) && NumberEnds(s, i + |ExponentText(e)|)
    ensures i < |s| ==> !IsDigit(s[i]) && s[i] != '.'
  {
    if e.Exponent? { Splits(s, i, if e.upper then "E" else "e", SignText(e.sign) + e.digits); }
  }

  lemma WholeReadsBack(s: string, start: nat, whole: string)
    requires start <= |s| && HasWord(s, start, whole) && whole != "" && AllDigits(whole)
    requires whole == "0" || whole[0] != '0'
    requires start + |whole| < |s| ==> !IsDigit(s[start + |whole|])
    ensures start < |s| && s[start] == whole[0]
    ensures s[start] == '0' ==> |whole| == 1
    ensures s[start] != '0' ==> SomeDigits(s, start) == Some(start + |whole|)
  {
    hide SkipDigits;
    DigitsReadBack(s, start, whole);
    assert s[start] == s[start..start + |whole|][0];
  }

  lemma CharAt(s: string, i: nat, word: string, k: nat)
    requires i <= |s| && HasWord(s, i, word) && k < |word|
    ensures i + |word| <= |s| && s[i + k] == word[k]
  {
    assert s[i..i + |word|][k] == word[k];
  }

  lemma EscapeReadsBack(s: string, i: nat, c: char)
    requires i <= |s| && HasWord(s, i, Escaped(c)) && i + |Escaped(c)| <= |s|
    requires ReadString(s, i + |Escaped(c)|).Some?
    ensures var rest := ReadString(s, i + |Escaped(c)|).value;
            ReadString(s, i) == Some(([c] + rest.0, rest.1))
  {
    hide HasWord, UnicodeEscape, ReadString;
    var text, rest := Escaped(c), ReadString(s, i + |Escaped(c)|).value;
    CharAt(s, i, text, 0);
    if c == '"' || c == '\\' {
      CharAt(s, i, text, 1);
      ShortEscape(s, i);
    } else if c < ' ' {
      CharAt(s, i, text, 1);
      CharAt(s, i, text, 2);
      CharAt(s, i, text, 3);
      CharAt(s, i, text, 4);
      CharAt(s, i, text, 5);
      ControlReadsBack(s, i + 2, c);
      LongEscape(s, i);
    } else {
      PlainChar(s, i);
    }
  }

  lemma PlainChar(s: string, i: nat)
    requires i < |s| && !(s[i] < ' ') && s[i] != '"' && s[i] != '\\' && ReadString(s, i + 1).Some?
    ensures var rest := ReadString(s, i + 1).value;
            ReadString(s, i) == Some(([s[i]] + rest.0, rest.1))
  {}

  lemma ShortEscape(s: string, i: nat)
    requires i + 2 <= |s| && s[i] == '\\' && s[i + 1] != 'u' && SimpleEscape(s[i + 1]).Some?
    requires ReadString(s, i + 2).Some?
    ensures var rest := ReadString(s, i + 2).value;
            ReadString(s, i) == Some(([SimpleEscape(s[i + 1]).value] + rest.0, rest.1))
  {
    hide SimpleEscape;
  }

  lemma LongEscape(s: string, i: nat)
    requires i + 2 <= |s| && s[i] == '\\' && s[i + 1] == 'u' && UnicodeEscape(s, i + 2).Some?
    requires ReadString(s, UnicodeEscape(s, i + 2).value.1).Some?
    ensures var rest := ReadString(s, UnicodeEscape(s, i + 2).value.1).value;
            ReadString(s, i) == Some(([UnicodeEscape(s, i + 2).value.0] + rest.0, rest.1))
  {
    hide UnicodeEscape;
  }

  lemma ControlReadsBack(s: string, i: nat, c: char)
    requires c < ' ' && i + 4 <= |s| && s[i] == '0' && s[i + 1] == '0'
    requires s[i + 2] == HexDigit(c as int / 16) && s[i + 3] == HexDigit(c as int % 16)
    ensures UnicodeEscape(s, i) == Some((c, i + 4))
  {
    assert HexFour(s, i) == Some(c as int);
  }

  lemma {:induction false} StringReadsBack(s: string, i: nat, chars: string)
    requires i <= |s| && HasWord(s, i, Quoted(chars))
    ensures ReadString(s, i) == Some((chars, i + |Quoted(chars)|))
    decreases |chars|
  {
    hide ReadString, Escaped;
    if chars == "" {
      assert s[i..i + 1] == "\"";
      QuoteEndsString(s, i);
    } else {
      var c, rest := chars[0], chars[1..];
      Splits(s, i, Escaped(c), Quoted(rest));
      StringReadsBack(s, i + |Escaped(c)|, rest);
      EscapeReadsBack(s, i, c);
      assert [c] + rest == chars;
    }
  }

  lemma QuoteEndsString(s: string, i: nat)
    requires i < |s| && s[i] == '"'
    ensures ReadString(s, i) == Some(("", i + 1))
  {}

  /** No written value starts with whitespace or a closing bracket. */
  lemma WrittenStarts(d: Doc, gap: string)
    requires Writable(d)
    ensures Written(d, gap) != "" && !IsJsonSpace(Written(d, gap)[0]) && Written(d, gap)[0] != ']'
  {
    if d.NumDoc? { NumberStarts(d.number); }
  }

  predicate AllSpace(gap: string) { forall c | c in gap :: IsJsonSpace(c) }

  /** A written value at i is read as that value, up to its end, if no number could go on there. */
  lemma {:induction false} ReadsBack(s: string, i: nat, d: Doc, gap: string)
    requires i <= |s| && Writable(d) && AllSpace(gap) && HasWord(s, i, Written(d, gap))
    requires NumberEnds(s, i + |Written(d, gap)|)
    ensures ReadValue(s, i) == Some((ValueOf(d), i + |Written(d, gap)|))
    decreases d, 0
  {
    hide ReadValue, HasWord;
    match d {
      case NumDoc(n) => NumberValueReadsBack(s, i, n);
      case StrDoc(chars) => StringValueReadsBack(s, i, chars);
      case ArrDoc(items) => ArrayReadsBack(s, i, items, gap);
      case ObjDoc(members) => ObjectReadsBack(s, i, members, gap);
      case _ => WordReadsBack(s, i, Written(d, gap));
    }
  }

  lemma NumberValueReadsBack(s: string, i: nat, n: Number)
    requires i <= |s| && HasWord(s, i, Print(n)) && JsonNumber(n) && NumberEnds(s, i + |Print(n)|)
    ensures ReadValue(s, i) == Some((Num(Print(n)), i + |Print(n)|))
  {
    hide ReadNumber, Print, HasWord, ReadString, ReadObject, ReadArray;
    NumberReadsBack(s, i, n);
    NumberStarts(n);
    NumberIsNoWord(s, i, Print(n));
  }

  lemma StringValueReadsBack(s: string, i: nat, chars: string)
    requires i <= |s| && HasWord(s, i, "\"" + Quoted(chars))
    ensures ReadValue(s, i) == Some((Str(chars), i + 1 + |Quoted(chars)|))
  {
    hide ReadString, Quoted, HasWord;
    Splits(s, i, "\"", Quoted(chars));
    StringReadsBack(s, i + 1, chars);
  }

  lemma WordReadsBack(s: string, i: nat, word: string)
    requires i <= |s| && HasWord(s, i, word) && word in {"true", "false", "null"}
    ensures ReadValue(s, i) ==
      Some((if word == "true" then Bool(true) else if word == "false" then Bool(false) else Null, i + |word|))
  {
    CharAt(s, i, word, 0);
    if HasWord(s, i, "true") { CharAt(s, i, "true", 0); }
    if HasWord(s, i, "false") { CharAt(s, i, "false", 0); }
  }

  lemma NumberIsNoWord(s: string, i: nat, text: string)
    requires i <= |s| && HasWord(s, i, text) && text != "" && (text[0] == '-' || IsDigit(text[0]))
    ensures i < |s| && s[i] == text[0] && i + |text| <= |s| && s[i..i + |text|] == text
    ensures !HasWord(s, i, "true") && !HasWord(s, i, "false") && !HasWord(s, i, "null")
  {
    CharAt(s, i, text, 0);
    if HasWord(s, i, "true") { CharAt(s, i, "true", 0); }
    if HasWord(s, i, "false") { CharAt(s, i, "false", 0); }
    if HasWord(s, i, "null") { CharAt(s, i, "null", 0); }
  }

  /** A bracket, whitespace and the rest, each where it starts. */
  lemma OpensWith(s: string, i: nat, bracket: char, gap: string, rest: string)
    requires i <= |s| && HasWord(s, i, ([bracket] + gap) + rest) && rest != ""
    ensures i + 1 + |gap| + |rest| <= |s| && s[i] == bracket && HasWord(s, i + 1, gap)
    ensures HasWord(s, i + 1 + |gap|, rest) && s[i + 1 + |gap|] == rest[0]
  {
    hide HasWord;
    Splits(s, i, [bracket] + gap, rest);
    Splits(s, i, [bracket], gap);
  }

  lemma {:induction false} ArrayReadsBack(s: string, i: nat, items: seq<Doc>, gap: string)
    requires i <= |s| && Writable(ArrDoc(items)) && AllSpace(gap) && HasWord(s, i, Written(ArrDoc(items), gap))
    ensures ReadValue(s, i) == Some((Arr(ValuesOf(items)), i + |Written(ArrDoc(items), gap)|))
    decreases items, 1
  {
    hide SkipSpace, ReadItems, HasWord, WrittenItems, ReadString, ReadObject, ReadNumber;
    if items == [] {
      OpensWith(s, i, '[', gap, "]");
      SpaceReadsBack(s, i + 1, gap);
    } else {
      ItemsStart(items, gap);
      OpensWith(s, i, '[', gap, WrittenItems(items, gap));
      SpaceReadsBack(s, i + 1, gap);
      ItemsReadBack(s, i + 1 + |gap|, items, gap);
    }
  }

  lemma ItemsStart(items: seq<Doc>, gap: string)
    requires items != [] && Writable(ArrDoc(items))
    ensures WrittenItems(items, gap) != "" && !IsJsonSpace(WrittenItems(items, gap)[0]) &&
            WrittenItems(items, gap)[0] != ']'
  {
    hide Written;
    WrittenStarts(items[0], gap);
  }

  lemma {:induction false} ItemReadsBack(s: string, i: nat, d: Doc, gap: string)
    requires i <= |s| && Writable(d) && AllSpace(gap) && HasWord(s, i, Written(d, gap) + gap)
    requires var next := i + |Written(d, gap)| + |gap|; next < |s| && s[next] in ",]"
    ensures ReadItem(s, i) == Some((ValueOf(d), i + |Written(d, gap)| + |gap|))
    decreases d, 1
  {
    hide SkipSpace, HasWord, ReadValue, Written;
    var end := i + |Written(d, gap)|;
    Splits(s, i, Written(d, gap), gap);
    AfterFirst(s, end, gap);
    ReadsBack(s, i, d, gap);
    SpaceReadsBack(s, end, gap);
  }

  /** Where the first element and the rest of the elements are. */
  lemma ItemsAt(s: string, i: nat, items: seq<Doc>, gap: string) returns (next: nat)
    requires i <= |s| && items != [] && HasWord(s, i, WrittenItems(items, gap))
    ensures next == i + |Written(items[0], gap)| + |gap| && next < |s| && HasWord(s, i, Written(items[0], gap) + gap)
    ensures |items| == 1 ==> s[next] == ']' && i + |WrittenItems(items, gap)| == next + 1
    ensures |items| > 1 ==>
      s[next] == ',' && HasWord(s, next, ("," + gap) + WrittenItems(items[1..], gap)) &&
      i + |WrittenItems(items, gap)| == next + 1 + |gap| + |WrittenItems(items[1..], gap)|
  {
    hide Written, HasWord;
    var first := Written(items[0], gap) + gap;
    next := i + |first|;
    if |items| == 1 {
      Splits(s, i, first, "]");
    } else {
      Splits(s, i, first, ("," + gap) + WrittenItems(items[1..], gap));
    }
  }

  lemma OneValue(items: seq<Doc>)
    requires |items| == 1
    ensures ValuesOf(items) == [ValueOf(items[0])]
  {
    assert items[1..] == [];
  }

  lemma {:induction false} ItemsReadBack(s: string, i: nat, items: seq<Doc>, gap: string)
    requires i <= |s| && items != [] && Writable(ArrDoc(items)) && AllSpace(gap)
    requires HasWord(s, i, WrittenItems(items, gap))
    ensures ReadItems(s, i) == Some((ValuesOf(items), i + |WrittenItems(items, gap)|))
    decreases items, 0
  {
    hide SkipSpace, HasWord, ReadItem, Written, WrittenItems;
    var next := ItemsAt(s, i, items, gap);
    ItemReadsBack(s, i, items[0], gap);
    if |items| == 1 {
      OneValue(items);
    } else {
      ItemsStart(items[1..], gap);
      OpensWith(s, next, ',', gap, WrittenItems(items[1..], gap));
      SpaceReadsBack(s, next + 1, gap);
      ItemsReadBack(s, next + 1 + |gap|, items[1..], gap);
    }
  }

  /** After a value come whitespace and a bracket or comma, with which no number goes on. */
  lemma AfterFirst(s: string, i: nat, gap: string)
    requires i <= |s| && HasWord(s, i, gap) && AllSpace(gap) && i + |gap| < |s| && s[i + |gap|] in ",]}"
    ensures NumberEnds(s, i)
  {
    if gap != "" {
      CharAt(s, i, gap, 0);
      assert gap[0] in gap;
    }
  }

  lemma {:induction false} ObjectReadsBack(s: string, i: nat, members: seq<Member>, gap: string)
    requires i <= |s| && Writable(ObjDoc(members)) && AllSpace(gap) && HasWord(s, i, Written(ObjDoc(members), gap))
    ensures ReadValue(s, i) == Some((Obj(FieldsOf(members, map[])), i + |Written(ObjDoc(members), gap)|))
    decreases members, 1
  {
    hide SkipSpace, ReadMembers, HasWord, WrittenMembers, ReadString, ReadArray, ReadNumber;
    if members == [] {
      OpensWith(s, i, '{', gap, "}");
      SpaceReadsBack(s, i + 1, gap);
    } else {
      MembersStart(members, gap);
      OpensWith(s, i, '{', gap, WrittenMembers(members, gap));
      SpaceReadsBack(s, i + 1, gap);
      MembersReadBack(s, i + 1 + |gap|, members, map[], gap);
    }
  }

  lemma MembersStart(members: seq<Member>, gap: string)
    requires members != []
    ensures WrittenMembers(members, gap) != "" && WrittenMembers(members, gap)[0] == '"'
  {
    hide Written, Quoted;
  }

  /** Where the parts of a member are: the key and its whitespace, then the colon and the value. */
  lemma KeyAt(s: string, i: nat, key: string, gap: string, rest: string)
    requires i <= |s| && HasWord(s, i, "\"" + (key + (gap + rest)))
    ensures i + 1 + |key| + |gap| + |rest| <= |s| && s[i] == '"' && HasWord(s, i + 1, key)
    ensures HasWord(s, i + 1 + |key|, gap) && HasWord(s, i + 1 + |key| + |gap|, rest)
  {
    hide HasWord;
    Splits(s, i, "\"", key + (gap + rest));
    Splits(s, i + 1, key, gap + rest);
    Splits(s, i + 1 + |key|, gap, rest);
  }

  lemma ValueAt(s: string, colon: nat, gap: string, value: string)
    requires colon <= |s| && HasWord(s, colon, ":" + (gap + (value + gap)))
    ensures var at := colon + 1 + |gap|;
            at + |value| + |gap| <= |s| && s[colon] == ':' && HasWord(s, colon + 1, gap) && HasWord(s, at, value) &&
            HasWord(s, at + |value|, gap)
  {
    hide HasWord;
    Splits(s, colon, ":", gap + (value + gap));
    Splits(s, colon + 1, gap, value + gap);
    Splits(s, colon + 1 + |gap|, value, gap);
  }

  lemma {:induction false} MemberReadsBack(s: string, i: nat, m: Member, gap: string)
    requires i <= |s| && Writable(m.value) && AllSpace(gap) && HasWord(s, i, WrittenMember(m, gap))
    requires var next := i + |WrittenMember(m, gap)|; next < |s| && s[next] in ",}"
    ensures ReadMember(s, i) == Some((m.key, ValueOf(m.value), i + |WrittenMember(m, gap)|))
    decreases m, 1
  {
    hide SkipSpace, HasWord, ReadValue, ReadMember, ReadString, Written, Quoted;
    var key, value := Quoted(m.key), Written(m.value, gap);
    KeyAt(s, i, key, gap, ":" + (gap + (value + gap)));
    ValueAt(s, i + 1 + |key| + |gap|, gap, value);
    WrittenStarts(m.value, gap);
    var at := i + 1 + |key| + |gap| + 1 + |gap|;
    assert |WrittenMember(m, gap)| == at - i + |value| + |gap|;
    MemberFrom(s, i, m, gap, i + 1 + |key|, i + 1 + |key| + |gap|, at, at + |value|);
  }

  lemma {:induction false} MemberFrom(s: string, i: nat, m: Member, gap: string, end: nat, colon: nat, at: nat,
                                      last: nat)
    requires i < |s| && s[i] == '"' && Writable(m.value) && AllSpace(gap)
    requires HasWord(s, i + 1, Quoted(m.key)) && end == i + 1 + |Quoted(m.key)|
    requires colon == end + |gap| && colon < |s| && HasWord(s, end, gap) && s[colon] == ':'
    requires at == colon + 1 + |gap| && at < |s| && HasWord(s, colon + 1, gap) && HasWord(s, at, Written(m.value, gap))
    requires last == at + |Written(m.value, gap)| && last + |gap| < |s| && HasWord(s, last, gap)
    requires s[last + |gap|] in ",}"
    ensures ReadMember(s, i) == Some((m.key, ValueOf(m.value), last + |gap|))
    decreases m, 0
  {
    hide SkipSpace, HasWord, ReadValue, ReadString, Written, Quoted;
    StringReadsBack(s, i + 1, m.key);
    SpaceReadsBack(s, end, gap);
    WrittenStarts(m.value, gap);
    CharAt(s, at, Written(m.value, gap), 0);
    SpaceReadsBack(s, colon + 1, gap);
    AfterFirst(s, last, gap);
    ReadsBack(s, at, m.value, gap);
    SpaceReadsBack(s, last, gap);
  }

  /** Where the first member and the rest of the members are. */
  lemma MembersAt(s: string, i: nat, members: seq<Member>, gap: string) returns (next: nat)
    requires i <= |s| && members != [] && HasWord(s, i, WrittenMembers(members, gap))
    ensures next == i + |WrittenMember(members[0], gap)| && next < |s| && HasWord(s, i, WrittenMember(members[0], gap))
    ensures |members| == 1 ==> s[next] == '}' && i + |WrittenMembers(members, gap)| == next + 1
    ensures |members| > 1 ==>
      s[next] == ',' && HasWord(s, next, ("," + gap) + WrittenMembers(members[1..], gap)) &&
      i + |WrittenMembers(members, gap)| == next + 1 + |gap| + |WrittenMembers(members[1..], gap)|
  {
    hide WrittenMember, HasWord;
    var first := WrittenMember(members[0], gap);
    next := i + |first|;
    if |members| == 1 {
      Splits(s, i, first, "}");
    } else {
      Splits(s, i, first, ("," + gap) + WrittenMembers(members[1..], gap));
    }
  }

  lemma {:induction false} MembersReadBack(s: string, i: nat, members: seq<Member>, before: map<string, Json>,
                                           gap: string)
    requires i <= |s| && members != [] && Writable(ObjDoc(members)) && AllSpace(gap)
    requires HasWord(s, i, WrittenMembers(members, gap))
    ensures ReadMembers(s, i, before) == Some((FieldsOf(members, before), i + |WrittenMembers(members, gap)|))
    decreases members, 0
  {
    hide SkipSpace, HasWord, ReadMember, WrittenMember, WrittenMembers;
    var next := MembersAt(s, i, members, gap);
    MemberReadsBack(s, i, members[0], gap);
    if |members| == 1 {
      assert members[1..] == [];
    } else {
      MembersStart(members[1..], gap);
      OpensWith(s, next, ',', gap, WrittenMembers(members[1..], gap));
      SpaceReadsBack(s, next + 1, gap);
      MembersReadBack(s, next + 1 + |gap|, members[1..], before[members[0].key := ValueOf(members[0].value)], gap);
    }
  }

  /** Where a text stands between two stretches of whitespace. */
  lemma FramedAt(text: string, gap: string)
    requires text != "" && AllSpace(gap)
    ensures var s, end := gap + text + gap, |gap| + |text|;
            HasWord(s, 0, gap) && HasWord(s, |gap|, text) && s[|gap|] == text[0] && NumberEnds(s, end) &&
            forall k | end <= k < |s| :: IsJsonSpace(s[k])
  {
    var s := gap + text + gap;
    assert s[0..|gap|] == gap && s[|gap|..|gap| + |text|] == text;
    forall k | |gap| + |text| <= k < |s| ensures IsJsonSpace(s[k]) { assert s[k] in gap; }
  }

  /** Every value written out, with whatever whitespace between its tokens, decodes to itself. */
  lemma WrittenDecodes(d: Doc, gap: string)
    requires Writable(d) && AllSpace(gap)
    ensures Decode(gap + Written(d, gap) + gap) == Some(ValueOf(d))
  {
    hide ReadValue, SkipSpace, Written, ValueOf, HasWord, NumberEnds;
    var text := Written(d, gap);
    var s := gap + text + gap;
    WrittenStarts(d, gap);
    FramedAt(text, gap);
    SpaceReadsBack(s, 0, gap);
    ReadsBack(s, |gap|, d, gap);
    SpaceToEnd(s, |gap| + |text|);
  }
}
