/** JSON values as the structured-output code sees them: numbers stay texts. */
module JsonValues {
  import opened Options
  import opened Decimal

  datatype Json =
    | Null
    | Bool(value: bool)
    | Num(text: string)
    | Str(chars: string)
    | Arr(items: seq<Json>)
    | Obj(fields: map<string, Json>)

  /** jsonValuesEqual */
  predicate Same(a: Json, b: Json)
    decreases a
  {
    match a
    case Num(text) => b.Num? && SameNumber(text, b.text)
    case Arr(items) => b.Arr? && |items| == |b.items| && forall i | 0 <= i < |items| :: Same(items[i], b.items[i])
    case Obj(fields) =>
      b.Obj? && |fields| == |b.fields| &&
      forall k | k in fields :: k in b.fields && Same(fields[k], b.fields[k])
    case _ => a == b
  }

  /** Every number in the value is written by the grammar. */
  ghost predicate Grammatical(v: Json) {
    match v
    case Num(text) => exists n: Number :: IsNumber(n) && text == Print(n)
    case Arr(items) => forall i | 0 <= i < |items| :: Grammatical(items[i])
    case Obj(fields) => forall k | k in fields :: Grammatical(fields[k])
    case _ => true
  }

  lemma SubsetOfSameSize<T>(a: set<T>, b: set<T>)
    requires a <= b && |a| == |b|
    ensures a == b
  {
    if a != b {
      var x :| x in b && x !in a;
      SizesOrdered(a, b - {x});
    }
  }

  lemma {:induction false} SizesOrdered<T>(a: set<T>, b: set<T>)
    requires a <= b
    ensures |a| <= |b|
  {
    if a != {} {
      var x :| x in a;
      SizesOrdered(a - {x}, b - {x});
    }
  }

  /** Equal objects have the same keys, in both directions. */
  lemma SameKeys(a: Json, b: Json)
    requires a.Obj? && Same(a, b)
    ensures b.Obj? && a.fields.Keys == b.fields.Keys
  {
    assert forall k | k in a.fields.Keys :: k in b.fields.Keys;
    assert |a.fields.Keys| == |b.fields.Keys|;
    SubsetOfSameSize(a.fields.Keys, b.fields.Keys);
  }

  lemma {:induction false} SameReflexive(v: Json)
    requires Grammatical(v)
    ensures Same(v, v)
  {
    match v {
      case Num(text) =>
        var n :| IsNumber(n) && text == Print(n);
        NumbersEqualExact(n, n);
      case Arr(items) => forall i | 0 <= i < |items| ensures Same(items[i], items[i]) { SameReflexive(items[i]); }
      case Obj(fields) => forall k | k in fields ensures Same(fields[k], fields[k]) { SameReflexive(fields[k]); }
      case _ =>
    }
  }

  lemma {:induction false} SameSymmetric(a: Json, b: Json)
    requires Grammatical(a) && Grammatical(b) && Same(a, b)
    ensures Same(b, a)
    decreases a
  {
    match a {
      case Num(text) =>
        var m, n :| IsNumber(m) && IsNumber(n) && text == Print(m) && b.text == Print(n);
        NumbersEqualExact(m, n);
        NumbersEqualExact(n, m);
      case Arr(items) =>
        forall i | 0 <= i < |items|
          ensures Same(b.items[i], items[i])
        {
          SameSymmetric(items[i], b.items[i]);
        }
      case Obj(fields) =>
        SameKeys(a, b);
        forall k | k in fields ensures Same(b.fields[k], fields[k]) { SameSymmetric(fields[k], b.fields[k]); }
        assert forall k | k in b.fields :: k in b.fields.Keys && k in fields.Keys;
      case _ =>
    }
  }

  lemma {:induction false} SameTransitive(a: Json, b: Json, c: Json)
    requires Grammatical(a) && Grammatical(b) && Grammatical(c) && Same(a, b) && Same(b, c)
    ensures Same(a, c)
    decreases a
  {
    match a {
      case Num(text) =>
        var l, m, n :| IsNumber(l) && IsNumber(m) && IsNumber(n) && text == Print(l) && b.text == Print(m) &&
            c.text == Print(n);
        NumbersEqualExact(l, m);
        NumbersEqualExact(m, n);
        NumbersEqualExact(l, n);
      case Arr(items) =>
        forall i | 0 <= i < |items|
          ensures Same(items[i], c.items[i])
        {
          SameTransitive(items[i], b.items[i], c.items[i]);
        }
      case Obj(fields) =>
        forall k | k in fields
          ensures k in c.fields && Same(fields[k], c.fields[k])
        {
          SameTransitive(fields[k], b.fields[k], c.fields[k]);
        }
      case _ =>
    }
  }
}
