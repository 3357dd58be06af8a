/**
 The three schema rewrites and the one validator they must agree with. A schema
 is what the code reads of it: type, enum, required, properties, items and
 additionalProperties; Any is every schema that is not an object.
 */
module Schemas {
  import opened Options
  import opened Decimal
  import opened JsonValues

  datatype Types = NoType | One(name: string) | Many(names: seq<string>)

  datatype Additional = NotStated | Allowed(allowed: bool) | Stated

  datatype Properties = Absent | Declares(value: map<string, Schema>)

  datatype Schema =
    | Any
    | Node(types: Types, enum: Option<seq<Json>>, required: set<string>, properties: Properties,
           items: Option<Schema>, additional: Additional)

  // ---- The validator -----------------------------------------------------------------

  predicate IsInt64(text: string) {
    var n := ParseInt(text);
    n.Some? && -0x8000_0000_0000_0000 <= n.value < 0x8000_0000_0000_0000
  }

  predicate MatchesType(v: Json, name: string) {
    if name == "object" then v.Obj?
    else if name == "array" then v.Arr?
    else if name == "string" then v.Str?
    else if name == "integer" then v.Num? && IsInt64(v.text)
    else if name == "number" then v.Num?
    else if name == "boolean" then v.Bool?
    else if name == "null" then v.Null?
    else true
  }

  predicate MatchesTypes(v: Json, types: Types) {
    match types
    case NoType => true
    case One(name) => MatchesType(v, name)
    case Many(names) => names == [] || exists name | name in names :: MatchesType(v, name)
  }

  predicate MatchesEnum(v: Json, enum: Option<seq<Json>>) { enum.None? || v in enum.value }

  function Known(s: Schema): set<string>
    requires s.Node?
  { if s.properties.Declares? then s.properties.value.Keys else {} }

  /** validateJSONValue */
  predicate Conforms(v: Json, s: Schema)
    decreases s
  {
    s.Node? ==>
      MatchesEnum(v, s.enum) && MatchesTypes(v, s.types) &&
      (v.Obj? ==>
        s.required <= v.fields.Keys &&
        (s.additional == Allowed(false) ==> v.fields.Keys <= Known(s)) &&
        (s.properties.Declares? ==>
         forall k | k in s.properties.value && k in v.fields :: Conforms(v.fields[k], s.properties.value[k]))) &&
      (v.Arr? && s.items.Some? ==> forall i | 0 <= i < |v.items| :: Conforms(v.items[i], s.items.value))
  }

  // ---- The rewrites -------------------------------------------------------------------

  /** allowSchemaNull */
  function AllowNull(s: Schema): Schema {
    if s.Any? then s
    else s.(enum := if s.enum.Some? && Null !in s.enum.value then Some(s.enum.value + [Null]) else s.enum,
            types := match s.types
                     case One(name) => if name != "null" then Many([name, "null"]) else s.types
                     case Many(names) => if "null" !in names then Many(names + ["null"]) else s.types
                     case NoType => NoType)
  }

  predicate IsObjectTyped(s: Schema) { s.Node? && s.types == One("object") }

  function CloseAdditional(s: Schema): Additional
    requires s.Node?
  {
    if IsObjectTyped(s) && s.additional == NotStated then Allowed(false) else s.additional
  }

  /** addAdditionalPropertiesFalse, the body of codexOutputSchema. */
  function Codex(s: Schema): Schema {
    if s.Any? then s
    else s.(additional := CloseAdditional(s),
            required := if IsObjectTyped(s) && s.properties.Declares? then s.properties.value.Keys else s.required,
            properties := if s.properties.Absent? then Absent else
              Declares(map k | k in s.properties.value ::
                         if k in s.required then Codex(s.properties.value[k])
                         else AllowNull(Codex(s.properties.value[k]))),
            items := if s.items.None? then None else Some(Codex(s.items.value)))
  }

  /** Only the additionalProperties part of the codex rewrite. */
  function Close(s: Schema): Schema {
    if s.Any? then s
    else s.(additional := CloseAdditional(s),
            properties := if s.properties.Absent? then Absent
              else Declares(map k | k in s.properties.value :: Close(s.properties.value[k])),
            items := if s.items.None? then None else Some(Close(s.items.value)))
  }

  /** allowOptionalSchemaNulls */
  function Optional(s: Schema): Schema {
    if s.Any? then s
    else s.(properties := if s.properties.Absent? then Absent else
              Declares(map k | k in s.properties.value ::
                         if k in s.required then Optional(s.properties.value[k])
                         else AllowNull(Optional(s.properties.value[k]))),
            items := if s.items.None? then None else Some(Optional(s.items.value)))
  }

  /** piStrictToolSchema */
  function PiStrict(s: Schema): Schema {
    if s.Any? then s
    else s.(additional := NotStated,
            properties := if s.properties.Absent? then Absent
              else Declares(map k | k in s.properties.value :: PiStrict(s.properties.value[k])),
            items := if s.items.None? then None else Some(PiStrict(s.items.value)))
  }

  /** codexFillNullableFields: absent optional properties become explicit nulls. */
  function Fill(v: Json, s: Schema): Json
    decreases s
  {
    if s.Any? then v
    else if v.Obj? && s.properties.Declares? then
      Obj(map k | k in v.fields.Keys + (s.properties.value.Keys - s.required) ::
            if k !in v.fields then Null
            else if k in s.properties.value && v.fields[k] != Null then Fill(v.fields[k], s.properties.value[k])
            else v.fields[k])
    else if v.Arr? && s.items.Some? then
      Arr(seq(|v.items|, i requires 0 <= i < |v.items| => Fill(v.items[i], s.items.value)))
    else v
  }

  /** The inverse reading: optional properties that are null are taken out again. */
  function Strip(v: Json, s: Schema): Json
    decreases s
  {
    if s.Any? then v
    else if v.Obj? && s.properties.Declares? then
      Obj(map k | k in v.fields && !(k in s.properties.value && k !in s.required && v.fields[k] == Null) ::
            if k in s.properties.value then Strip(v.fields[k], s.properties.value[k]) else v.fields[k])
    else if v.Arr? && s.items.Some? then
      Arr(seq(|v.items|, i requires 0 <= i < |v.items| => Strip(v.items[i], s.items.value)))
    else v
  }

  // ---- The rewrites as the code runs them: one property or item at a time ------------------

  /** addAdditionalPropertiesFalse */
  method CodexInPlace(s: Schema) returns (rewritten: Schema)
    ensures rewritten == Codex(s)
    decreases s
  {
    hide AllowNull, CloseAdditional;
    if s.Any? { return s; }
    rewritten := s.(additional := CloseAdditional(s));
    if s.properties.Declares? {
      var all := s.properties.value;
      if IsObjectTyped(s) { rewritten := rewritten.(required := all.Keys); }
      var properties, names := all, all.Keys;
      while names != {}
        invariant names <= all.Keys && properties.Keys == all.Keys
        invariant forall k | k in all :: properties[k] == if k in names then all[k] else Codex(s).properties.value[k]
        decreases |names|
      {
        var name :| name in names;
        var property := CodexInPlace(all[name]);
        properties := properties[name := if name in s.required then property else AllowNull(property)];
        names := names - {name};
      }
      SameMaps(properties, Codex(s).properties.value);
      rewritten := rewritten.(properties := Declares(properties));
    }
    if s.items.Some? {
      var items := CodexInPlace(s.items.value);
      rewritten := rewritten.(items := Some(items));
    }
  }

  /** allowOptionalSchemaNulls */
  method OptionalInPlace(s: Schema) returns (rewritten: Schema)
    ensures rewritten == Optional(s)
    decreases s
  {
    hide AllowNull, CloseAdditional;
    if s.Any? { return s; }
    rewritten := s;
    if s.properties.Declares? {
      var all := s.properties.value;
      var properties, names := all, all.Keys;
      while names != {}
        invariant names <= all.Keys && properties.Keys == all.Keys
        invariant forall k | k in all :: properties[k] == if k in names then all[k] else Optional(s).properties.value[k]
        decreases |names|
      {
        var name :| name in names;
        var property := OptionalInPlace(all[name]);
        properties := properties[name := if name in s.required then property else AllowNull(property)];
        names := names - {name};
      }
      SameMaps(properties, Optional(s).properties.value);
      rewritten := rewritten.(properties := Declares(properties));
    }
    if s.items.Some? {
      var items := OptionalInPlace(s.items.value);
      rewritten := rewritten.(items := Some(items));
    }
  }

  /** codexFillNullableFields; changed is false exactly when the answer was already complete. */
  method FillInPlace(v: Json, s: Schema) returns (filled: Json, changed: bool)
    ensures filled == Fill(v, s)
    ensures changed <==> filled != v
    decreases s, 2
  {
    if s.Node? && v.Obj? && s.properties.Declares? {
      var fields;
      fields, changed := FillFields(v.fields, s);
      filled := Obj(fields);
    } else if s.Node? && v.Arr? && s.items.Some? {
      var items;
      items, changed := FillItems(v.items, s);
      filled := Arr(items);
    } else {
      filled, changed := v, false;
    }
  }

  lemma FieldsOfFill(given: map<string, Json>, s: Schema)
    requires s.Node? && s.properties.Declares?
    ensures Fill(Obj(given), s).Obj?
    ensures var target := Fill(Obj(given), s).fields;
            target.Keys == given.Keys + (s.properties.value.Keys - s.required) &&
            forall k | k in target :: target[k] ==
              if k !in given then Null
              else if k in s.properties.value && given[k] != Null then Fill(given[k], s.properties.value[k])
              else given[k]
  {}

  method FillField(fields: map<string, Json>, name: string, s: Schema) returns (next: map<string, Json>, added: bool)
    requires s.Node? && s.properties.Declares? && name in s.properties.value
    ensures next ==
      if name !in fields then (if name in s.required then fields else fields[name := Null])
      else if fields[name] == Null then fields
      else fields[name := Fill(fields[name], s.properties.value[name])]
    ensures added <==> next != fields
    ensures added ==> name in next && (name in fields ==> next[name] != fields[name])
    decreases s, 0
  {
    hide Fill;
    next, added := fields, false;
    if name !in fields {
      if name !in s.required { next, added := fields[name := Null], true; }
    } else if fields[name] != Null {
      var child, deeper := FillInPlace(fields[name], s.properties.value[name]);
      next, added := fields[name := child], deeper;
    }
  }

  /** The pending names are as given, all others as in the result. */
  ghost predicate PartlyFilled(given: map<string, Json>, fields: map<string, Json>, target: map<string, Json>,
                               names: set<string>)
  {
    forall k: string ::
      if k in names then (k in fields <==> k in given) && (k in given ==> fields[k] == given[k])
      else (k in fields <==> k in target) && (k in target ==> fields[k] == target[k])
  }

  lemma OneMoreFilled(given: map<string, Json>, fields: map<string, Json>, target: map<string, Json>,
                      names: set<string>, name: string, next: map<string, Json>)
    requires PartlyFilled(given, fields, target, names) && name in names
    requires (name in next <==> name in target) && (name in target ==> next[name] == target[name])
    requires forall k: string | k != name :: (k in next <==> k in fields) && (k in fields ==> next[k] == fields[k])
    ensures PartlyFilled(given, next, target, names - {name})
    ensures (exists k :: k in fields && (k !in given || fields[k] != given[k])) ==>
      exists k :: k in next && (k !in given || next[k] != given[k])
  {
    if k :| k in fields && (k !in given || fields[k] != given[k]) {
      assert k in next && next[k] == fields[k];
    }
  }

  method FillFields(given: map<string, Json>, s: Schema) returns (fields: map<string, Json>, changed: bool)
    requires s.Node? && s.properties.Declares?
    ensures fields == Fill(Obj(given), s).fields
    ensures changed <==> fields != given
    decreases s, 1
  {
    hide Fill;
    FieldsOfFill(given, s);
    ghost var target := Fill(Obj(given), s).fields;
    var all := s.properties.value;
    var names := all.Keys;
    fields, changed := given, false;
    while names != {}
      invariant names <= all.Keys
      invariant PartlyFilled(given, fields, target, names)
      invariant changed ==> exists k :: k in fields && (k !in given || fields[k] != given[k])
      invariant !changed ==> fields == given
      decreases |names|
    {
      var name :| name in names;
      var next, added := FillField(fields, name, s);
      OneMoreFilled(given, fields, target, names, name, next);
      fields, changed := next, changed || added;
      names := names - {name};
    }
    assert fields.Keys == target.Keys;
    SameMaps(fields, target);
  }

  method FillItems(given: seq<Json>, s: Schema) returns (items: seq<Json>, changed: bool)
    requires s.Node? && s.items.Some?
    ensures items == Fill(Arr(given), s).items
    ensures changed <==> items != given
    decreases s, 0
  {
    items, changed := given, false;
    for i := 0 to |given|
      invariant |items| == |given|
      invariant forall k | 0 <= k < |items| :: items[k] == if k < i then Fill(given[k], s.items.value) else given[k]
      invariant changed <==> items != given
    {
      var item, deeper := FillInPlace(given[i], s.items.value);
      ghost var before := items;
      items := items[i := item];
      if deeper {
        assert items[i] != given[i];
        changed := true;
      } else {
        assert items == before;
      }
    }
  }

  // ---- What a schema must satisfy for the rewrites to agree -----------------------------

  /** Filling has nothing to add to the value, and did not have to: no optional declared property is absent or null. */
  predicate Complete(v: Json, s: Schema)
    decreases s
  {
    s.Node? ==>
      (v.Obj? && s.properties.Declares? ==>
        s.properties.value.Keys - s.required <= v.fields.Keys &&
        forall k | k in s.properties.value && k in v.fields ::
          Complete(v.fields[k], s.properties.value[k]) && (k !in s.required ==> v.fields[k] != Null)) &&
      (v.Arr? && s.items.Some? ==> forall i | 0 <= i < |v.items| :: Complete(v.items[i], s.items.value))
  }

  /** Enums list complete values only; every scalar is one. */
  predicate Plain(s: Schema) {
    s.Node? ==>
      (s.enum.Some? ==> forall e | e in s.enum.value :: Complete(e, s)) &&
      (s.properties.Declares? ==> forall k | k in s.properties.value :: Plain(s.properties.value[k])) &&
      (s.items.Some? ==> Plain(s.items.value))
  }

  /** A complete value is what filling makes of itself and of nothing else. */
  lemma {:induction false} OnlyItselfFills(v: Json, e: Json, s: Schema)
    requires Complete(e, s)
    ensures Fill(v, s) == e <==> v == e
    decreases s
  {
    if s.Node? && s.properties.Declares? && v.Obj? && e.Obj? {
      forall k | k in v.fields && k in e.fields && k in s.properties.value
        ensures Fill(v.fields[k], s.properties.value[k]) == e.fields[k] <==> v.fields[k] == e.fields[k]
      {
        OnlyItselfFills(v.fields[k], e.fields[k], s.properties.value[k]);
      }
      FilledFields(v.fields, e.fields, s);
    } else if s.Node? && s.items.Some? && v.Arr? && e.Arr? && |v.items| == |e.items| {
      forall i | 0 <= i < |v.items|
        ensures Fill(v.items[i], s.items.value) == e.items[i] <==> v.items[i] == e.items[i]
      {
        OnlyItselfFills(v.items[i], e.items[i], s.items.value);
      }
      if Fill(v, s) == e {
        forall i | 0 <= i < |v.items| ensures v.items[i] == e.items[i] { assert Fill(v, s).items[i] == e.items[i]; }
        assert v.items == e.items;
      }
      if v == e { assert Fill(v, s).items == e.items; }
    }
  }

  lemma FilledFields(given: map<string, Json>, listed: map<string, Json>, s: Schema)
    requires s.Node? && s.properties.Declares? && Complete(Obj(listed), s)
    requires forall k | k in given && k in listed && k in s.properties.value ::
      Fill(given[k], s.properties.value[k]) == listed[k] <==> given[k] == listed[k]
    ensures Fill(Obj(given), s) == Obj(listed) <==> given == listed
  {
    hide Fill, Complete;
    FieldsOfFill(given, s);
    CompleteFields(listed, s);
    var target := Fill(Obj(given), s).fields;
    if target == listed {
      forall k | k in listed ensures k in given && given[k] == listed[k] {}
      assert given.Keys == listed.Keys;
    }
    if given == listed {
      forall k | k in target ensures target[k] == given[k] {}
      assert target.Keys == given.Keys;
    }
  }

  lemma CompleteFields(listed: map<string, Json>, s: Schema)
    requires s.Node? && s.properties.Declares? && Complete(Obj(listed), s)
    ensures s.properties.value.Keys - s.required <= listed.Keys
    ensures forall k | k in s.properties.value && k in listed && k !in s.required :: listed[k] != Null
  {}

  lemma {:induction false} CompleteIsStripped(e: Json, s: Schema)
    requires Complete(e, s)
    ensures Strip(e, s) == e
    decreases s
  {
    if s.Node? && e.Obj? && s.properties.Declares? {
      forall k | k in e.fields && k in s.properties.value
        ensures Strip(e.fields[k], s.properties.value[k]) == e.fields[k]
      {
        CompleteIsStripped(e.fields[k], s.properties.value[k]);
      }
      assert Strip(e, s).fields == e.fields;
    } else if s.Node? && e.Arr? && s.items.Some? {
      forall i | 0 <= i < |e.items| ensures Strip(e.items[i], s.items.value) == e.items[i] {
        CompleteIsStripped(e.items[i], s.items.value);
      }
      assert Strip(e, s).items == e.items;
    }
  }

  lemma {:induction false} CompleteSeesDeclaredOnly(e: Json, s: Schema)
    ensures Complete(e, s) ==> Complete(e, Declare(s))
    decreases s
  {
    if s.Node? {
      if e.Obj? && s.properties.Declares? {
        forall k | k in s.properties.value && k in e.fields
          ensures Complete(e.fields[k], s.properties.value[k]) ==> Complete(e.fields[k], Declare(s.properties.value[k]))
        {
          CompleteSeesDeclaredOnly(e.fields[k], s.properties.value[k]);
        }
      }
      if e.Arr? && s.items.Some? {
        forall i | 0 <= i < |e.items|
          ensures Complete(e.items[i], s.items.value) ==> Complete(e.items[i], Declare(s.items.value))
        {
          CompleteSeesDeclaredOnly(e.items[i], s.items.value);
        }
      }
    }
  }

  /** A list of no types, which the validator reads as no restriction. */
  predicate Untyped(s: Schema) { s.Node? && s.types == Many([]) }

  /** No optional property has an empty type list. */
  predicate Typed(s: Schema) {
    s.Node? ==>
      (s.properties.Declares? ==> forall k | k in s.properties.value ::
        Typed(s.properties.value[k]) && (k !in s.required ==> !Untyped(s.properties.value[k]))) &&
      (s.items.Some? ==> Typed(s.items.value))
  }

  /** Nothing but null sits at an optional property with an empty type list. */
  predicate NullWhereUntyped(v: Json, s: Schema)
    decreases s
  {
    s.Node? ==>
      (v.Obj? && s.properties.Declares? ==> forall k | k in s.properties.value && k in v.fields ::
        NullWhereUntyped(v.fields[k], s.properties.value[k]) &&
        (k !in s.required && Untyped(s.properties.value[k]) ==> v.fields[k] == Null)) &&
      (v.Arr? && s.items.Some? ==> forall i | 0 <= i < |v.items| :: NullWhereUntyped(v.items[i], s.items.value))
  }

  lemma {:induction false} TypedHasNone(v: Json, s: Schema)
    requires Typed(s)
    ensures NullWhereUntyped(v, s)
    decreases s
  {
    if s.Node? {
      if v.Obj? && s.properties.Declares? {
        forall k | k in s.properties.value && k in v.fields
          ensures NullWhereUntyped(v.fields[k], s.properties.value[k])
        {
          TypedHasNone(v.fields[k], s.properties.value[k]);
        }
      }
      if v.Arr? && s.items.Some? {
        forall i | 0 <= i < |v.items|
          ensures NullWhereUntyped(v.items[i], s.items.value)
        {
          TypedHasNone(v.items[i], s.items.value);
        }
      }
    }
  }

  /** An object-typed node requires only properties it declares. */
  predicate Declared(s: Schema) {
    s.Node? ==>
      (IsObjectTyped(s) && s.properties.Declares? ==> s.required <= s.properties.value.Keys) &&
      (s.properties.Declares? ==> forall k | k in s.properties.value :: Declared(s.properties.value[k])) &&
      (s.items.Some? ==> Declared(s.items.value))
  }

  /** The requirements the codex rewrite can see: at an object-typed node, only those on declared properties. */
  function Declare(s: Schema): Schema {
    if s.Any? then s
    else s.(required := if IsObjectTyped(s) && s.properties.Declares? then s.required * s.properties.value.Keys
            else s.required,
            properties := if s.properties.Absent? then Absent
              else Declares(map k | k in s.properties.value :: Declare(s.properties.value[k])),
            items := if s.items.None? then None else Some(Declare(s.items.value)))
  }

  // ---- Null widening ---------------------------------------------------------------------

  /** A widened schema accepts null and exactly what it accepted before - except that a list of no types, which
      accepted everything, becomes a list of null alone. */
  lemma AllowNullExact(v: Json, s: Schema)
    ensures Conforms(v, AllowNull(s)) <==> v == Null || (Conforms(v, s) && !Untyped(s))
  {
    if s.Node? {
      var w := AllowNull(s);
      assert MatchesEnum(v, w.enum) <==> v == Null || MatchesEnum(v, s.enum) || (s.enum.Some? && v == Null);
      assert MatchesTypes(v, w.types) <==> v == Null || (MatchesTypes(v, s.types) && !Untyped(s)) by {
        match s.types {
          case One(name) => if name != "null" { assert name in w.types.names && "null" in w.types.names; }
          case Many(names) =>
            if "null" !in names {
              assert forall n :: n in w.types.names <==> n in names || n == "null";
              assert "null" in w.types.names;
            }
          case NoType =>
        }
      }
    }
  }

  lemma AllowNullTwice(s: Schema)
    ensures AllowNull(AllowNull(s)) == AllowNull(s)
  {
    if s.Node? && s.types.Many? && "null" !in s.types.names {
      assert (s.types.names + ["null"])[|s.types.names|] == "null";
    }
  }

  lemma OptionalCommutes(s: Schema)
    ensures Optional(AllowNull(s)) == AllowNull(Optional(s))
  {}

  /** Widening twice is widening once. */
  lemma {:induction false} OptionalTwice(s: Schema)
    ensures Optional(Optional(s)) == Optional(s)
  {
    if s.Node? {
      if s.properties.Declares? {
        forall k | k in s.properties.value
          ensures Optional(Optional(s)).properties.value[k] == Optional(s).properties.value[k]
        {
          var p := s.properties.value[k];
          OptionalTwice(p);
          OptionalCommutes(Optional(p));
          AllowNullTwice(Optional(p));
        }
        assert Optional(Optional(s)).properties.value == Optional(s).properties.value;
      }
      if s.items.Some? { OptionalTwice(s.items.value); }
    }
  }

  /** The codex rewrite already contains the widening. */
  lemma {:induction false} CodexAbsorbsOptional(s: Schema)
    ensures Optional(Codex(s)) == Codex(s)
  {
    if s.Node? {
      if s.properties.Declares? {
        forall k | k in s.properties.value
          ensures Optional(Codex(s)).properties.value[k] == Codex(s).properties.value[k]
        {
          var p := s.properties.value[k];
          CodexAbsorbsOptional(p);
          OptionalCommutes(Codex(p));
          AllowNullTwice(Codex(p));
        }
        assert Optional(Codex(s)).properties.value == Codex(s).properties.value;
      }
      if s.items.Some? { CodexAbsorbsOptional(s.items.value); }
    }
  }

  /** A value that conforms to a schema conforms to its widening exactly when nothing but null sits where an optional
      property has an empty type list; so of a schema without such properties the widening accepts all of it. */
  lemma {:induction false} OptionalAccepts(v: Json, s: Schema)
    requires Conforms(v, s)
    ensures Conforms(v, Optional(s)) <==> NullWhereUntyped(v, s)
    ensures Typed(s) ==> Conforms(v, Optional(s))
    decreases s
  {
    if Typed(s) { TypedHasNone(v, s); }
    if s.Node? {
      if v.Obj? && s.properties.Declares? {
        forall k | k in s.properties.value && k in v.fields
          ensures Conforms(v.fields[k], Optional(s).properties.value[k]) <==>
                  NullWhereUntyped(v.fields[k], s.properties.value[k]) &&
                  (k !in s.required && Untyped(s.properties.value[k]) ==> v.fields[k] == Null)
        {
          var p := s.properties.value[k];
          OptionalAccepts(v.fields[k], p);
          AllowNullExact(v.fields[k], Optional(p));
          if v.fields[k] == Null { assert NullWhereUntyped(Null, p); }
        }
      }
      if v.Arr? && s.items.Some? {
        forall i | 0 <= i < |v.items|
          ensures Conforms(v.items[i], Optional(s.items.value)) <==> NullWhereUntyped(v.items[i], s.items.value)
        {
          OptionalAccepts(v.items[i], s.items.value);
        }
      }
    }
  }

  /** Whatever conforms to the widening conforms to the schema once null optional fields are gone. */
  lemma {:induction false} StrippedConforms(v: Json, s: Schema)
    requires Plain(s) && Conforms(v, Optional(s))
    ensures Conforms(Strip(v, s), s)
    decreases s
  {
    if s.Node? {
      if s.enum.Some? && v in s.enum.value { CompleteIsStripped(v, s); }
      if v.Obj? && s.properties.Declares? {
        var t := Strip(v, s);
        forall k | k in s.properties.value && k in t.fields ensures Conforms(t.fields[k], s.properties.value[k]) {
          var p := s.properties.value[k];
          AllowNullExact(v.fields[k], Optional(p));
          assert Conforms(v.fields[k], Optional(s).properties.value[k]);
          StrippedConforms(v.fields[k], p);
        }
      } else if v.Arr? && s.items.Some? {
        forall i | 0 <= i < |v.items| ensures Conforms(Strip(v.items[i], s.items.value), s.items.value) {
          assert Conforms(v.items[i], Optional(s).items.value);
          StrippedConforms(v.items[i], s.items.value);
        }
      }
    }
  }

  // ---- The codex rewrite -------------------------------------------------------------------

  /** Filling adds exactly the absent optional properties, so a required field is never supplied. */
  lemma FillSuppliesOptionalOnly(v: Json, s: Schema)
    requires v.Obj? && s.Node? && s.properties.Declares?
    ensures Fill(v, s).Obj? && Fill(v, s).fields.Keys == v.fields.Keys + (s.properties.value.Keys - s.required)
    ensures forall k | k in Fill(v, s).fields && k !in v.fields :: Fill(v, s).fields[k] == Null && k !in s.required
  {}

  lemma FillKeepsKind(v: Json, s: Schema)
    requires Plain(s)
    ensures s.Node? ==> (MatchesTypes(Fill(v, s), s.types) <==> MatchesTypes(v, s.types))
    ensures s.Node? ==> (MatchesEnum(Fill(v, s), s.enum) <==> MatchesEnum(v, s.enum))
    ensures Fill(v, s).Obj? <==> v.Obj?
    ensures Fill(v, s).Arr? <==> v.Arr?
    ensures v.Obj? || v.Arr? || Fill(v, s) == v
  {
    if s.Node? && s.enum.Some? {
      forall e | e in s.enum.value ensures Fill(v, s) == e <==> v == e { OnlyItselfFills(v, e, s); }
    }
    if s.Node? && s.types.Many? {
      forall name | name in s.types.names ensures MatchesType(Fill(v, s), name) <==> MatchesType(v, name) {}
    }
  }

  lemma PropertyMeaning(v: Json, s: Schema, k: string)
    requires s.Node? && s.properties.Declares? && k in s.properties.value && Plain(s)
    requires Conforms(Fill(v, s.properties.value[k]), Codex(s.properties.value[k])) <==>
      Conforms(v, Optional(Close(s.properties.value[k])))
    ensures Conforms(Fill(v, s.properties.value[k]), Codex(s).properties.value[k]) <==>
      Conforms(v, Optional(Close(s)).properties.value[k])
  {
    var p := s.properties.value[k];
    FillKeepsKind(v, p);
    AllowNullExact(Fill(v, p), Codex(p));
    AllowNullExact(v, Optional(Close(p)));
  }

  lemma ObjectMeaning(v: Json, s: Schema)
    requires v.Obj? && s.Node? && s.properties.Declares? && Plain(s) && Declared(s)
    requires forall k | k in s.properties.value && k in v.fields ::
      Conforms(Fill(v.fields[k], s.properties.value[k]), Codex(s).properties.value[k]) <==>
        Conforms(v.fields[k], Optional(Close(s)).properties.value[k])
    ensures Conforms(Fill(v, s), Codex(s)) <==> Conforms(v, Optional(Close(s)))
  {
    var f, c, o := Fill(v, s), Codex(s), Optional(Close(s));
    FillKeepsKind(v, s);
    FillSuppliesOptionalOnly(v, s);
    assert c.required <= f.fields.Keys <==> s.required <= v.fields.Keys by {
      if s.required <= v.fields.Keys {
        forall k | k in c.required ensures k in f.fields.Keys {}
      } else {
        var k :| k in s.required && k !in v.fields.Keys;
        assert k !in f.fields.Keys && k in c.required;
      }
    }
    assert f.fields.Keys <= c.properties.value.Keys <==> v.fields.Keys <= o.properties.value.Keys;
    forall k | k in c.properties.value && k in f.fields && k !in v.fields
      ensures Conforms(f.fields[k], c.properties.value[k])
    {
      NullConforms(Codex(s.properties.value[k]));
    }
    forall k | k in c.properties.value && k in v.fields
      ensures f.fields[k] == Fill(v.fields[k], s.properties.value[k])
    {
      if v.fields[k] == Null { FillKeepsKind(Null, s.properties.value[k]); }
    }
  }

  lemma NullConforms(s: Schema)
    ensures Conforms(Null, AllowNull(s))
  {
    if s.Node? {
      match s.types {
        case One(name) => if name != "null" { assert "null" in AllowNull(s).types.names; }
        case Many(names) => assert "null" in AllowNull(s).types.names;
        case NoType =>
      }
    }
  }

  lemma {:induction false} DeclaredMeaning(v: Json, s: Schema)
    requires Plain(s) && Declared(s)
    ensures Conforms(Fill(v, s), Codex(s)) <==> Conforms(v, Optional(Close(s)))
    decreases s
  {
    if s.Node? {
      if v.Obj? && s.properties.Declares? {
        forall k | k in s.properties.value && k in v.fields
          ensures Conforms(Fill(v.fields[k], s.properties.value[k]), Codex(s).properties.value[k]) <==>
            Conforms(v.fields[k], Optional(Close(s)).properties.value[k])
        {
          DeclaredMeaning(v.fields[k], s.properties.value[k]);
          PropertyMeaning(v.fields[k], s, k);
        }
        ObjectMeaning(v, s);
      } else if v.Arr? && s.items.Some? {
        FillKeepsKind(v, s);
        forall i | 0 <= i < |v.items|
          ensures Conforms(Fill(v, s).items[i], Codex(s).items.value) <==>
            Conforms(v.items[i], Optional(Close(s)).items.value)
        {
          DeclaredMeaning(v.items[i], s.items.value);
        }
      } else {
        FillKeepsKind(v, s);
      }
    }
  }

  lemma {:induction false} DeclareIsDeclared(s: Schema)
    ensures Declared(Declare(s)) && (Plain(s) ==> Plain(Declare(s)))
  {
    if s.Node? {
      if s.enum.Some? {
        forall e | e in s.enum.value
          ensures Complete(e, s) ==> Complete(e, Declare(s))
        {
          CompleteSeesDeclaredOnly(e, s);
        }
      }
      if s.properties.Declares? {
        forall k | k in s.properties.value
          ensures Declared(Declare(s.properties.value[k])) &&
                  (Plain(s.properties.value[k]) ==> Plain(Declare(s.properties.value[k])))
        {
          DeclareIsDeclared(s.properties.value[k]);
        }
      }
      if s.items.Some? { DeclareIsDeclared(s.items.value); }
    }
  }

  /** The codex rewrite cannot see a requirement on an undeclared property. */
  lemma {:induction false} CodexSeesDeclaredOnly(s: Schema)
    ensures Codex(Declare(s)) == Codex(s)
  {
    if s.Node? {
      if s.properties.Declares? {
        forall k | k in s.properties.value
          ensures Codex(Declare(s)).properties.value[k] == Codex(s).properties.value[k]
        {
          CodexSeesDeclaredOnly(s.properties.value[k]);
        }
        assert Codex(Declare(s)).properties.value == Codex(s).properties.value;
      }
      if s.items.Some? { CodexSeesDeclaredOnly(s.items.value); }
    }
  }

  lemma {:induction false} FillSeesDeclaredOnly(v: Json, s: Schema)
    ensures Fill(v, Declare(s)) == Fill(v, s)
    decreases s
  {
    if s.Node? {
      var d := Declare(s);
      if v.Obj? && s.properties.Declares? {
        assert d.properties.value.Keys == s.properties.value.Keys;
        assert s.properties.value.Keys - d.required == s.properties.value.Keys - s.required;
        forall k | k in v.fields && k in s.properties.value
          ensures Fill(v.fields[k], d.properties.value[k]) == Fill(v.fields[k], s.properties.value[k])
        {
          FillSeesDeclaredOnly(v.fields[k], s.properties.value[k]);
        }
        assert Fill(v, d).fields == Fill(v, s).fields;
      } else if v.Arr? && s.items.Some? {
        forall i | 0 <= i < |v.items| ensures Fill(v.items[i], d.items.value) == Fill(v.items[i], s.items.value) {
          FillSeesDeclaredOnly(v.items[i], s.items.value);
        }
        assert Fill(v, d).items == Fill(v, s).items;
      }
    }
  }

  /** What the codex rewrite means, for every plain schema: an answer given under the rewritten schema, with the
      optional fields filled in, conforms exactly when the answer conforms to the closed, widened schema less its
      requirements on undeclared properties. */
  lemma CodexMeaning(v: Json, s: Schema)
    requires Plain(s)
    ensures Conforms(Fill(v, s), Codex(s)) <==> Conforms(v, Optional(Close(Declare(s))))
  {
    hide Plain, Declared, Conforms, Fill, Codex, Optional, Close, Declare;
    DeclareIsDeclared(s);
    CodexSeesDeclaredOnly(s);
    FillSeesDeclaredOnly(v, s);
    DeclaredMeaning(v, Declare(s));
  }

  /** An enum that lists an incomplete object is outside of this: filling changes the answer, which is then no longer
      listed. */
  lemma ObjectEnumFails()
    ensures var s := Node(NoType, Some([Obj(map[])]), {}, Declares(map["a" := Any]), None, NotStated);
            var v := Obj(map[]);
            !Plain(s) && Conforms(v, Optional(Close(s))) && !Conforms(Fill(v, s), Codex(s))
  {
    var s := Node(NoType, Some([Obj(map[])]), {}, Declares(map["a" := Any]), None, NotStated);
    assert "a" in s.properties.value.Keys - s.required && "a" !in Obj(map[]).fields.Keys;
    assert !Complete(s.enum.value[0], s) && s.enum.value[0] in s.enum.value;
    assert "a" in Fill(Obj(map[]), s).fields;
  }

  /** So the rewrite keeps its meaning wherever object types require only what they declare. */
  lemma {:induction false} CodexKeepsMeaning(v: Json, s: Schema)
    requires Plain(s) && Declared(s)
    ensures Declare(s) == s
    ensures Conforms(Fill(v, s), Codex(s)) <==> Conforms(v, Optional(Close(s)))
  {
    DeclaredIsDeclare(s);
    CodexMeaning(v, s);
  }

  lemma {:induction false} DeclaredIsDeclare(s: Schema)
    ensures Declared(s) <==> Declare(s) == s
  {
    if s.Node? {
      if s.properties.Declares? {
        forall k | k in s.properties.value
          ensures Declared(s.properties.value[k]) <==> Declare(s).properties.value[k] == s.properties.value[k]
        {
          DeclaredIsDeclare(s.properties.value[k]);
        }
        SameMaps(Declare(s).properties.value, s.properties.value);
      }
      if s.items.Some? { DeclaredIsDeclare(s.items.value); }
    }
  }

  /** A requirement that is lost: b is required but not declared, and an answer without b passes the codex schema
      although the widened one refuses it. */
  lemma UndeclaredRequirementIsLost()
    ensures var s := Node(One("object"), None, {"b"}, Declares(map["a" := Any]), None, NotStated);
            var v := Obj(map["a" := Null]);
            Plain(s) && !Declared(s) && Conforms(Fill(v, s), Codex(s)) && !Conforms(v, Optional(Close(s)))
  {}

  // ---- Order of the two rewrites ---------------------------------------------------------------

  /** An object type the codex rewrite would leave as it is. */
  predicate Settled(p: Schema)
    requires p.Node?
  {
    p.additional != NotStated && (p.properties.Declares? ==> p.required == p.properties.value.Keys)
  }

  /** Every optional property that is an object type already is as the codex rewrite would make it. */
  predicate OrderFree(s: Schema) {
    s.Node? ==>
      (s.properties.Declares? ==> forall k | k in s.properties.value ::
        OrderFree(s.properties.value[k]) &&
        (k !in s.required && IsObjectTyped(s.properties.value[k]) ==> Settled(s.properties.value[k]))) &&
      (s.items.Some? ==> OrderFree(s.items.value))
  }

  /** Widening changes type and enum only, and both schemas here share those. */
  lemma WideningTellsApart(a: Schema, b: Schema)
    requires a.Node? && b.Node? && a.types == b.types && a.enum == b.enum
    ensures AllowNull(a) == AllowNull(b) <==> a == b
  {}

  lemma WidenedObject(p: Schema)
    requires IsObjectTyped(p)
    ensures AllowNull(Codex(AllowNull(Optional(p)))) == AllowNull(Codex(p)) <==>
      Codex(Optional(p)) == Codex(p) && Settled(p)
  {
    var q := Optional(p);
    var w := Codex(AllowNull(q));
    assert q.properties.Declares? ==> q.properties.value.Keys == p.properties.value.Keys;
    assert w.properties == Codex(q).properties && w.items == Codex(q).items && w.additional == p.additional &&
           w.required == p.required;
    WideningTellsApart(Codex(q), Codex(p));
    WideningTellsApart(Codex(q).(additional := p.additional, required := p.required), Codex(p));
    AllowNullTwice(Codex(q).(additional := p.additional, required := p.required));
    assert w == AllowNull(Codex(q).(additional := p.additional, required := p.required));
  }

  lemma CodexOfWidened(q: Schema)
    requires q.Node? && !IsObjectTyped(q)
    ensures Codex(AllowNull(q)) == AllowNull(Codex(q))
  {}

  lemma RewritesKeepTop(s: Schema)
    requires s.Node?
    ensures Codex(s).Node? && Codex(s).types == s.types && Codex(s).enum == s.enum
    ensures Optional(s).Node? && Optional(s).types == s.types && Optional(s).enum == s.enum
  {}

  lemma WidenedOther(p: Schema)
    requires p.Node? && !IsObjectTyped(p)
    ensures AllowNull(Codex(AllowNull(Optional(p)))) == AllowNull(Codex(p)) <==> Codex(Optional(p)) == Codex(p)
  {
    hide Codex, AllowNull, Optional;
    var q := Optional(p);
    RewritesKeepTop(p);
    RewritesKeepTop(q);
    WideningTellsApart(Codex(q), Codex(p));
    CodexOfWidened(q);
    AllowNullTwice(Codex(q));
  }

  /** Widening first and rewriting for codex second gives the same schema exactly when no optional
      object type still has to be closed: the widened type is a list, which the rewrite passes over. */
  lemma {:induction false} WidenThenCodex(s: Schema)
    ensures Codex(Optional(s)) == Codex(s) <==> OrderFree(s)
  {
    if s.Node? {
      if s.properties.Declares? {
        forall k | k in s.properties.value ensures PropertyAgrees(s, k) <==> PropertyFree(s, k) {
          var p := s.properties.value[k];
          WidenThenCodex(p);
          if IsObjectTyped(p) { WidenedObject(p); } else if p.Node? { WidenedOther(p); }
        }
        PropertiesAgree(s);
      }
      if s.items.Some? { WidenThenCodex(s.items.value); }
    }
  }

  /** Where the order shows: an optional object property stays open if it was widened first. */
  lemma OrderMatters()
    ensures var open := Node(One("object"), None, {}, Absent, None, NotStated);
            var s := Node(One("object"), None, {}, Declares(map["a" := open]), None, NotStated);
            var v := Obj(map["a" := Obj(map["x" := Null])]);
            !OrderFree(s) && Codex(Optional(s)) != Codex(s) && Conforms(v, Codex(Optional(s))) && !Conforms(v, Codex(s))
  {
    var open := Node(One("object"), None, {}, Absent, None, NotStated);
    var s := Node(One("object"), None, {}, Declares(map["a" := open]), None, NotStated);
    var inner := Obj(map["x" := Null]);
    assert !PropertyFree(s, "a");
    assert Optional(s).properties.value["a"] == AllowNull(open);
    assert Codex(Optional(s)).properties.value["a"] == AllowNull(AllowNull(open));
    AllowNullTwice(open);
    AllowNullExact(inner, open);
    assert Codex(s).properties.value["a"] == AllowNull(Codex(open));
    AllowNullExact(inner, Codex(open));
    assert "x" in inner.fields.Keys && Known(Codex(open)) == {};
    assert Conforms(inner, AllowNull(open)) && !Conforms(inner, AllowNull(Codex(open)));
  }

  predicate PropertyAgrees(s: Schema, k: string)
    requires s.Node? && s.properties.Declares? && k in s.properties.value
  { Codex(Optional(s)).properties.value[k] == Codex(s).properties.value[k] }

  predicate PropertyFree(s: Schema, k: string)
    requires s.Node? && s.properties.Declares? && k in s.properties.value
  {
    OrderFree(s.properties.value[k]) &&
    (k !in s.required && IsObjectTyped(s.properties.value[k]) ==> Settled(s.properties.value[k]))
  }

  lemma SameMaps<V>(a: map<string, V>, b: map<string, V>)
    requires a.Keys == b.Keys
    ensures a == b <==> forall k | k in a :: a[k] == b[k]
  {
    assert forall k :: k in a <==> k in a.Keys;
    assert forall k :: k in b <==> k in b.Keys;
  }

  lemma PropertiesAgree(s: Schema)
    requires s.Node? && s.properties.Declares?
    ensures Codex(Optional(s)).properties == Codex(s).properties <==>
      forall k | k in s.properties.value :: PropertyAgrees(s, k)
  {
    hide AllowNull, CloseAdditional;
    var left, right := Codex(Optional(s)).properties.value, Codex(s).properties.value;
    assert left.Keys == s.properties.value.Keys && right.Keys == s.properties.value.Keys;
    SameMaps(left, right);
    assert forall k :: k in left <==> k in s.properties.value;
  }

  // ---- The strict tool schema ---------------------------------------------------------------------

  /** No object in the value has a field the schema forbids. */
  predicate NothingUnknown(v: Json, s: Schema)
    decreases s
  {
    s.Node? ==>
      (v.Obj? ==>
        (s.additional == Allowed(false) ==> v.fields.Keys <= Known(s)) &&
        (s.properties.Declares? ==>
         forall k | k in s.properties.value && k in v.fields :: NothingUnknown(v.fields[k], s.properties.value[k]))) &&
      (v.Arr? && s.items.Some? ==> forall i | 0 <= i < |v.items| :: NothingUnknown(v.items[i], s.items.value))
  }

  /** The strict tool schema drops one check and nothing else. */
  lemma {:induction false} PiStrictWeakens(v: Json, s: Schema)
    ensures Conforms(v, s) <==> Conforms(v, PiStrict(s)) && NothingUnknown(v, s)
    decreases s
  {
    if s.Node? {
      if v.Obj? && s.properties.Declares? {
        forall k | k in s.properties.value && k in v.fields
          ensures Conforms(v.fields[k], s.properties.value[k]) <==>
            Conforms(v.fields[k], PiStrict(s).properties.value[k]) && NothingUnknown(v.fields[k], s.properties.value[k])
        {
          PiStrictWeakens(v.fields[k], s.properties.value[k]);
        }
      }
      if v.Arr? && s.items.Some? {
        forall i | 0 <= i < |v.items|
          ensures Conforms(v.items[i], s.items.value) <==>
            Conforms(v.items[i], PiStrict(s).items.value) && NothingUnknown(v.items[i], s.items.value)
        {
          PiStrictWeakens(v.items[i], s.items.value);
        }
      }
    }
  }
}
