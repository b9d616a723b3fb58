/**
 Structural subtyping of JSON schemas (packages/chord/src/schema.ts) and the coverage check built on it
 (packages/chord/src/contract.ts).

 Validity follows sections 6.1 to 6.5 of JSON Schema Validation 2020-12 and sections 10.2.1.2 and 10.3 of JSON Schema
 Core 2020-12 for the keywords `fits` reasons about; `format` and the annotations (`note`) never affect it. Regular
 expressions are a parameter: `re(p, s)` says whether pattern `p` matches `s`.
 */
module Schemas {
  import opened Streams

  datatype Json = Null | Bool(flag: bool) | Num(number: real) | Str(text: string) | Arr(items: seq<Json>) | Obj(fields: map<string, Json>)

  datatype Kind = NullKind | BooleanKind | NumberKind | IntegerKind | StringKind | ArrayKind | ObjectKind

  type Regex = (string, string) -> bool

  datatype Limits = Limits(
    minLength: Option<nat>, maxLength: Option<nat>, pattern: Option<string>, format: Option<string>,
    minimum: Option<real>, maximum: Option<real>, exclusiveMinimum: Option<real>, exclusiveMaximum: Option<real>,
    multipleOf: Option<real>, minItems: Option<nat>, maxItems: Option<nat>, uniqueItems: Option<bool>,
    minProperties: Option<nat>, maxProperties: Option<nat>)

  datatype Branches = NoBranches | AnyOf(branches: seq<Schema>)

  datatype Properties = NoProperties | Properties(named: map<string, Schema>)

  /** `additionalProperties`: absent, `true`, `false` or a schema. */
  datatype Additional = Unsaid | Open | Closed | Typed(schema: Schema)

  /** How a tuple is written: as an `items` array, or as `prefixItems` with anything or nothing (`items: false`) after. */
  datatype Form = ItemsArray | PrefixOpen | PrefixClosed

  /** `items` and `prefixItems`: absent, one schema, or a tuple's schemas. */
  datatype Items = NoItems | Each(schema: Schema) | Tuple(schemas: seq<Schema>, form: Form)

  datatype Schema = Schema(note: string, types: Option<seq<Kind>>, constant: Option<Json>, enumerated: Option<seq<Json>>,
                           anyOf: Branches, properties: Properties, required: seq<string>, additional: Additional,
                           items: Items, limits: Limits)
  {
    function Named(): map<string, Schema> {
      if properties.NoProperties? then map[] else properties.named
    }

    /** `withoutAnnotations`: only at the top. */
    function Bare(): Schema {
      this.(note := "")
    }

    predicate Pinned() {
      constant.Some? || enumerated.Some?
    }
  }

  const Unlimited: Limits :=
    Limits(None, None, None, None, None, None, None, None, None, None, None, None, None, None)

  const Anything: Schema :=
    Schema("", None, None, None, NoBranches, NoProperties, [], Unsaid, NoItems, Unlimited)

  // Validity

  predicate HasKind(v: Json, kind: Kind) {
    match kind
    case NullKind => v.Null?
    case BooleanKind => v.Bool?
    case NumberKind => v.Num?
    case IntegerKind => v.Num? && v.number.Floor as real == v.number
    case StringKind => v.Str?
    case ArrayKind => v.Arr?
    case ObjectKind => v.Obj?
  }

  predicate Within(re: Regex, l: Limits, v: Json) {
    match v
    case Str(s) =>
      && (l.minLength.Some? ==> l.minLength.value <= |s|) && (l.maxLength.Some? ==> |s| <= l.maxLength.value)
      && (l.pattern.Some? ==> re(l.pattern.value, s))
    case Num(n) =>
      && (l.minimum.Some? ==> l.minimum.value <= n) && (l.maximum.Some? ==> n <= l.maximum.value)
      && (l.exclusiveMinimum.Some? ==> l.exclusiveMinimum.value < n)
      && (l.exclusiveMaximum.Some? ==> n < l.exclusiveMaximum.value)
      && (l.multipleOf.Some? && l.multipleOf.value > 0.0 ==>
            (n / l.multipleOf.value).Floor as real == n / l.multipleOf.value)
    case Arr(items) =>
      && (l.minItems.Some? ==> l.minItems.value <= |items|) && (l.maxItems.Some? ==> |items| <= l.maxItems.value)
      && (l.uniqueItems == Some(true) ==> forall i, j :: 0 <= i < j < |items| ==> items[i] != items[j])
    case Obj(fields) =>
      && (l.minProperties.Some? ==> l.minProperties.value <= |fields|)
      && (l.maxProperties.Some? ==> |fields| <= l.maxProperties.value)
    case _ => true
  }

  predicate FieldsValid(re: Regex, s: Schema, fields: map<string, Json>)
    decreases s, 0
  {
    forall k :: k in fields ==>
      if k in s.Named() then Valid(re, s.Named()[k], fields[k])
      else match s.additional
           case Closed => false
           case Typed(t) => Valid(re, t, fields[k])
           case _ => true
  }

  predicate ItemsValid(re: Regex, s: Schema, items: seq<Json>)
    decreases s, 0
  {
    match s.items
    case NoItems => true
    case Each(t) => forall i :: 0 <= i < |items| ==> Valid(re, t, items[i])
    case Tuple(ts, form) =>
      (form == PrefixClosed ==> |items| <= |ts|) && forall i :: 0 <= i < |items| && i < |ts| ==> Valid(re, ts[i], items[i])
  }

  predicate SomeKind(types: seq<Kind>, v: Json) {
    exists i :: 0 <= i < |types| && HasKind(v, types[i])
  }

  /** Everything a schema says but its `const` and `enum`. */
  predicate Fitting(re: Regex, s: Schema, v: Json)
    decreases s, 1
  {
    && (s.types.Some? ==> SomeKind(s.types.value, v))
    && Within(re, s.limits, v)
    && (s.anyOf.AnyOf? ==> exists i :: 0 <= i < |s.anyOf.branches| && Valid(re, s.anyOf.branches[i], v))
    && (v.Obj? ==> (forall k :: k in s.required ==> k in v.fields) && FieldsValid(re, s, v.fields))
    && (v.Arr? ==> ItemsValid(re, s, v.items))
  }

  predicate Valid(re: Regex, s: Schema, v: Json)
    decreases s, 2
  {
    (s.constant.Some? ==> v == s.constant.value) && (s.enumerated.Some? ==> v in s.enumerated.value) && Fitting(re, s, v)
  }

  // Cleaning

  /** `cleanFrom`: the value with only what the schema knows. */
  function Clean(re: Regex, s: Schema, v: Json): (r: Json)
    decreases s, 1, 0
  {
    if s.anyOf.AnyOf? then CleanAny(re, s, s.anyOf.branches, v)
    else match v
      case Arr(items) => Arr(CleanItems(re, s, items))
      case Obj(fields) =>
        if s.properties.NoProperties? && !s.additional.Typed? then v
        else Obj(map k | k in fields && Keeps(re, s, k, fields[k]) :: CleanField(re, s, k, fields[k]))
      case _ => v
  }

  /** The first branch whose own cleaning it accepts. */
  function CleanAny(re: Regex, s: Schema, branches: seq<Schema>, v: Json): (r: Json)
    requires forall i :: 0 <= i < |branches| ==> branches[i] < s
    decreases s, 0, |branches|
  {
    if branches == [] then v
    else
      var candidate := Clean(re, branches[0], v);
      if Valid(re, branches[0], candidate) then candidate else CleanAny(re, s, branches[1..], v)
  }

  function CleanItems(re: Regex, s: Schema, items: seq<Json>): (r: seq<Json>)
    decreases s, 0, 0
  {
    match s.items
    case NoItems => items
    case Each(t) => seq(|items|, i requires 0 <= i < |items| => Clean(re, t, items[i]))
    case Tuple(ts, _) =>
      seq(if |items| < |ts| then |items| else |ts|, i requires 0 <= i < |items| && i < |ts| => Clean(re, ts[i], items[i]))
  }

  predicate Keeps(re: Regex, s: Schema, k: string, v: Json) {
    k in s.Named() || s.additional.Open? || (s.additional.Typed? && Valid(re, s.additional.schema, v))
  }

  function CleanField(re: Regex, s: Schema, k: string, v: Json): (r: Json)
    requires Keeps(re, s, k, v)
    decreases s, 0, 0
  {
    if k in s.Named() then Clean(re, s.Named()[k], v)
    else if s.additional.Typed? then Clean(re, s.additional.schema, v) else v
  }

  // Subtyping

  /** Every constraint of the provider is the consumer's too. */
  predicate SameLimits(sub: Limits, sup: Limits) {
    && (sup.minLength.Some? ==> sub.minLength == sup.minLength) && (sup.maxLength.Some? ==> sub.maxLength == sup.maxLength)
    && (sup.pattern.Some? ==> sub.pattern == sup.pattern) && (sup.format.Some? ==> sub.format == sup.format)
    && (sup.minimum.Some? ==> sub.minimum == sup.minimum) && (sup.maximum.Some? ==> sub.maximum == sup.maximum)
    && (sup.exclusiveMinimum.Some? ==> sub.exclusiveMinimum == sup.exclusiveMinimum)
    && (sup.exclusiveMaximum.Some? ==> sub.exclusiveMaximum == sup.exclusiveMaximum)
    && (sup.multipleOf.Some? ==> sub.multipleOf == sup.multipleOf)
    && (sup.minItems.Some? ==> sub.minItems == sup.minItems) && (sup.maxItems.Some? ==> sub.maxItems == sup.maxItems)
    && (sup.uniqueItems.Some? ==> sub.uniqueItems == sup.uniqueItems)
    && (sup.minProperties.Some? ==> sub.minProperties == sup.minProperties)
    && (sup.maxProperties.Some? ==> sub.maxProperties == sup.maxProperties)
  }

  predicate SameKinds(sub: seq<Kind>, sup: seq<Kind>) {
    forall i :: 0 <= i < |sub| ==> sub[i] in sup || (sub[i] == IntegerKind && NumberKind in sup)
  }

  predicate Fits(sub: Schema, sup: Schema)
    decreases sup, sub, 1
  {
    if sup.Bare() == Anything || sub.Bare() == sup.Bare() then true
    else if sup.additional.Typed? || (sup.items.Tuple? && sup.items.form != ItemsArray) then false
    else if sub.anyOf.AnyOf? then forall i :: 0 <= i < |sub.anyOf.branches| ==> Fits(sub.anyOf.branches[i], sup)
    else if sup.anyOf.AnyOf? then exists i :: 0 <= i < |sup.anyOf.branches| && Fits(sub, sup.anyOf.branches[i])
    else if sup.constant.Some? then sub.constant == sup.constant
    else if sup.enumerated.Some? then
      if sub.constant.Some? then sub.constant.value in sup.enumerated.value
      else sub.enumerated.Some? && forall v :: v in sub.enumerated.value ==> v in sup.enumerated.value
    else
      && SameLimits(sub.limits, sup.limits)
      && sup.types.Some? && sub.types.Some? && SameKinds(sub.types.value, sup.types.value)
      && (!sub.Pinned() && ObjectKind in sub.types.value ==> ObjectFits(sub, sup))
      && (!sub.Pinned() && ArrayKind in sub.types.value ==> ArrayFits(sub, sup))
  }

  /** The names every plain object inherits: `in` finds them in any `properties`, as a function or an empty object. */
  predicate IsInherited(k: string) {
    k in {"constructor", "hasOwnProperty", "isPrototypeOf", "propertyIsEnumerable", "toLocaleString", "toString", "valueOf",
          "__proto__", "__defineGetter__", "__defineSetter__", "__lookupGetter__", "__lookupSetter__"}
  }

  predicate ObjectFits(sub: Schema, sup: Schema)
    decreases sup, sub, 0
  {
    && (forall k :: k in sup.required ==> k in sub.required)
    && (forall k :: k in sup.Named() ==>
          if k in sub.Named() then Fits(sub.Named()[k], sup.Named()[k])
          // A function or an empty object read as a schema says nothing.
          else if IsInherited(k) then Fits(Anything, sup.Named()[k])
          else sub.additional.Typed? ==> Fits(sub.additional.schema, sup.Named()[k]))
    && (sup.additional.Closed? ==>
          sub.additional.Closed? && forall k :: k in sub.Named() ==> k in sup.Named() || IsInherited(k))
  }

  predicate ArrayFits(sub: Schema, sup: Schema)
    decreases sup, sub, 0
  {
    match sup.items
    case NoItems => true
    case Each(t) =>
      (match sub.items
       case NoItems => Fits(Anything, t)
       case Each(u) => Fits(u, t)
       // `prefixItems` says nothing of `items`, and `items: false` fits what an absent one does.
       case Tuple(us, form) => if form == ItemsArray then forall i :: 0 <= i < |us| ==> Fits(us[i], t) else Fits(Anything, t))
    case Tuple(ts, _) =>
      sub.items.Tuple? && sub.items.form == ItemsArray && |sub.items.schemas| == |ts| && forall i :: 0 <= i < |ts| ==> Fits(sub.items.schemas[i], ts[i])
  }

  // The fragment `fits` is sound on

  predicate Scalar(v: Json) {
    !v.Arr? && !v.Obj?
  }

  /** What a schema says at its own level: `Sane` looks inside too. */
  predicate SaneHere(re: Regex, s: Schema) {
    && (s.anyOf.AnyOf? ==> s == Anything.(note := s.note, anyOf := s.anyOf))
    && (s.constant.Some? ==> Scalar(s.constant.value) && Valid(re, s, s.constant.value))
    && (s.enumerated.Some? ==>
          forall v :: v in s.enumerated.value ==> Scalar(v) && Fitting(re, s, v))
    && (forall k :: k in s.required ==> k in s.Named())
    && !s.additional.Open?
    && s.limits.uniqueItems != Some(true) && s.limits.minProperties == None
    && (s.items.Tuple? && s.limits.minItems.Some? ==> s.limits.minItems.value <= |s.items.schemas|)
  }

  predicate Sane(re: Regex, s: Schema)
    decreases s
  {
    && SaneHere(re, s)
    && (s.anyOf.AnyOf? ==> forall i :: 0 <= i < |s.anyOf.branches| ==> Sane(re, s.anyOf.branches[i]))
    && (forall k :: k in s.Named() ==> Sane(re, s.Named()[k]))
    && (s.additional.Typed? ==> Sane(re, s.additional.schema))
    && (match s.items
        case NoItems => true
        case Each(t) => Sane(re, t)
        case Tuple(ts, _) => forall i :: 0 <= i < |ts| ==> Sane(re, ts[i]))
  }

  /** An object schema says what its fields are, or that there are none: cleaning by it strips the rest. */
  predicate StripsHere(s: Schema) {
    s.types.Some? && ObjectKind in s.types.value && !s.Pinned() ==>
      s.properties.Properties? || !s.additional.Unsaid? || s.limits.maxProperties == Some(0)
  }

  /** So do the schemas inside. */
  predicate StripsInside(s: Schema)
    decreases s, 0
  {
    && (s.anyOf.AnyOf? ==> forall i :: 0 <= i < |s.anyOf.branches| ==> Strips(s.anyOf.branches[i]))
    && (forall k :: k in s.Named() ==> Strips(s.Named()[k]))
    && (s.additional.Typed? ==> Strips(s.additional.schema))
    && (match s.items
        case NoItems => true
        case Each(t) => Strips(t)
        case Tuple(ts, _) => forall i :: 0 <= i < |ts| ==> Strips(ts[i]))
  }

  predicate Strips(s: Schema)
    decreases s, 1
  {
    StripsHere(s) && StripsInside(s)
  }

  /** A closed object schema names no inherited property. */
  predicate PlainHere(s: Schema) {
    s.additional.Closed? ==> forall k :: k in s.Named() ==> !IsInherited(k)
  }

  /** Nor do the closed schemas inside. */
  predicate PlainInside(s: Schema)
    decreases s, 0
  {
    && (s.anyOf.AnyOf? ==> forall i :: 0 <= i < |s.anyOf.branches| ==> Plain(s.anyOf.branches[i]))
    && (forall k :: k in s.Named() ==> Plain(s.Named()[k]))
    && (s.additional.Typed? ==> Plain(s.additional.schema))
    && (match s.items
        case NoItems => true
        case Each(t) => Plain(t)
        case Tuple(ts, _) => forall i :: 0 <= i < |ts| ==> Plain(ts[i]))
  }

  predicate Plain(s: Schema)
    decreases s, 1
  {
    PlainHere(s) && PlainInside(s)
  }

  /** A closed schema compared by its structure allows no value with an inherited name. */
  ghost predicate NamesHere(re: Regex, s: Schema) {
    s.types.Some? && s.additional.Closed? ==>
      forall v, k :: Valid(re, s, v) && v.Obj? && k in v.fields ==> !IsInherited(k)
  }

  ghost predicate KeepsHere(re: Regex, s: Schema) {
    StripsHere(s) && NamesHere(re, s)
  }

  /** What `fits` compares with the schema a provider has for a field. */
  function FieldCompared(s: Schema, k: string): (t: Schema) {
    if k in s.Named() then s.Named()[k] else if s.additional.Typed? && !IsInherited(k) then s.additional.schema else Anything
  }

  /** What `fits` compares with the schema a provider has for an item. */
  function ItemCompared(s: Schema, i: nat): (t: Schema) {
    match s.items
    case NoItems => Anything
    case Each(t) => t
    case Tuple(ts, form) => if i < |ts| && form == ItemsArray then ts[i] else Anything
  }

  /** The schema `t` is compared for a part of this value. */
  predicate ComparedFor(s: Schema, t: Schema, v: Json) {
    || (v.Obj? && exists k :: k in v.fields && t == FieldCompared(s, k))
    || (v.Arr? && exists i :: 0 <= i < |v.items| && t == ItemCompared(s, i))
  }

  /** The schema `t` is compared for a part of some value that `s` allows. */
  ghost predicate Reached(re: Regex, s: Schema, t: Schema) {
    s.types.Some? && !s.Pinned() && exists v :: Valid(re, s, v) && ComparedFor(s, t, v)
  }

  /** Nothing a value of the schema can hold breaks the promise of `fits`: the schema itself, its branches, what it reaches. */
  ghost predicate Keeping(re: Regex, s: Schema)
    decreases s
  {
    && KeepsHere(re, s)
    && (s.anyOf.AnyOf? ==> forall i :: 0 <= i < |s.anyOf.branches| ==> Keeping(re, s.anyOf.branches[i]))
    && (forall t :: t < s && Reached(re, s, t) ==> Keeping(re, t))
  }

  /** The branches of the schema and of what it reaches are of that kind. */
  ghost predicate BranchesKeep(re: Regex, s: Schema)
    decreases s
  {
    && (s.anyOf.AnyOf? ==> forall i :: 0 <= i < |s.anyOf.branches| ==> Keeping(re, s.anyOf.branches[i]))
    && (forall t :: t < s && Reached(re, s, t) ==> BranchesKeep(re, t))
  }

  // Cleaning keeps a valid value valid

  lemma {:induction false} CleanAnyFirst(re: Regex, s: Schema, branches: seq<Schema>, v: Json) returns (j: int)
    requires forall i :: 0 <= i < |branches| ==> branches[i] < s
    ensures -1 <= j < |branches|
    ensures forall i :: 0 <= i < j ==> !Valid(re, branches[i], Clean(re, branches[i], v))
    ensures j == -1 ==> CleanAny(re, s, branches, v) == v &&
                        forall i :: 0 <= i < |branches| ==> !Valid(re, branches[i], Clean(re, branches[i], v))
    ensures j >= 0 ==> CleanAny(re, s, branches, v) == Clean(re, branches[j], v) && Valid(re, branches[j], Clean(re, branches[j], v))
    decreases |branches|
  {
    if branches == [] {
      j := -1;
    } else if Valid(re, branches[0], Clean(re, branches[0], v)) {
      j := 0;
    } else {
      j := CleanAnyFirst(re, s, branches[1..], v);
      j := if j == -1 then -1 else j + 1;
    }
  }

  /** A value valid under a schema of the fragment is valid under it after cleaning. */
  lemma {:induction false} CleanValid(re: Regex, s: Schema, v: Json)
    requires Sane(re, s) && Valid(re, s, v)
    ensures Valid(re, s, Clean(re, s, v))
    decreases s
  {
    if s.anyOf.AnyOf? {
      var i :| 0 <= i < |s.anyOf.branches| && Valid(re, s.anyOf.branches[i], v);
      CleanValid(re, s.anyOf.branches[i], v);
      var j := CleanAnyFirst(re, s, s.anyOf.branches, v);
      assert Valid(re, s.anyOf.branches[j], Clean(re, s, v));
      assert Within(re, s.limits, Clean(re, s, v));
    } else if v.Arr? {
      CleanArrayValid(re, s, v);
    } else if v.Obj? {
      CleanObjectValid(re, s, v);
    }
  }

  lemma {:induction false} CleanArrayValid(re: Regex, s: Schema, v: Json)
    requires Sane(re, s) && Valid(re, s, v) && v.Arr? && s.anyOf.NoBranches?
    ensures Valid(re, s, Clean(re, s, v))
    decreases s, 0
  {
    var w := CleanItems(re, s, v.items);
    assert Clean(re, s, v) == Arr(w);
    assert Fitting(re, s, v) && ItemsValid(re, s, v.items);
    match s.items
    case NoItems =>
    case Each(t) =>
      forall i | 0 <= i < |w|
        ensures Valid(re, t, w[i])
      {
        CleanValid(re, t, v.items[i]);
      }
    case Tuple(ts, _) =>
      forall i | 0 <= i < |w|
        ensures Valid(re, ts[i], w[i])
      {
        CleanValid(re, ts[i], v.items[i]);
      }
  }

  lemma {:induction false} CleanObjectValid(re: Regex, s: Schema, v: Json)
    requires Sane(re, s) && Valid(re, s, v) && v.Obj? && s.anyOf.NoBranches?
    ensures Valid(re, s, Clean(re, s, v))
    decreases s, 0
  {
    var w := Clean(re, s, v);
    assert Fitting(re, s, v) && FieldsValid(re, s, v.fields);
    if s.properties.Properties? || s.additional.Typed? {
      forall k | k in w.fields
        ensures k in s.Named() ==> Valid(re, s.Named()[k], w.fields[k])
        ensures k !in s.Named() ==> s.additional.Typed? && Valid(re, s.additional.schema, w.fields[k])
      {
        var t := if k in s.Named() then s.Named()[k] else s.additional.schema;
        assert Keeps(re, s, k, v.fields[k]) && w.fields[k] == CleanField(re, s, k, v.fields[k]);
        CleanValid(re, t, v.fields[k]);
      }
      assert FieldsValid(re, s, w.fields);
      Fewer(w.fields, v.fields);
      if s.types.Some? {
        KindOnly(s.types.value, v, w);
      }
    }
  }

  /** Objects are all of one kind. */
  lemma KindOnly(types: seq<Kind>, v: Json, w: Json)
    requires v.Obj? && w.Obj? && SomeKind(types, v)
    ensures SomeKind(types, w)
  {
    var i :| 0 <= i < |types| && HasKind(v, types[i]);
    assert HasKind(w, types[i]);
  }

  lemma Fewer<K, V>(a: map<K, V>, b: map<K, V>)
    requires a.Keys <= b.Keys
    ensures |a| <= |b|
  {
    assert b.Keys == a.Keys + (b.Keys - a.Keys);
    assert |a| == |a.Keys| && |b| == |b.Keys|;
  }

  // What cleaning takes away

  /** `w` is `v` with some fields and some items at the end left out, at any depth. */
  predicate Restricts(w: Json, v: Json)
    decreases v
  {
    w == v
    || (w.Obj? && v.Obj? && forall k :: k in w.fields ==> k in v.fields && Restricts(w.fields[k], v.fields[k]))
    || (w.Arr? && v.Arr? && |w.items| <= |v.items| && forall i :: 0 <= i < |w.items| ==> Restricts(w.items[i], v.items[i]))
  }

  /** Cleaning only leaves things out. */
  lemma {:induction false} CleanRestricts(re: Regex, s: Schema, v: Json)
    ensures Restricts(Clean(re, s, v), v)
    decreases s
  {
    var w := Clean(re, s, v);
    if s.anyOf.AnyOf? {
      var j := CleanAnyFirst(re, s, s.anyOf.branches, v);
      if j >= 0 {
        CleanRestricts(re, s.anyOf.branches[j], v);
      }
    } else if v.Obj? && w != v {
      forall k | k in w.fields
        ensures k in v.fields && Restricts(w.fields[k], v.fields[k])
      {
        assert Keeps(re, s, k, v.fields[k]) && w.fields[k] == CleanField(re, s, k, v.fields[k]);
        if k in s.Named() {
          CleanRestricts(re, s.Named()[k], v.fields[k]);
        } else if s.additional.Typed? {
          CleanRestricts(re, s.additional.schema, v.fields[k]);
        }
      }
    } else if v.Arr? {
      CleanItemsRestrict(re, s, v.items);
    }
  }

  lemma {:induction false} CleanItemsRestrict(re: Regex, s: Schema, items: seq<Json>)
    ensures var r := CleanItems(re, s, items);
            |r| <= |items| && forall i :: 0 <= i < |r| ==> Restricts(r[i], items[i])
    decreases s, 0
  {
    match s.items
    case NoItems =>
    case Each(t) =>
      forall i | 0 <= i < |items|
        ensures Restricts(Clean(re, t, items[i]), items[i])
      {
        CleanRestricts(re, t, items[i]);
      }
    case Tuple(ts, _) =>
      forall i | 0 <= i < |items| && i < |ts|
        ensures Restricts(Clean(re, ts[i], items[i]), items[i])
      {
        CleanRestricts(re, ts[i], items[i]);
      }
  }

  /** A schema of named fields and lists only: everything a valid value has is known. */
  predicate Exact(s: Schema)
    decreases s
  {
    && s.anyOf.NoBranches? && s.additional.Closed? && !s.items.Tuple?
    && (forall k :: k in s.Named() ==> Exact(s.Named()[k]))
    && (s.items.Each? ==> Exact(s.items.schema))
  }

  /** Nothing known is ever taken: a value an exact schema allows is left as it is. */
  lemma {:induction false} CleanExact(re: Regex, s: Schema, v: Json)
    requires Exact(s) && Valid(re, s, v)
    ensures Clean(re, s, v) == v
    decreases s
  {
    assert Fitting(re, s, v);
    if v.Obj? {
      assert FieldsValid(re, s, v.fields);
      forall k | k in v.fields
        ensures k in s.Named() && Clean(re, s.Named()[k], v.fields[k]) == v.fields[k]
      {
        CleanExact(re, s.Named()[k], v.fields[k]);
      }
    } else if v.Arr? {
      assert ItemsValid(re, s, v.items);
      forall i | 0 <= i < |v.items| && s.items.Each?
        ensures Clean(re, s.items.schema, v.items[i]) == v.items[i]
      {
        CleanExact(re, s.items.schema, v.items[i]);
      }
    }
  }

  // Soundness

  /** What `sub` lets through once cleaned by it, `sup` lets through. */
  lemma {:induction false} FitsCleaned(re: Regex, sub: Schema, sup: Schema, v: Json)
    requires Fits(sub, sup) && Sane(re, sub) && Sane(re, sup) && Keeping(re, sub)
    requires Valid(re, sub, Clean(re, sub, v))
    ensures Valid(re, sup, Clean(re, sub, v))
    decreases sup, sub, 2
  {
    var w := Clean(re, sub, v);
    if sup.Bare() == Anything || sub.Bare() == sup.Bare() {
      NoteSame(re, sub, w);
      NoteSame(re, sup, w);
    } else if sub.anyOf.AnyOf? {
      var j := BranchTaken(re, sub, v);
      FitsCleaned(re, sub.anyOf.branches[j], sup, v);
    } else if sup.anyOf.AnyOf? {
      var i :| 0 <= i < |sup.anyOf.branches| && Fits(sub, sup.anyOf.branches[i]);
      FitsCleaned(re, sub, sup.anyOf.branches[i], v);
      BranchSuffices(re, sup, i, w);
    } else if sup.Pinned() {
      hide Fitting, Clean;
    } else {
      hide Valid, Clean, Fitting, Keeping;
      StructureFits(re, sub, sup, v);
    }
  }

  /** The branch whose cleaning the value of an `anyOf` is. */
  lemma BranchTaken(re: Regex, s: Schema, v: Json) returns (j: nat)
    requires s.anyOf.AnyOf? && Sane(re, s) && Valid(re, s, Clean(re, s, v))
    ensures j < |s.anyOf.branches| && Clean(re, s, v) == Clean(re, s.anyOf.branches[j], v)
    ensures Valid(re, s.anyOf.branches[j], Clean(re, s, v))
  {
    var first := CleanAnyFirst(re, s, s.anyOf.branches, v);
    if first == -1 {
      assert Fitting(re, s, v);
      var i :| 0 <= i < |s.anyOf.branches| && Valid(re, s.anyOf.branches[i], v);
      CleanValid(re, s.anyOf.branches[i], v);
      assert false;
    }
    j := first;
  }

  lemma BranchSuffices(re: Regex, s: Schema, i: nat, w: Json)
    requires s.anyOf.AnyOf? && SaneHere(re, s) && i < |s.anyOf.branches| && Valid(re, s.anyOf.branches[i], w)
    ensures Valid(re, s, w)
  {
    assert w.Obj? ==> FieldsValid(re, s, w.fields);
    assert Fitting(re, s, w);
  }

  lemma NoteSame(re: Regex, s: Schema, v: Json)
    ensures Valid(re, s.Bare(), v) == Valid(re, s, v)
  {
    assert s.Named() == s.Bare().Named();
    assert Fitting(re, s.Bare(), v) == Fitting(re, s, v);
  }

  lemma {:induction false} StructureFits(re: Regex, sub: Schema, sup: Schema, v: Json)
    requires Fits(sub, sup) && Sane(re, sub) && Sane(re, sup) && Keeping(re, sub)
    requires Valid(re, sub, Clean(re, sub, v))
    requires sub.Bare() != sup.Bare() && sup.Bare() != Anything && sub.anyOf.NoBranches? && sup.anyOf.NoBranches? && !sup.Pinned()
    ensures Valid(re, sup, Clean(re, sub, v))
    decreases sup, sub, 1
  {
    var w := Clean(re, sub, v);
    assert Fitting(re, sub, w);
    assert w.Obj? || w.Arr? ==> !sub.Pinned();
    KindsFit(w, sub.types.value, sup.types.value);
    LimitsFit(re, sub.limits, sup.limits, w);
    hide Within, SameLimits, SameKinds, FieldsValid, ItemsValid, Reached;
    if w.Obj? {
      assert KeepsHere(re, sub);
      ObjectValid(re, sub, sup, v);
    } else if w.Arr? {
      ArrayValid(re, sub, sup, v);
    }
  }

  lemma KindsFit(w: Json, sub: seq<Kind>, sup: seq<Kind>)
    requires SameKinds(sub, sup) && SomeKind(sub, w)
    ensures SomeKind(sup, w)
  {
    var i :| 0 <= i < |sub| && HasKind(w, sub[i]);
    var kind := if sub[i] in sup then sub[i] else NumberKind;
    var j :| 0 <= j < |sup| && sup[j] == kind;
    assert HasKind(w, sup[j]);
  }

  lemma LimitsFit(re: Regex, sub: Limits, sup: Limits, w: Json)
    requires SameLimits(sub, sup) && Within(re, sub, w)
    ensures Within(re, sup, w)
  {
  }

  lemma {:induction false} ObjectValid(re: Regex, sub: Schema, sup: Schema, v: Json)
    requires ObjectFits(sub, sup) && Sane(re, sub) && Sane(re, sup) && Keeping(re, sub)
    requires Clean(re, sub, v).Obj? && Valid(re, sub, Clean(re, sub, v)) && sub.anyOf.NoBranches? && !sup.additional.Typed?
    requires sub.types.Some? && !sub.Pinned()
    requires sub.properties.Properties? || !sub.additional.Unsaid? || sub.limits.maxProperties == Some(0)
    ensures var w := Clean(re, sub, v);
            (forall k :: k in sup.required ==> k in w.fields) && FieldsValid(re, sup, w.fields)
    decreases sup, sub, 0
  {
    hide IsInherited;
    var w := Clean(re, sub, v);
    assert Fitting(re, sub, w);
    forall k | k in w.fields
      ensures if k in sup.Named() then Valid(re, sup.Named()[k], w.fields[k]) else !sup.additional.Closed?
    {
      if sub.properties.NoProperties? && sub.additional.Unsaid? {
        assert false;
      } else if k in sup.Named() {
        FieldFits(re, sub, sup, v, k);
      } else if sup.additional.Closed? {
        assert false;
      }
    }
  }

  /** What a kept field is cleaned and checked by. */
  function FieldSchema(s: Schema, k: string): (t: Schema) {
    if k in s.Named() then s.Named()[k] else if s.additional.Typed? then s.additional.schema else Anything
  }

  lemma FieldCleaned(re: Regex, s: Schema, v: Json, k: string)
    requires s.anyOf.NoBranches? && !s.additional.Open? && (s.properties.Properties? || s.additional.Typed?)
    requires v.Obj? && k in Clean(re, s, v).fields && FieldsValid(re, s, Clean(re, s, v).fields)
    ensures k in v.fields && (k in s.Named() || s.additional.Typed?)
    ensures Clean(re, s, v).fields[k] == Clean(re, FieldSchema(s, k), v.fields[k])
    ensures Valid(re, FieldSchema(s, k), Clean(re, s, v).fields[k])
  {
    assert Keeps(re, s, k, v.fields[k]) && Clean(re, s, v).fields[k] == CleanField(re, s, k, v.fields[k]);
  }

  lemma KeepsReached(re: Regex, s: Schema, t: Schema)
    requires Keeping(re, s) && Reached(re, s, t) && t < s
    ensures Keeping(re, t)
  {
  }

  lemma KeepsField(re: Regex, s: Schema, w: Json, k: string)
    requires Keeping(re, s) && s.types.Some? && !s.Pinned() && Valid(re, s, w) && w.Obj? && k in w.fields
    requires k in s.Named() || (s.additional.Typed? && !IsInherited(k))
    ensures Keeping(re, FieldSchema(s, k))
  {
    hide Valid;
    assert FieldSchema(s, k) == FieldCompared(s, k) && ComparedFor(s, FieldSchema(s, k), w);
    KeepsReached(re, s, FieldSchema(s, k));
  }

  lemma AnythingKeeps(re: Regex)
    ensures Sane(re, Anything) && Keeping(re, Anything)
  {
    assert SaneHere(re, Anything);
  }

  lemma {:induction false} FieldFits(re: Regex, sub: Schema, sup: Schema, v: Json, k: string)
    requires ObjectFits(sub, sup) && Sane(re, sub) && Sane(re, sup) && Keeping(re, sub)
    requires sub.types.Some? && !sub.Pinned() && Valid(re, sub, Clean(re, sub, v))
    requires v.Obj? && Clean(re, sub, v).Obj? && FieldsValid(re, sub, Clean(re, sub, v).fields) && sub.anyOf.NoBranches?
    requires sub.properties.Properties? || !sub.additional.Unsaid?
    requires k in Clean(re, sub, v).fields && k in sup.Named()
    ensures Valid(re, sup.Named()[k], Clean(re, sub, v).fields[k])
    decreases sup, sub, 0, 0
  {
    hide IsInherited;
    var w := Clean(re, sub, v);
    if sub.properties.NoProperties? && !sub.additional.Typed? {
      assert false;
    } else {
      FieldCleaned(re, sub, v, k);
      hide Clean, Valid, FieldsValid, Keeping;
      if k !in sub.Named() && IsInherited(k) {
        AnythingKeeps(re);
        AnythingValid(re, w.fields[k]);
        FitsCleaned(re, Anything, sup.Named()[k], w.fields[k]);
      } else {
        KeepsField(re, sub, w, k);
        FitsCleaned(re, FieldSchema(sub, k), sup.Named()[k], v.fields[k]);
      }
    }
  }

  /** What an item is cleaned and checked by. */
  function ItemSchema(s: Schema, i: nat): (t: Schema) {
    match s.items
    case NoItems => Anything
    case Each(t) => t
    case Tuple(ts, _) => if i < |ts| then ts[i] else Anything
  }

  lemma ItemCleaned(re: Regex, s: Schema, items: seq<Json>, i: nat)
    requires i < |CleanItems(re, s, items)| && ItemsValid(re, s, CleanItems(re, s, items))
    ensures i < |items| && CleanItems(re, s, items)[i] == Clean(re, ItemSchema(s, i), items[i])
    ensures Valid(re, ItemSchema(s, i), CleanItems(re, s, items)[i])
  {
  }

  lemma {:induction false} ItemFits(re: Regex, sub: Schema, sup: Schema, items: seq<Json>, i: nat)
    requires ArrayFits(sub, sup) && Sane(re, sub) && Sane(re, sup) && Keeping(re, sub)
    requires i < |CleanItems(re, sub, items)| && ItemsValid(re, sub, CleanItems(re, sub, items))
    requires sub.types.Some? && !sub.Pinned() && Valid(re, sub, Arr(CleanItems(re, sub, items)))
    requires sup.items.Tuple? ==> i < |sup.items.schemas|
    ensures Valid(re, ItemSchema(sup, i), CleanItems(re, sub, items)[i])
    decreases sup, sub, 0, 0
  {
    var w := CleanItems(re, sub, items);
    if sup.items.NoItems? {
      AnythingValid(re, w[i]);
    } else if sub.items.NoItems? || (sub.items.Tuple? && sub.items.form != ItemsArray) {
      AnythingKeeps(re);
      AnythingValid(re, w[i]);
      hide CleanItems, Valid, ItemsValid;
      FitsCleaned(re, Anything, ItemSchema(sup, i), w[i]);
    } else {
      ItemCleaned(re, sub, items, i);
      hide Clean, CleanItems, Valid, ItemsValid;
      assert ComparedFor(sub, ItemSchema(sub, i), Arr(w)) by {
        assert Arr(w).items[i] == w[i] && ItemSchema(sub, i) == ItemCompared(sub, i);
      }
      KeepsReached(re, sub, ItemSchema(sub, i));
      FitsCleaned(re, ItemSchema(sub, i), ItemSchema(sup, i), items[i]);
    }
  }

  lemma AnythingValid(re: Regex, v: Json)
    ensures Valid(re, Anything, v) && Clean(re, Anything, v) == v
  {
  }

  lemma {:induction false} ArrayValid(re: Regex, sub: Schema, sup: Schema, v: Json)
    requires ArrayFits(sub, sup) && Sane(re, sub) && Sane(re, sup) && Keeping(re, sub) && sub.types.Some? && !sub.Pinned()
    requires Clean(re, sub, v).Arr? && Valid(re, sub, Clean(re, sub, v)) && sub.anyOf.NoBranches?
    ensures ItemsValid(re, sup, Clean(re, sub, v).items)
    decreases sup, sub, 0
  {
    var w := CleanItems(re, sub, v.items);
    assert Clean(re, sub, v) == Arr(w);
    assert Fitting(re, sub, Arr(w)) && ItemsValid(re, sub, w);
    forall i | 0 <= i < |w| && (sup.items.Tuple? ==> i < |sup.items.schemas|)
      ensures Valid(re, ItemSchema(sup, i), w[i])
    {
      ItemFits(re, sub, sup, v.items, i);
    }
  }

  /**
   Soundness of `fits`: a value the consumer's schema allows, with what the consumer does not know stripped, is one the
   provider's schema allows.
   */
  lemma FitsSound(re: Regex, sub: Schema, sup: Schema, v: Json)
    requires Fits(sub, sup) && Sane(re, sub) && Sane(re, sup) && Keeping(re, sub)
    requires Valid(re, sub, v)
    ensures Valid(re, sup, Clean(re, sub, v))
  {
    CleanValid(re, sub, v);
    FitsCleaned(re, sub, sup, v);
  }

  /** Read off the schema alone: one that strips and is plain throughout keeps the promise. */
  lemma {:induction false} PlainKeeps(re: Regex, s: Schema)
    requires Strips(s) && Plain(s)
    ensures Keeping(re, s)
    decreases s, 1
  {
    hide IsInherited;
    forall v, k | s.additional.Closed? && Valid(re, s, v) && v.Obj? && k in v.fields
      ensures !IsInherited(k)
    {
      assert Fitting(re, s, v) && FieldsValid(re, s, v.fields);
    }
    InsideKeeps(re, s);
  }

  lemma {:induction false} InsideKeeps(re: Regex, s: Schema)
    requires StripsInside(s) && PlainInside(s)
    ensures BranchesKeep(re, s) && (KeepsHere(re, s) ==> Keeping(re, s))
    ensures forall t :: t < s && Reached(re, s, t) ==> Keeping(re, t)
    decreases s, 0
  {
    hide IsInherited, Valid;
    if s.anyOf.AnyOf? {
      forall i | 0 <= i < |s.anyOf.branches|
        ensures Keeping(re, s.anyOf.branches[i])
      {
        PlainKeeps(re, s.anyOf.branches[i]);
      }
    }
    forall t | t < s && Reached(re, s, t)
      ensures Keeping(re, t) && BranchesKeep(re, t)
    {
      ReachedPlain(re, s, t);
      PlainKeeps(re, t);
      InsideKeeps(re, t);
    }
  }

  lemma ReachedPlain(re: Regex, s: Schema, t: Schema)
    requires StripsInside(s) && PlainInside(s) && Reached(re, s, t)
    ensures Strips(t) && Plain(t)
  {
    hide IsInherited, Valid;
    var v :| Valid(re, s, v) && ComparedFor(s, t, v);
    if v.Obj? {
      var k :| k in v.fields && t == FieldCompared(s, k);
    } else {
      var i :| 0 <= i < |v.items| && t == ItemCompared(s, i);
    }
  }

  /**
   The additive rule: a provider may name more optional fields, or fewer fields, than an open consumer does. A name every
   object inherits is no addition: the provider's schema for it must take anything.
   */
  lemma AdditiveFits(sub: Schema, sup: Schema)
    requires sub.types == sup.types == Some([ObjectKind]) && !sub.Pinned() && !sup.Pinned()
    requires sub.anyOf.NoBranches? && sup.anyOf.NoBranches? && sub.additional.Unsaid? && sup.additional.Unsaid?
    requires sub.limits == sup.limits && sup.items.NoItems? && (forall k :: k in sup.required ==> k in sub.required)
    requires forall k :: k in sub.Named() && k in sup.Named() ==> sub.Named()[k] == sup.Named()[k]
    ensures Fits(sub, sup) <==>
            forall k :: k in sup.Named() && k !in sub.Named() && IsInherited(k) ==> Fits(Anything, sup.Named()[k])
  {
    hide IsInherited;
    assert sub.types.value == [ObjectKind];
    assert sub.types.value[0] == sup.types.value[0] == ObjectKind;
    assert SameKinds(sub.types.value, sup.types.value) && SameLimits(sub.limits, sup.limits);
    if sub.Bare() == sup.Bare() {
      assert sub.Named() == sup.Named();
    } else {
      assert Fits(sub, sup) <==> ObjectFits(sub, sup);
      AdditiveObjectFits(sub, sup);
    }
  }

  lemma AdditiveObjectFits(sub: Schema, sup: Schema)
    requires sub.additional.Unsaid? && sup.additional.Unsaid? && (forall k :: k in sup.required ==> k in sub.required)
    requires forall k :: k in sub.Named() && k in sup.Named() ==> sub.Named()[k] == sup.Named()[k]
    ensures ObjectFits(sub, sup) <==>
            forall k :: k in sup.Named() && k !in sub.Named() && IsInherited(k) ==> Fits(Anything, sup.Named()[k])
  {
    hide IsInherited;
    forall k | k in sup.Named() && k in sub.Named()
      ensures Fits(sub.Named()[k], sup.Named()[k])
    {
    }
  }

  // What fits

  /** Whole numbers are numbers. */
  lemma IntegerFits()
    ensures Fits(Anything.(types := Some([IntegerKind])), Anything.(types := Some([NumberKind])))
    ensures !Fits(Anything.(types := Some([NumberKind])), Anything.(types := Some([IntegerKind])))
  {
    var whole, number := Anything.(types := Some([IntegerKind])), Anything.(types := Some([NumberKind]));
    assert whole.types.value[0] == IntegerKind && number.types.value[0] == NumberKind;
    assert SameKinds(whole.types.value, number.types.value) && SameLimits(whole.limits, number.limits);
    assert !SameKinds(number.types.value, whole.types.value);
  }

  /** What `fits` does not look into, `prefixItems` and a schema of additional properties, only its like fits. */
  lemma OnlyAlike(sub: Schema, sup: Schema)
    requires sup.additional.Typed? || (sup.items.Tuple? && sup.items.form != ItemsArray)
    ensures Fits(sub, sup) <==> sub.Bare() == sup.Bare()
  {
  }

  /** Of annotations those at the top do not matter. */
  lemma {:induction false} NotesIgnored(sub: Schema, sup: Schema, a: string, b: string)
    ensures Fits(sub.(note := a), sup.(note := b)) <==> Fits(sub, sup)
    decreases sup, sub
  {
    var s, t := sub.(note := a), sup.(note := b);
    assert s.Bare() == sub.Bare() && t.Bare() == sup.Bare();
    if sub.anyOf.AnyOf? {
      forall i | 0 <= i < |sub.anyOf.branches|
        ensures Fits(sub.anyOf.branches[i], t) <==> Fits(sub.anyOf.branches[i], sup)
      {
        NotesIgnored(sub.anyOf.branches[i], sup, sub.anyOf.branches[i].note, b);
      }
    } else if sup.anyOf.AnyOf? {
      forall i | 0 <= i < |sup.anyOf.branches|
        ensures Fits(s, sup.anyOf.branches[i]) <==> Fits(sub, sup.anyOf.branches[i])
      {
        NotesIgnored(sub, sup.anyOf.branches[i], a, sup.anyOf.branches[i].note);
      }
    } else {
      assert ObjectFits(s, t) <==> ObjectFits(sub, sup);
      assert ArrayFits(s, t) <==> ArrayFits(sub, sup);
    }
  }

  /** A constant is fit only by itself. */
  lemma ConstantsFit(sub: Schema, sup: Schema)
    requires sub.anyOf.NoBranches? && sup.anyOf.NoBranches? && sup.constant.Some?
    requires !sup.additional.Typed? && !sup.items.Tuple? && sub.Bare() != sup.Bare()
    ensures Fits(sub, sup) <==> sub.constant == sup.constant
  {
  }

  /** A constant fits an enumeration that has it, and an enumeration a longer one. */
  lemma ValuesFit(sub: Schema, sup: Schema)
    requires sub.anyOf.NoBranches? && sup.anyOf.NoBranches? && sup.constant.None? && sup.enumerated.Some?
    requires !sup.additional.Typed? && !sup.items.Tuple? && sub.Bare() != sup.Bare()
    ensures Fits(sub, sup) <==>
            if sub.constant.Some? then sub.constant.value in sup.enumerated.value
            else sub.enumerated.Some? && forall v :: v in sub.enumerated.value ==> v in sup.enumerated.value
  {
  }

  /** Alternatives fit when each does, and a schema fits alternatives when it fits one of them. */
  lemma AlternativesFit(sub: Schema, sup: Schema, note: string, branches: seq<Schema>)
    requires sub.anyOf.NoBranches? && sup.anyOf.NoBranches? && !sup.additional.Typed? && !sup.items.Tuple?
    ensures var any := Anything.(note := note, anyOf := AnyOf(branches));
            && ((forall i :: 0 <= i < |branches| ==> Fits(branches[i], sup)) ==> Fits(any, sup))
            && ((exists i :: 0 <= i < |branches| && Fits(sub, branches[i])) ==> Fits(sub, any))
  {
  }

  /** A tuple fits a list when each of its items does, and another one as long item by item. */
  lemma TuplesFit(ts: seq<Schema>, us: seq<Schema>, u: Schema)
    ensures var sub := Anything.(types := Some([ArrayKind]), items := Tuple(ts, ItemsArray));
            && ((forall i :: 0 <= i < |ts| ==> Fits(ts[i], u)) ==> Fits(sub, sub.(items := Each(u))))
            && (|ts| == |us| && (forall i :: 0 <= i < |ts| ==> Fits(ts[i], us[i])) ==> Fits(sub, sub.(items := Tuple(us, ItemsArray))))
  {
    var sub := Anything.(types := Some([ArrayKind]), items := Tuple(ts, ItemsArray));
    var list, tuple := sub.(items := Each(u)), sub.(items := Tuple(us, ItemsArray));
    assert ObjectFits(sub, list) && ObjectFits(sub, tuple);
    if forall i :: 0 <= i < |ts| ==> Fits(ts[i], u) {
      assert ArrayFits(sub, list);
      StructureSuffices(sub, list);
    }
    if |ts| == |us| && forall i :: 0 <= i < |ts| ==> Fits(ts[i], us[i]) {
      assert ArrayFits(sub, tuple);
      StructureSuffices(sub, tuple);
    }
  }

  /** Lists fit when their items do. */
  lemma ListsFit(t: Schema, u: Schema)
    ensures var sub, sup := Anything.(types := Some([ArrayKind]), items := Each(t)), Anything.(types := Some([ArrayKind]), items := Each(u));
            Fits(t, u) ==> Fits(sub, sup)
  {
    var sub, sup := Anything.(types := Some([ArrayKind]), items := Each(t)), Anything.(types := Some([ArrayKind]), items := Each(u));
    if Fits(t, u) {
      assert ArrayFits(sub, sup) && ObjectFits(sub, sup);
      StructureSuffices(sub, sup);
    }
  }

  /** A consumer schema that asks for an object and says nothing of its fields. */
  const AnyObject: Schema := Anything.(types := Some([ObjectKind]))

  /** The object schema with one field it names. */
  function WithField(s: Schema, k: string, t: Schema): (r: Schema)
    requires s.properties.NoProperties?
  {
    s.(properties := Properties(map[k := t]), items := NoItems)
  }

  const Number: Schema := Anything.(types := Some([NumberKind]))

  /** The consumer schemas cleaning strips nothing by, though their values may have fields. */
  predicate Loose(s: Schema) {
    !StripsHere(s) && s.anyOf.NoBranches?
  }

  /** Schemas of the same kinds and limits fit if their fields and items do. */
  lemma StructureSuffices(sub: Schema, sup: Schema)
    requires sub.types.Some? && sub.types == sup.types && sub.limits == sup.limits && !sup.Pinned()
    requires sub.anyOf.NoBranches? && sup.anyOf.NoBranches?
    requires !sup.additional.Typed? && (sup.items.Tuple? ==> sup.items.form == ItemsArray)
    requires ObjectFits(sub, sup) && ArrayFits(sub, sup)
    ensures Fits(sub, sup)
  {
    hide ObjectFits, ArrayFits;
    assert forall i :: 0 <= i < |sub.types.value| ==> sub.types.value[i] in sup.types.value;
    assert SameKinds(sub.types.value, sup.types.value) && SameLimits(sub.limits, sup.limits);
  }

  lemma FitsItself(s: Schema)
    ensures Fits(s, s)
  {
  }

  lemma NumberSane(re: Regex)
    ensures Sane(re, Number)
  {
    assert SaneHere(re, Number);
  }

  lemma LooseFits(re: Regex, sub: Schema)
    requires Sane(re, sub) && Loose(sub)
    ensures var sup := WithField(sub, "b", Number); Fits(sub, sup) && Sane(re, sup)
  {
    var sup := WithField(sub, "b", Number);
    assert ObjectFits(sub, sup) && ArrayFits(sub, sup);
    StructureSuffices(sub, sup);
    NumberSane(re);
    assert SaneHere(re, sub) && SaneHere(re, sup);
  }

  lemma LooseFails(re: Regex, sub: Schema)
    requires Sane(re, sub) && Loose(sub)
    ensures var v := Obj(map["b" := Str("x")]);
            Valid(re, sub, v) && !Valid(re, WithField(sub, "b", Number), Clean(re, sub, v))
  {
    var v := Obj(map["b" := Str("x")]);
    var i :| 0 <= i < |sub.types.value| && sub.types.value[i] == ObjectKind;
    assert HasKind(v, sub.types.value[i]) && SaneHere(re, sub);
    assert |v.fields| == 1;
    assert Fitting(re, sub, v) by {
      assert FieldsValid(re, sub, v.fields);
    }
    FieldRefused(re, WithField(sub, "b", Number), v, "b");
  }

  /** What the consumer's schema allows, the provider's does once cleaned. */
  ghost predicate Sound(re: Regex, sub: Schema, sup: Schema) {
    forall v :: Valid(re, sub, v) ==> Valid(re, sup, Clean(re, sub, v))
  }

  lemma Unsound(re: Regex, sub: Schema, sup: Schema, v: Json)
    requires Valid(re, sub, v) && !Valid(re, sup, Clean(re, sub, v))
    ensures !Sound(re, sub, sup)
  {
  }

  /** The promise of `fits`, over every provider of the fragment and every value. */
  ghost predicate Promise(re: Regex, sub: Schema) {
    forall sup :: Fits(sub, sup) && Sane(re, sup) ==> Sound(re, sub, sup)
  }

  /** A provider of the fragment and a value for which `fits` breaks its promise. */
  ghost predicate Breaks(re: Regex, sub: Schema, sup: Schema, v: Json) {
    Fits(sub, sup) && Sane(re, sup) && Valid(re, sub, v) && !Valid(re, sup, Clean(re, sub, v))
  }

  /** The provider that leaves out the name `k` of a closed consumer. */
  function Without(s: Schema, k: string): (r: Schema) {
    s.(properties := Properties(map j | j in s.Named() && j != k :: s.Named()[j]),
       required := Dropping(s.required, k), items := NoItems)
  }

  function Dropping(names: seq<string>, k: string): (r: seq<string>)
    ensures forall j :: j in r <==> j in names && j != k
  {
    if names == [] then [] else (if names[0] == k then [] else [names[0]]) + Dropping(names[1..], k)
  }

  lemma WithoutFits(re: Regex, sub: Schema, k: string)
    requires Sane(re, sub) && sub.types.Some? && sub.additional.Closed? && !sub.Pinned() && IsInherited(k)
    ensures Fits(sub, Without(sub, k)) && Sane(re, Without(sub, k))
  {
    hide IsInherited;
    var sup := Without(sub, k);
    assert SaneHere(re, sub) && SaneHere(re, sup);
    forall j | j in sup.Named()
      ensures Fits(sub.Named()[j], sup.Named()[j])
    {
      FitsItself(sub.Named()[j]);
    }
    assert sup.items.NoItems? && ArrayFits(sub, sup);
    assert ObjectFits(sub, sup);
    StructureSuffices(sub, sup);
  }

  /** If a closed schema allows a value with an inherited name, the provider without that name fits, and refuses it. */
  lemma UnnamedBreaks(re: Regex, sub: Schema, v: Json, k: string)
    requires Sane(re, sub) && sub.types.Some? && sub.additional.Closed?
    requires Valid(re, sub, v) && v.Obj? && k in v.fields && IsInherited(k)
    ensures Breaks(re, sub, Without(sub, k), v)
  {
    hide IsInherited, Fits;
    NamesWhatItHas(re, sub, v, k);
    hide Sane, Valid;
    WithoutFits(re, sub, k);
    FieldOfCleaned(re, sub, v, k);
    hide Clean;
    UnknownRefused(re, Without(sub, k), Clean(re, sub, v), k);
  }

  lemma NamesWhatItHas(re: Regex, s: Schema, v: Json, k: string)
    requires SaneHere(re, s) && s.types.Some? && s.additional.Closed? && Valid(re, s, v) && v.Obj? && k in v.fields
    ensures k in s.Named() && !s.Pinned() && s.anyOf.NoBranches?
  {
    assert Fitting(re, s, v) && FieldsValid(re, s, v.fields);
  }

  lemma UnknownRefused(re: Regex, s: Schema, v: Json, k: string)
    requires v.Obj? && k in v.fields && k !in s.Named() && s.additional.Closed?
    ensures !Valid(re, s, v)
  {
    assert !FieldsValid(re, s, v.fields);
    assert !Fitting(re, s, v);
  }

  /** The provider that has `t` for the field `k`, and otherwise the consumer's own schemas. */
  function WithFieldOf(s: Schema, k: string, t: Schema): (r: Schema) {
    s.(properties := Properties(s.Named()[k := t]), additional := if s.additional.Typed? then Unsaid else s.additional,
       items := NoItems)
  }

  lemma FieldLifts(re: Regex, sub: Schema, k: string, sup: Schema)
    requires Sane(re, sub) && Sane(re, sup) && sub.types.Some? && !sub.Pinned()
    requires k in sub.Named() || (sub.additional.Typed? && !IsInherited(k))
    requires Fits(FieldCompared(sub, k), sup)
    ensures var r := WithFieldOf(sub, k, sup); Fits(sub, r) && Sane(re, r)
  {
    hide IsInherited;
    var r := WithFieldOf(sub, k, sup);
    assert SaneHere(re, sub) && SaneHere(re, r);
    forall j | j in sub.Named()
      ensures Fits(sub.Named()[j], r.Named()[j])
    {
      FitsItself(sub.Named()[j]);
    }
    hide Sane, SaneHere;
    assert r.items.NoItems? && ArrayFits(sub, r);
    assert ObjectFits(sub, r);
    StructureSuffices(sub, r);
  }

  /** A failure of the schema a field is compared by is one of the object that has the field. */
  lemma FieldBreaks(re: Regex, sub: Schema, u: Json, k: string, sup: Schema, v: Json)
    requires Sane(re, sub) && sub.types.Some? && !sub.Pinned() && Valid(re, sub, u) && u.Obj? && k in u.fields
    requires k in sub.Named() || (sub.additional.Typed? && !IsInherited(k))
    requires Breaks(re, FieldCompared(sub, k), sup, v)
    ensures Breaks(re, sub, WithFieldOf(sub, k, sup), Obj(u.fields[k := v]))
  {
    hide IsInherited;
    FieldLifts(re, sub, k, sup);
    hide Fits, Sane;
    var r, w := WithFieldOf(sub, k, sup), Obj(u.fields[k := v]);
    assert SaneHere(re, sub);
    FieldPutIn(re, sub, u, k, v);
    FieldOfCleaned(re, sub, w, k);
    hide Clean;
    assert r.Named()[k] == sup;
    FieldRefused(re, r, Clean(re, sub, w), k);
  }

  lemma FieldOfCleaned(re: Regex, s: Schema, v: Json, k: string)
    requires s.anyOf.NoBranches? && v.Obj? && k in v.fields
    requires k in s.Named() || (s.additional.Typed? && Valid(re, s.additional.schema, v.fields[k]))
    ensures var c := Clean(re, s, v);
            c.Obj? && k in c.fields && c.fields[k] == Clean(re, FieldSchema(s, k), v.fields[k])
  {
    hide Valid;
    assert Keeps(re, s, k, v.fields[k]);
  }

  lemma FieldRefused(re: Regex, s: Schema, v: Json, k: string)
    requires v.Obj? && k in v.fields && k in s.Named() && !Valid(re, s.Named()[k], v.fields[k])
    ensures !Valid(re, s, v)
  {
    assert !FieldsValid(re, s, v.fields);
    assert !Fitting(re, s, v);
  }

  lemma FieldPutIn(re: Regex, s: Schema, u: Json, k: string, v: Json)
    requires SaneHere(re, s) && !s.Pinned() && s.anyOf.NoBranches? && Valid(re, s, u) && u.Obj? && k in u.fields
    requires k in s.Named() || s.additional.Typed?
    requires Valid(re, FieldSchema(s, k), v)
    ensures Valid(re, s, Obj(u.fields[k := v]))
  {
    var w := Obj(u.fields[k := v]);
    assert Fitting(re, s, u) && FieldsValid(re, s, u.fields);
    assert FieldsValid(re, s, w.fields);
    assert w.fields.Keys == u.fields.Keys;
    assert |w.fields| == |w.fields.Keys| && |u.fields| == |u.fields.Keys|;
    if s.types.Some? {
      KindOnly(s.types.value, u, w);
    }
    assert Fitting(re, s, w);
  }

  /** The provider that has `t` for the item `i`, and otherwise the consumer's own schemas. */
  function WithItemOf(s: Schema, i: nat, t: Schema): (r: Schema) {
    s.(items := if s.items.Tuple? && i < |s.items.schemas| then s.items.(schemas := s.items.schemas[i := t]) else Each(t),
       additional := if s.additional.Typed? then Unsaid else s.additional)
  }

  /** Items are compared one by one. */
  predicate Itemwise(s: Schema, i: nat) {
    s.items.Each? || (s.items.Tuple? && s.items.form == ItemsArray && i < |s.items.schemas|)
  }

  lemma ItemLifts(re: Regex, sub: Schema, i: nat, sup: Schema)
    requires Sane(re, sub) && Sane(re, sup) && sub.types.Some? && !sub.Pinned() && Itemwise(sub, i)
    requires Fits(ItemCompared(sub, i), sup)
    ensures var r := WithItemOf(sub, i, sup); Fits(sub, r) && Sane(re, r)
  {
    hide IsInherited;
    var r := WithItemOf(sub, i, sup);
    assert SaneHere(re, sub) && SaneHere(re, r);
    assert r.Named() == sub.Named();
    forall j | j in sub.Named()
      ensures Fits(sub.Named()[j], r.Named()[j])
    {
      FitsItself(sub.Named()[j]);
    }
    if sub.items.Tuple? {
      forall j | 0 <= j < |sub.items.schemas|
        ensures Fits(sub.items.schemas[j], r.items.schemas[j])
      {
        FitsItself(sub.items.schemas[j]);
      }
    }
    hide Sane, SaneHere, Fits;
    assert ObjectFits(sub, r) && ArrayFits(sub, r);
    StructureSuffices(sub, r);
  }

  /** A failure of the schema an item is compared by is one of the array that has the item. */
  lemma ItemBreaks(re: Regex, sub: Schema, u: Json, i: nat, sup: Schema, v: Json)
    requires Sane(re, sub) && sub.types.Some? && !sub.Pinned() && Valid(re, sub, u) && u.Arr? && i < |u.items|
    requires Itemwise(sub, i) && Breaks(re, ItemCompared(sub, i), sup, v)
    ensures Breaks(re, sub, WithItemOf(sub, i, sup), Arr(u.items[i := v]))
  {
    ItemLifts(re, sub, i, sup);
    hide Fits, Sane;
    var r, items := WithItemOf(sub, i, sup), u.items[i := v];
    ItemPutIn(re, sub, u, i, v);
    assert SaneHere(re, sub);
    var c := CleanItems(re, sub, items);
    assert Clean(re, sub, Arr(items)) == Arr(c);
    assert c[i] == Clean(re, ItemCompared(sub, i), v);
    assert ItemSchema(r, i) == sup;
    assert !ItemsValid(re, r, c);
    assert !Fitting(re, r, Arr(c));
  }

  lemma ItemPutIn(re: Regex, s: Schema, u: Json, i: nat, v: Json)
    requires SaneHere(re, s) && !s.Pinned() && s.anyOf.NoBranches? && Valid(re, s, u) && u.Arr? && i < |u.items|
    requires Itemwise(s, i) && Valid(re, ItemSchema(s, i), v)
    ensures Valid(re, s, Arr(u.items[i := v]))
  {
    var w := Arr(u.items[i := v]);
    assert Fitting(re, s, u) && ItemsValid(re, s, u.items);
    assert ItemsValid(re, s, w.items);
    if s.types.Some? {
      var j :| 0 <= j < |s.types.value| && HasKind(u, s.types.value[j]);
      assert HasKind(w, s.types.value[j]);
    }
    assert Fitting(re, s, w);
  }

  /** A consumer that does not keep the promise has a provider and a value that break it, however deep the cause lies. */
  lemma {:induction false} NotKept(re: Regex, sub: Schema) returns (sup: Schema, v: Json)
    requires Sane(re, sub) && BranchesKeep(re, sub) && !Keeping(re, sub)
    ensures Breaks(re, sub, sup, v)
    decreases sub
  {
    assert SaneHere(re, sub);
    if !StripsHere(sub) {
      LooseFits(re, sub);
      LooseFails(re, sub);
      return WithField(sub, "b", Number), Obj(map["b" := Str("x")]);
    }
    if !NamesHere(re, sub) {
      var u: Json, k: string :| Valid(re, sub, u) && u.Obj? && k in u.fields && IsInherited(k);
      UnnamedBreaks(re, sub, u, k);
      return Without(sub, k), u;
    }
    var t :| t < sub && Reached(re, sub, t) && !Keeping(re, t);
    var u :| Valid(re, sub, u) && ComparedFor(sub, t, u);
    sup, v := NotKeptInside(re, sub, t, u);
  }

  lemma {:induction false} NotKeptInside(re: Regex, sub: Schema, t: Schema, u: Json) returns (sup: Schema, v: Json)
    requires Sane(re, sub) && BranchesKeep(re, sub) && sub.types.Some? && !sub.Pinned()
    requires t < sub && !Keeping(re, t) && Valid(re, sub, u) && ComparedFor(sub, t, u)
    ensures Breaks(re, sub, sup, v)
    decreases sub, 0
  {
    hide IsInherited, Valid;
    AnythingKeeps(re);
    assert Reached(re, sub, t) && BranchesKeep(re, t);
    if u.Obj? {
      var k :| k in u.fields && t == FieldCompared(sub, k);
      var inner, x := NotKept(re, t);
      FieldBreaks(re, sub, u, k, inner, x);
      return WithFieldOf(sub, k, inner), Obj(u.fields[k := x]);
    } else {
      var i :| 0 <= i < |u.items| && t == ItemCompared(sub, i);
      var inner, x := NotKept(re, t);
      ItemBreaks(re, sub, u, i, inner, x);
      return WithItemOf(sub, i, inner), Arr(u.items[i := x]);
    }
  }

  lemma PromiseKept(re: Regex, sub: Schema)
    requires Sane(re, sub) && Keeping(re, sub)
    ensures Promise(re, sub)
  {
    forall sup, v | Fits(sub, sup) && Sane(re, sup) && Valid(re, sub, v)
      ensures Valid(re, sup, Clean(re, sub, v))
    {
      FitsSound(re, sub, sup, v);
    }
  }

  /**
   Exactly when does `fits` keep its promise for a consumer's schema: for every consumer of the fragment whose `anyOf`
   branches keep it, over all providers and all values, and with schemas nested as deep as they may be.
   */
  lemma KeepsExactly(re: Regex, sub: Schema)
    requires Sane(re, sub) && BranchesKeep(re, sub)
    ensures Promise(re, sub) <==> Keeping(re, sub)
  {
    if Keeping(re, sub) {
      PromiseKept(re, sub);
    } else {
      var sup, v := NotKept(re, sub);
      hide Fits, Sane, Valid, Clean, Sound;
      Unsound(re, sub, sup, v);
    }
  }

  /**
   Of one object schema, with inner schemas that strip and are plain: it must strip too, and if it is closed allow no value
   with an inherited name.
   */
  lemma StripsExactly(re: Regex, sub: Schema)
    requires Sane(re, sub) && StripsInside(sub) && PlainInside(sub)
    ensures Promise(re, sub) <==> StripsHere(sub) && NamesHere(re, sub)
  {
    InsideKeeps(re, sub);
    KeepsExactly(re, sub);
  }

  /** A provider schema the subtyping compares with `AnyObject` field by field. */
  predicate Structured(sup: Schema) {
    Fits(AnyObject, sup) && sup.anyOf.NoBranches? && sup.types.Some? && !sup.Pinned() && !sup.additional.Typed?
  }

  /** Each field a provider names takes any value at all. */
  ghost predicate TakesAnything(re: Regex, sup: Schema) {
    forall k, x :: k in sup.Named() ==> Valid(re, sup.Named()[k], x)
  }

  /** Of one provider, a consumer that says nothing of its fields needs exactly that. */
  lemma UnstrippedUnsound(re: Regex, sup: Schema)
    requires Structured(sup)
    ensures Sound(re, AnyObject, sup) <==> TakesAnything(re, sup)
  {
    if TakesAnything(re, sup) {
      forall v | Valid(re, AnyObject, v)
        ensures Valid(re, sup, Clean(re, AnyObject, v))
      {
        UnstrippedHolds(re, sup, v);
      }
    } else {
      var k, x :| k in sup.Named() && !Valid(re, sup.Named()[k], x);
      var v := Obj(map[k := x]);
      FieldRefused(re, sup, v, k);
      assert HasKind(v, AnyObject.types.value[0]);
      assert Clean(re, AnyObject, v) == v;
      Unsound(re, AnyObject, sup, v);
    }
  }

  lemma UnstrippedHolds(re: Regex, sup: Schema, v: Json)
    requires Structured(sup) && Valid(re, AnyObject, v)
    requires TakesAnything(re, sup)
    ensures Valid(re, sup, Clean(re, AnyObject, v))
  {
    assert Clean(re, AnyObject, v) == v;
    if sup.Bare() == AnyObject {
      NoteSame(re, sup, v);
    } else {
      assert SameLimits(Unlimited, sup.limits) && ObjectFits(AnyObject, sup) by {
        assert ObjectKind in AnyObject.types.value;
      }
      KindsFit(v, AnyObject.types.value, sup.types.value);
      LimitsFit(re, Unlimited, sup.limits, v);
      assert FieldsValid(re, sup, v.fields);
    }
  }

  lemma UnstrippedExample(re: Regex)
    ensures var sup := WithField(AnyObject, "b", Number);
            var v := Obj(map["b" := Str("x")]);
            && Fits(AnyObject, sup) && Sane(re, AnyObject) && Sane(re, sup)
            && Valid(re, AnyObject, v) && !Valid(re, sup, Clean(re, AnyObject, v))
  {
    assert SaneHere(re, AnyObject);
    assert AnyObject.types.value[0] == ObjectKind;
    LooseFits(re, AnyObject);
    LooseFails(re, AnyObject);
  }

  const ClosedObject: Schema := AnyObject.(additional := Closed)

  /** A closed consumer that names `constructor`: a closed provider that names nothing is taken to know it. */
  lemma InheritedExample(re: Regex)
    ensures var sub := ClosedObject.(properties := Properties(map["constructor" := Number]));
            var v := Obj(map["constructor" := Num(1.0)]);
            && Fits(sub, ClosedObject) && Sane(re, sub) && Sane(re, ClosedObject) && Strips(sub)
            && Valid(re, sub, v) && Clean(re, sub, v) == v && !Valid(re, ClosedObject, v)
  {
    var sub := ClosedObject.(properties := Properties(map["constructor" := Number]));
    var v := Obj(map["constructor" := Num(1.0)]);
    ConstructorFits(re, sub);
    ConstructorValid(re, sub, v);
    assert Strips(Number) && StripsHere(sub) && Strips(sub);
    hide Fits, Sane, IsInherited;
    FieldOfCleaned(re, sub, v, "constructor");
    assert Clean(re, Number, Num(1.0)) == Num(1.0);
    assert Clean(re, sub, v).fields == v.fields;
    UnknownRefused(re, ClosedObject, v, "constructor");
  }

  lemma ConstructorValid(re: Regex, sub: Schema, v: Json)
    requires sub == ClosedObject.(properties := Properties(map["constructor" := Number]))
    requires v == Obj(map["constructor" := Num(1.0)])
    ensures Valid(re, sub, v)
  {
    assert HasKind(v, sub.types.value[0]) && HasKind(Num(1.0), Number.types.value[0]);
    assert Fitting(re, Number, Num(1.0));
    assert FieldsValid(re, sub, v.fields);
    assert Fitting(re, sub, v);
  }

  lemma ConstructorFits(re: Regex, sub: Schema)
    requires sub == ClosedObject.(properties := Properties(map["constructor" := Number]))
    ensures Fits(sub, ClosedObject) && Sane(re, sub) && Sane(re, ClosedObject)
  {
    assert IsInherited("constructor");
    hide IsInherited;
    assert ObjectFits(sub, ClosedObject) && ArrayFits(sub, ClosedObject);
    StructureSuffices(sub, ClosedObject);
    NumberSane(re);
    assert SaneHere(re, sub) && SaneHere(re, ClosedObject);
  }

  // Contracts

  datatype Member = Method(args: Option<Schema>, result: Option<Schema>) | State(schema: Schema) | Opaque(id: string)

  datatype Description = Description(name: string, scope: string, host: Option<string>, input: Schema,
                                     variants: map<string, map<string, Member>>)

  predicate MemberCovers(offered: Member, wanted: Member) {
    match (offered, wanted)
    case (Method(args, result), Method(wantedArgs, wantedResult)) =>
      && args.Some? == wantedArgs.Some? && (args.Some? && wantedArgs.Some? ==> Fits(wantedArgs.value, args.value))
      && (wantedResult.Some? ==> result.Some? && Fits(result.value, wantedResult.value))
    case (State(schema), State(wantedSchema)) => Fits(schema, wantedSchema)
    case (Opaque(id), Opaque(wantedId)) => id == wantedId
    case _ => false
  }

  /** `coverage` finds no reason against the provider. */
  predicate Covers(provider: Description, consumer: Description) {
    && provider.name == consumer.name && provider.scope == consumer.scope && provider.host == consumer.host
    && Fits(consumer.input, provider.input)
    && forall kind :: kind in consumer.variants ==>
         if kind in provider.variants then
           forall m :: m in consumer.variants[kind] ==>
             m in provider.variants[kind] && MemberCovers(provider.variants[kind][m], consumer.variants[kind][m])
         // An inherited name is found, but has no members.
         else IsInherited(kind) && consumer.variants[kind] == map[]
  }

  /** What a direct call hands to the provider's check: stripped by the consumer's schema, then by the provider's. */
  function Sent(re: Regex, own: Schema, validated: Schema, args: Json): (r: Json) {
    Clean(re, validated, Clean(re, own, args))
  }

  /** Of an object's fields the provider sees those its own schema names, whatever the consumer's left in. */
  lemma SeesOnlyNamed(re: Regex, own: Schema, validated: Schema, args: Json)
    requires validated.anyOf.NoBranches? && validated.properties.Properties?
    requires validated.additional.Unsaid? || validated.additional.Closed?
    ensures var sent := Sent(re, own, validated, args);
            sent.Obj? ==> forall k :: k in sent.fields ==> k in validated.Named() && Clean(re, own, args).Obj? && k in Clean(re, own, args).fields
  {
  }

  /** Arguments a consumer's contract allows never fail the argument check of a provider that covers it. */
  lemma ArgumentsAccepted(re: Regex, provider: Description, consumer: Description, kind: string, m: string, args: Json)
    requires Covers(provider, consumer) && kind in consumer.variants && m in consumer.variants[kind]
    requires var wanted := consumer.variants[kind][m];
             wanted.Method? && wanted.args.Some? && Sane(re, wanted.args.value) && Keeping(re, wanted.args.value)
             && Valid(re, wanted.args.value, args)
    requires var offered := provider.variants[kind][m];
             offered.Method? && offered.args.Some? ==> Sane(re, offered.args.value)
    ensures var offered := provider.variants[kind][m];
            && offered.Method? && offered.args.Some?
            && Valid(re, offered.args.value, Sent(re, consumer.variants[kind][m].args.value, offered.args.value, args))
  {
    var own, theirs := consumer.variants[kind][m].args.value, provider.variants[kind][m].args.value;
    assert MemberCovers(provider.variants[kind][m], consumer.variants[kind][m]);
    FitsSound(re, own, theirs, args);
    CleanValid(re, theirs, Clean(re, own, args));
  }

  /** A result a covering provider's contract allows is one the consumer's allows, without what the provider does not know. */
  lemma ResultsAccepted(re: Regex, provider: Description, consumer: Description, kind: string, m: string, value: Json)
    requires Covers(provider, consumer) && kind in consumer.variants && m in consumer.variants[kind]
    requires var wanted := consumer.variants[kind][m]; wanted.Method? && wanted.result.Some? && Sane(re, wanted.result.value)
    requires var offered := provider.variants[kind][m];
             offered.Method? && offered.result.Some? ==>
               Sane(re, offered.result.value) && Keeping(re, offered.result.value) && Valid(re, offered.result.value, value)
    ensures var offered := provider.variants[kind][m];
            && offered.Method? && offered.result.Some?
            && Valid(re, consumer.variants[kind][m].result.value, Clean(re, offered.result.value, value))
  {
    assert MemberCovers(provider.variants[kind][m], consumer.variants[kind][m]);
    FitsSound(re, provider.variants[kind][m].result.value, consumer.variants[kind][m].result.value, value);
  }

  /** So are the values of a state member. */
  lemma StatesAccepted(re: Regex, provider: Description, consumer: Description, kind: string, m: string, value: Json)
    requires Covers(provider, consumer) && kind in consumer.variants && m in consumer.variants[kind]
    requires var wanted := consumer.variants[kind][m]; wanted.State? && Sane(re, wanted.schema)
    requires var offered := provider.variants[kind][m];
             offered.State? ==> Sane(re, offered.schema) && Keeping(re, offered.schema) && Valid(re, offered.schema, value)
    ensures var offered := provider.variants[kind][m];
            offered.State? && Valid(re, consumer.variants[kind][m].schema, Clean(re, offered.schema, value))
  {
    assert MemberCovers(provider.variants[kind][m], consumer.variants[kind][m]);
    FitsSound(re, provider.variants[kind][m].schema, consumer.variants[kind][m].schema, value);
  }

  /** What keeps one member from being covered by another. */
  predicate Lacks(offered: Member, wanted: Member) {
    match wanted
    case Method(args, result) =>
      !offered.Method? || args.Some? != offered.args.Some?
      || (args.Some? && offered.args.Some? && !Fits(args.value, offered.args.value))
      || (result.Some? && (offered.result.None? || !Fits(offered.result.value, result.value)))
    case State(schema) => !offered.State? || !Fits(offered.schema, schema)
    case Opaque(id) => !offered.Opaque? || offered.id != id
  }

  /** Another type, place or input, a variant or member that is missing, or one that falls short: the provider is refused. */
  lemma NotCovered(provider: Description, consumer: Description, kind: string, m: string)
    requires kind in consumer.variants && m in consumer.variants[kind]
    requires provider.name != consumer.name || provider.scope != consumer.scope || provider.host != consumer.host
             || !Fits(consumer.input, provider.input) || kind !in provider.variants || m !in provider.variants[kind]
             || Lacks(provider.variants[kind][m], consumer.variants[kind][m])
    ensures !Covers(provider, consumer)
  {
  }

  /** And refused for nothing else: a provider that offers what the consumer wants is accepted, whatever more it offers. */
  lemma CoveredOtherwise(provider: Description, consumer: Description)
    requires provider.name == consumer.name && provider.scope == consumer.scope && provider.host == consumer.host
    requires Fits(consumer.input, provider.input)
    requires forall kind :: kind in consumer.variants ==> kind in provider.variants
    requires forall kind, m :: kind in consumer.variants && m in consumer.variants[kind] ==>
               m in provider.variants[kind] && !Lacks(provider.variants[kind][m], consumer.variants[kind][m])
    ensures Covers(provider, consumer)
  {
  }

  // Values that are not stripped

  /** Every consumer schema this one fits allows the value as it is. */
  ghost predicate TakenAsIs(re: Regex, s: Schema, v: Json) {
    forall wanted :: Fits(s, wanted) && Sane(re, wanted) ==> Valid(re, wanted, v)
  }

  /** A schema nothing is valid under. */
  const Nothing: Schema := Anything.(enumerated := Some([]))

  /** An open object schema whose named fields' own values have nothing to strip. */
  ghost predicate OpenWith(re: Regex, s: Schema, v: Json) {
    && Sane(re, s) && s.types.Some? && !s.Pinned() && s.additional.Unsaid? && s.anyOf.NoBranches?
    && Valid(re, s, v) && v.Obj?
    && forall k :: k in v.fields && k in s.Named() ==>
         Keeping(re, s.Named()[k]) && Clean(re, s.Named()[k], v.fields[k]) == v.fields[k]
  }

  /**
   Results and state values reach the consumer with all their fields (object.ts:1611). An open provider schema promises
   the consumer nothing of those it does not name, so a value is fit for every consumer exactly if it has no such field,
   the names every object inherits aside.
   */
  lemma AsIsExactly(re: Regex, s: Schema, v: Json)
    requires OpenWith(re, s, v)
    ensures TakenAsIs(re, s, v) <==> forall k :: k in v.fields ==> k in s.Named() || IsInherited(k)
  {
    hide IsInherited;
    if k :| k in v.fields && k !in s.Named() && !IsInherited(k) {
      UnknownBreaks(re, s, v, k);
    } else {
      forall wanted | Fits(s, wanted) && Sane(re, wanted)
        ensures Valid(re, wanted, v)
      {
        KnownTaken(re, s, wanted, v);
      }
    }
  }

  /** A provider that names `a` returns a `b` as well; a consumer that names `b` a number is covered, and gets a string. */
  lemma ResultExample(re: Regex)
    ensures var offered, wanted := WithField(AnyObject, "a", Number), WithField(AnyObject, "b", Number);
            var v := Obj(map["b" := Str("x")]);
            && Fits(offered, wanted) && Sane(re, offered) && Sane(re, wanted)
            && Valid(re, offered, v) && !Valid(re, wanted, v)
  {
    OtherNameFits(re, "a", "b");
    OtherNameTaken(re, "a", "b", Str("x"));
    NoNumber(re, "x");
    hide Fits, Sane, Valid;
    FieldRefused(re, WithField(AnyObject, "b", Number), Obj(map["b" := Str("x")]), "b");
  }

  lemma NoNumber(re: Regex, s: string)
    ensures !Valid(re, Number, Str(s))
  {
    assert !HasKind(Str(s), Number.types.value[0]);
    assert !Fitting(re, Number, Str(s));
  }

  lemma OtherNameFits(re: Regex, a: string, b: string)
    requires a != b && !IsInherited(b)
    ensures var offered, wanted := WithField(AnyObject, a, Number), WithField(AnyObject, b, Number);
            Fits(offered, wanted) && Sane(re, offered) && Sane(re, wanted)
  {
    hide IsInherited;
    var offered, wanted := WithField(AnyObject, a, Number), WithField(AnyObject, b, Number);
    NumberSane(re);
    assert SaneHere(re, offered) && SaneHere(re, wanted);
    assert ObjectFits(offered, wanted) && ArrayFits(offered, wanted);
    StructureSuffices(offered, wanted);
  }

  lemma OtherNameTaken(re: Regex, a: string, b: string, v: Json)
    requires a != b
    ensures Valid(re, WithField(AnyObject, a, Number), Obj(map[b := v]))
  {
    var offered, value := WithField(AnyObject, a, Number), Obj(map[b := v]);
    assert HasKind(value, offered.types.value[0]);
    assert FieldsValid(re, offered, value.fields);
  }

  /** The consumer that names the field, and allows nothing there. */
  lemma UnknownBreaks(re: Regex, s: Schema, v: Json, k: string)
    requires OpenWith(re, s, v) && k in v.fields && k !in s.Named() && !IsInherited(k)
    ensures !TakenAsIs(re, s, v)
  {
    hide IsInherited, Keeping, Clean;
    var wanted := s.(properties := Properties(s.Named()[k := Nothing]), items := NoItems);
    assert SaneHere(re, s) && SaneHere(re, wanted) && SaneHere(re, Nothing) && Sane(re, Nothing);
    forall j | j in s.Named()
      ensures Fits(s.Named()[j], wanted.Named()[j])
    {
      FitsItself(s.Named()[j]);
    }
    assert Sane(re, wanted);
    hide Sane, SaneHere;
    assert ArrayFits(s, wanted) && ObjectFits(s, wanted);
    StructureSuffices(s, wanted);
    assert !Valid(re, Nothing, v.fields[k]);
    FieldRefused(re, wanted, v, k);
  }

  lemma {:induction false} KnownTaken(re: Regex, s: Schema, wanted: Schema, v: Json)
    requires OpenWith(re, s, v) && Fits(s, wanted) && Sane(re, wanted)
    requires forall k :: k in v.fields ==> k in s.Named() || IsInherited(k)
    ensures Valid(re, wanted, v)
    decreases wanted
  {
    if wanted.Bare() == Anything || s.Bare() == wanted.Bare() {
      NoteSame(re, s, v);
      NoteSame(re, wanted, v);
    } else if wanted.anyOf.AnyOf? {
      var i :| 0 <= i < |wanted.anyOf.branches| && Fits(s, wanted.anyOf.branches[i]);
      KnownTaken(re, s, wanted.anyOf.branches[i], v);
      BranchSuffices(re, wanted, i, v);
    } else {
      KnownStructure(re, s, wanted, v);
    }
  }

  lemma KnownStructure(re: Regex, s: Schema, wanted: Schema, v: Json)
    requires OpenWith(re, s, v) && Fits(s, wanted) && Sane(re, wanted) && wanted.anyOf.NoBranches?
    requires wanted.Bare() != Anything && s.Bare() != wanted.Bare()
    requires forall k :: k in v.fields ==> k in s.Named() || IsInherited(k)
    ensures Valid(re, wanted, v)
  {
    hide IsInherited, Keeping, Clean;
    assert Fitting(re, s, v) && FieldsValid(re, s, v.fields);
    var j :| 0 <= j < |s.types.value| && HasKind(v, s.types.value[j]);
    assert s.types.value[j] == ObjectKind && ObjectFits(s, wanted);
    assert !wanted.Pinned() && !wanted.additional.Typed? && !wanted.additional.Closed?;
    KindsFit(v, s.types.value, wanted.types.value);
    LimitsFit(re, s.limits, wanted.limits, v);
    forall k | k in v.fields && k in wanted.Named()
      ensures Valid(re, wanted.Named()[k], v.fields[k])
    {
      KnownField(re, s, wanted, v, k);
    }
    assert FieldsValid(re, wanted, v.fields);
    assert forall k :: k in wanted.required ==> k in s.required && k in v.fields;
    assert Fitting(re, wanted, v);
  }

  lemma KnownField(re: Regex, s: Schema, wanted: Schema, v: Json, k: string)
    requires OpenWith(re, s, v) && ObjectFits(s, wanted) && Sane(re, wanted) && k in v.fields && k in wanted.Named()
    requires k in s.Named() || IsInherited(k)
    ensures Valid(re, wanted.Named()[k], v.fields[k])
  {
    hide IsInherited;
    assert Fitting(re, s, v) && FieldsValid(re, s, v.fields);
    if k in s.Named() {
      hide Keeping, Clean, Valid;
      FitsSound(re, s.Named()[k], wanted.Named()[k], v.fields[k]);
    } else {
      AnythingKeeps(re);
      AnythingValid(re, v.fields[k]);
      hide Keeping, Clean, Valid;
      FitsSound(re, Anything, wanted.Named()[k], v.fields[k]);
    }
  }

  // Cleaning in place

  /** `cleanFrom` as it runs: a fresh copy, updated item by item and field by field. */
  method CleanFrom(re: Regex, s: Schema, value: Json) returns (r: Json)
    ensures r == Clean(re, s, value)
    decreases s, 1
  {
    if s.anyOf.AnyOf? {
      var branches := s.anyOf.branches;
      for n := 0 to |branches|
        invariant CleanAny(re, s, branches, value) == CleanAny(re, s, branches[n..], value)
      {
        var candidate := CleanFrom(re, branches[n], value);
        if Valid(re, branches[n], candidate) {
          return candidate;
        }
        assert branches[n..][1..] == branches[n + 1..];
      }
      return value;
    }
    match value
    case Arr(items) => var cleaned := CleanArray(re, s, items); return Arr(cleaned);
    case Obj(fields) => r := CleanObject(re, s, fields);
    case _ => return value;
  }

  method CleanArray(re: Regex, s: Schema, items: seq<Json>) returns (r: seq<Json>)
    ensures r == CleanItems(re, s, items)
    decreases s, 0
  {
    if s.items.NoItems? {
      return items;
    }
    r := if s.items.Tuple? && |s.items.schemas| < |items| then items[..|s.items.schemas|] else items;
    for i := 0 to |r|
      invariant |r| == |CleanItems(re, s, items)|
      invariant r[..i] == CleanItems(re, s, items)[..i]
      invariant forall j :: i <= j < |r| ==> r[j] == items[j]
    {
      var item := CleanFrom(re, if s.items.Each? then s.items.schema else s.items.schemas[i], r[i]);
      r := r[i := item];
    }
  }

  method CleanObject(re: Regex, s: Schema, fields: map<string, Json>) returns (r: Json)
    requires s.anyOf.NoBranches?
    ensures r == Clean(re, s, Obj(fields))
    decreases s, 0
  {
    if s.properties.NoProperties? && !s.additional.Typed? {
      return Obj(fields);
    }
    var left, todo := fields, fields.Keys;
    while todo != {}
      invariant todo <= fields.Keys
      invariant forall k :: k in left <==> k in fields && (k in todo || Keeps(re, s, k, fields[k]))
      invariant forall k :: k in left ==>
                  left[k] == if k in todo then fields[k] else CleanField(re, s, k, fields[k])
      decreases |todo|
    {
      var k :| k in todo;
      todo := todo - {k};
      if Keeps(re, s, k, left[k]) {
        var field := left[k];
        if k in s.Named() || s.additional.Typed? {
          field := CleanFrom(re, if k in s.Named() then s.Named()[k] else s.additional.schema, field);
        }
        left := left[k := field];
      } else {
        left := left - {k};
      }
    }
    r := Obj(left);
  }
}
