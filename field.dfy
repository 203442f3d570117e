/**
 * Runtime form fields: the option record, the option functions that build
 * it one after another, and the typed, never-failing lookup of render
 * attributes.
 */
module Form {
  import opened Wrappers

  /** One choice of a select field. */
  datatype SelectOption = SelectOption(labelText: string, value: string)

  /** A validation rule attached at declaration time. Its meaning belongs to
      another component, so the model carries it as an uninspected token. */
  datatype ValidationRule = ValidationRule(token: string)

  /** The closed set of dynamic values that may be stored in an `any` map. */
  datatype Value =
    | Str(s: string)
    | Int(i: int)
    | Bool(b: bool)
    | SelectOptionList(choices: seq<SelectOption>)

  /** The dynamic type of a stored value, as a Go type assertion sees it. */
  datatype Shape = StringShape | IntShape | BoolShape | SelectOptionsShape

  function ShapeOf(v: Value): Shape {
    match v
    case Str(_) => StringShape
    case Int(_) => IntShape
    case Bool(_) => BoolShape
    case SelectOptionList(_) => SelectOptionsShape
  }

  // The type assertions `x.(T)` for the shapes above: each succeeds exactly
  // when the value has that shape, and then gives back what was stored.

  function AsString(v: Value): (r: Option<string>)
    ensures r.Some? <==> ShapeOf(v) == StringShape
    ensures r.Some? ==> v == Str(r.value)
  {
    if v.Str? then Some(v.s) else None
  }

  function AsInt(v: Value): (r: Option<int>)
    ensures r.Some? <==> ShapeOf(v) == IntShape
    ensures r.Some? ==> v == Int(r.value)
  {
    if v.Int? then Some(v.i) else None
  }

  function AsBool(v: Value): (r: Option<bool>)
    ensures r.Some? <==> ShapeOf(v) == BoolShape
    ensures r.Some? ==> v == Bool(r.value)
  {
    if v.Bool? then Some(v.b) else None
  }

  function AsSelectOptions(v: Value): (r: Option<seq<SelectOption>>)
    ensures r.Some? <==> ShapeOf(v) == SelectOptionsShape
    ensures r.Some? ==> v == SelectOptionList(r.value)
  {
    if v.SelectOptionList? then Some(v.choices) else None
  }

  /** A string-keyed map of dynamic values; `None` is Go's nil map. */
  type AnyMap = Option<map<string, Value>>

  /** What reading a map sees: a nil map reads as empty. */
  function Entries(m: AnyMap): map<string, Value> {
    if m.Some? then m.value else map[]
  }

  /** The comma-ok read `v, exists := m[k]`. */
  function Lookup(m: AnyMap, k: string): (r: Option<Value>)
    ensures r.Some? <==> k in Entries(m)
    ensures r.Some? ==> Entries(m)[k] == r.value
  {
    if m.Some? && k in m.value then Some(m.value[k]) else None
  }

  /** Stores `v` under `k`, a nil map being replaced by an empty one first. */
  function Insert(m: AnyMap, k: string, v: Value): (r: map<string, Value>)
    ensures k in r && r[k] == v
    ensures r.Keys == Entries(m).Keys + {k}
    ensures forall j :: j in Entries(m) && j != k ==> r[j] == Entries(m)[j]
  {
    Entries(m)[k := v]
  }

  /** The reserved options key under which select choices are stored. */
  const SelectOptionsKey: string := "_select_options"

  /** The value of a FieldOptions record. */
  datatype Config = Config(
    labelText: string,
    fieldType: string,
    required: bool,
    placeholder: string,
    description: string,
    attributes: AnyMap,
    options: AnyMap,
    validation: seq<ValidationRule>)

  /** The record NewFieldOptions starts from. */
  function Defaults(): Config {
    Config("", "text", false, "", "", Some(map[]), Some(map[]), [])
  }

  /** The option functions, one constructor per With* builder. */
  datatype OptionFunc =
    | WithLabel(labelText: string)
    | WithType(fieldType: string)
    | WithRequired(required: bool)
    | WithPlaceholder(placeholder: string)
    | WithDescription(description: string)
    | WithAttributes(attributes: AnyMap)
    | WithAttribute(name: string, value: Value)
    | WithValidation(rules: seq<ValidationRule>)
    | WithOptions(options: AnyMap)
    | WithSelectOptions(choices: seq<SelectOption>)

  /** The parts of a record, one per field of FieldOptions. */
  datatype Part =
    | LabelPart | TypePart | RequiredPart | PlaceholderPart | DescriptionPart
    | AttributesPart | OptionsPart | ValidationPart

  /** The one part an option function writes. */
  function Target(f: OptionFunc): Part {
    match f
    case WithLabel(_) => LabelPart
    case WithType(_) => TypePart
    case WithRequired(_) => RequiredPart
    case WithPlaceholder(_) => PlaceholderPart
    case WithDescription(_) => DescriptionPart
    case WithAttributes(_) => AttributesPart
    case WithAttribute(_, _) => AttributesPart
    case WithValidation(_) => ValidationPart
    case WithOptions(_) => OptionsPart
    case WithSelectOptions(_) => OptionsPart
  }

  /** Whether two records hold the same thing in part `p`. */
  predicate Agree(a: Config, b: Config, p: Part) {
    match p
    case LabelPart => a.labelText == b.labelText
    case TypePart => a.fieldType == b.fieldType
    case RequiredPart => a.required == b.required
    case PlaceholderPart => a.placeholder == b.placeholder
    case DescriptionPart => a.description == b.description
    case AttributesPart => a.attributes == b.attributes
    case OptionsPart => a.options == b.options
    case ValidationPart => a.validation == b.validation
  }

  /** The setters that overwrite their whole part: every one except the two
      single-key setters, which add one key to the map already there. */
  predicate Replaces(f: OptionFunc) {
    !f.WithAttribute? && !f.WithSelectOptions?
  }

  /** The effect of applying one option function to a record. */
  function Step(c: Config, f: OptionFunc): (r: Config)
    ensures forall p :: p != Target(f) ==> Agree(r, c, p)
  {
    match f
    case WithLabel(l) => c.(labelText := l)
    case WithType(t) => c.(fieldType := t)
    case WithRequired(b) => c.(required := b)
    case WithPlaceholder(s) => c.(placeholder := s)
    case WithDescription(s) => c.(description := s)
    case WithAttributes(m) => c.(attributes := m)
    case WithAttribute(k, v) => c.(attributes := Some(Insert(c.attributes, k, v)))
    case WithValidation(rs) => c.(validation := rs)
    case WithOptions(m) => c.(options := m)
    case WithSelectOptions(os) =>
      c.(options := Some(Insert(c.options, SelectOptionsKey, SelectOptionList(os))))
  }

  /** The option functions applied to `c` in argument order. */
  function ApplyAll(c: Config, fs: seq<OptionFunc>): Config
    decreases |fs|
  {
    if fs == [] then c else Step(ApplyAll(c, fs[..|fs| - 1]), fs[|fs| - 1])
  }

  /** Applying two lists one after the other is applying their concatenation. */
  lemma {:induction false} ApplyAllConcat(c: Config, fs: seq<OptionFunc>, gs: seq<OptionFunc>)
    ensures ApplyAll(c, fs + gs) == ApplyAll(ApplyAll(c, fs), gs)
    decreases |gs|
  {
    if gs == [] {
      assert fs + gs == fs;
    } else {
      var n := |gs| - 1;
      assert (fs + gs)[..|fs + gs| - 1] == fs + gs[..n];
      ApplyAllConcat(c, fs, gs[..n]);
    }
  }

  /** No function of `fs` writes part `p`. */
  predicate Untouched(fs: seq<OptionFunc>, p: Part) {
    forall i :: 0 <= i < |fs| ==> Target(fs[i]) != p
  }

  /** Each option function changes only its own part, so a list of them
      that never writes `p` leaves `p` as it was. */
  lemma {:induction false} ApplyAllFrame(c: Config, fs: seq<OptionFunc>, p: Part)
    requires Untouched(fs, p)
    ensures Agree(ApplyAll(c, fs), c, p)
    decreases |fs|
  {
    if fs != [] {
      var n := |fs| - 1;
      assert Untouched(fs[..n], p) by {
        forall i | 0 <= i < n ensures Target(fs[..n][i]) != p {
          assert fs[..n][i] == fs[i];
        }
      }
      ApplyAllFrame(c, fs[..n], p);
    }
  }

  /** Last wins: after a replacing setter `f`, followed only by functions that
      leave its part alone, the part holds what `f` alone writes, whatever the
      starting record and whatever was applied before `f`. */
  lemma LastWins(c1: Config, c2: Config, fs: seq<OptionFunc>, f: OptionFunc, gs: seq<OptionFunc>)
    requires Replaces(f)
    requires Untouched(gs, Target(f))
    ensures Agree(ApplyAll(c1, fs + [f] + gs), ApplyAll(c2, [f]), Target(f))
  {
    ApplyAllConcat(c1, fs + [f], gs);
    ApplyAllFrame(ApplyAll(c1, fs + [f]), gs, Target(f));
    assert (fs + [f])[..|fs|] == fs;
    assert [f][..0] == [];
  }

  /** A bulk attribute map is replaced, a single attribute is added to it,
      and a later bulk map discards everything set before. */
  lemma AttributesReplaceThenMerge(c: Config, m: map<string, Value>, v: Value, m2: AnyMap)
    ensures ApplyAll(c, [WithAttributes(Some(m)), WithAttribute("x", v)]).attributes
            == Some(m["x" := v])
    ensures ApplyAll(c, [WithAttributes(Some(m)), WithAttribute("x", v), WithAttributes(m2)]).attributes
            == m2
  {
    var fs := [WithAttributes(Some(m)), WithAttribute("x", v)];
    assert fs[..1] == [WithAttributes(Some(m))];
    assert [WithAttributes(Some(m))][..0] == [];
    assert (fs + [WithAttributes(m2)])[..2] == fs;
    assert Insert(Some(m), "x", v) == m["x" := v];
  }

  /** The two maps of a record. */
  datatype MapName = AttributesMap | OptionsMap

  function MapOf(c: Config, n: MapName): AnyMap {
    match n
    case AttributesMap => c.attributes
    case OptionsMap => c.options
  }

  /** Whether `g` may change what map `n` holds under `k`: it replaces that
      map wholesale, or it writes key `k` into it. */
  predicate Writes(g: OptionFunc, n: MapName, k: string) {
    match n
    case AttributesMap => g.WithAttributes? || (g.WithAttribute? && g.name == k)
    case OptionsMap => g.WithOptions? || (g.WithSelectOptions? && k == SelectOptionsKey)
  }

  /** Single-key setters keep every other key: an entry survives every
      function that neither replaces its map nor writes its key. */
  lemma {:induction false} EntrySurvives(c: Config, gs: seq<OptionFunc>, n: MapName, k: string)
    requires forall i :: 0 <= i < |gs| ==> !Writes(gs[i], n, k)
    ensures Lookup(MapOf(ApplyAll(c, gs), n), k) == Lookup(MapOf(c, n), k)
    decreases |gs|
  {
    if gs != [] {
      var last := |gs| - 1;
      assert forall i :: 0 <= i < last ==> gs[..last][i] == gs[i];
      EntrySurvives(c, gs[..last], n, k);
      var before := ApplyAll(c, gs[..last]);
      assert !Writes(gs[last], n, k);
      match gs[last]
      case WithAttribute(j, v) =>
        if n == AttributesMap {
          assert j != k;
        }
      case WithSelectOptions(_) =>
        if n == OptionsMap {
          assert k != SelectOptionsKey;
        }
      case _ =>
    }
  }

  /** A field: a name with its options embedded by value. */
  datatype Field = Field(name: string, config: Config) {
    predicate IsFile() {
      config.fieldType == "file"
    }
  }

  /** The field NewField builds. */
  function FieldOf(name: string, funcs: seq<OptionFunc>): Field {
    Field(name, ApplyAll(Defaults(), funcs))
  }

  /** The argument of the last `WithType` in `fs`, or `start` if there is none. */
  function LastType(fs: seq<OptionFunc>, start: string): string
    decreases |fs|
  {
    if fs == [] then start
    else if fs[|fs| - 1].WithType? then fs[|fs| - 1].fieldType
    else LastType(fs[..|fs| - 1], start)
  }

  /** The type of a built record is the last type set, or the starting one. */
  lemma {:induction false} TypeIsLastWithType(c: Config, fs: seq<OptionFunc>)
    ensures ApplyAll(c, fs).fieldType == LastType(fs, c.fieldType)
    decreases |fs|
  {
    if fs != [] {
      TypeIsLastWithType(c, fs[..|fs| - 1]);
    }
  }

  /** A built field is a file field exactly when the last type set is "file". */
  lemma IsFileOfBuiltField(name: string, fs: seq<OptionFunc>)
    ensures FieldOf(name, fs).IsFile() <==> LastType(fs, "text") == "file"
  {
    TypeIsLastWithType(Defaults(), fs);
  }

  /** A field whose type is never set keeps "text" and is not a file field. */
  lemma DefaultTypedFieldIsNotFile(name: string, fs: seq<OptionFunc>)
    requires Untouched(fs, TypePart)
    ensures FieldOf(name, fs).config.fieldType == "text"
    ensures !FieldOf(name, fs).IsFile()
  {
    ApplyAllFrame(Defaults(), fs, TypePart);
  }

  /** What one render call sees: the field, its bound value, an error message
      and a display class. */
  datatype FieldContext = FieldContext(field: Field, value: string, error: string, className: string) {
    function Type(): string {
      field.config.fieldType
    }

    function Attributes(): AnyMap {
      field.config.attributes
    }
  }

  /** Reads attribute `name` at the shape `proj` selects; a missing key, a nil
      map or a value of another shape gives `defaultValue`. */
  function GetFieldOption<T>(ctx: FieldContext, name: string, proj: Value -> Option<T>, defaultValue: T): (r: T)
    ensures Lookup(ctx.Attributes(), name).None? ==> r == defaultValue
    ensures Lookup(ctx.Attributes(), name).Some? ==>
              var stored := Lookup(ctx.Attributes(), name).value;
              r == if proj(stored).Some? then proj(stored).value else defaultValue
  {
    match Lookup(ctx.Attributes(), name)
    case None => defaultValue
    case Some(raw) =>
      match proj(raw)
      case None => defaultValue
      case Some(attr) => attr
  }

  /** WithAttribute round trip: what the last write of key `k` stored is read
      back at a matching shape, and the default is read at any other shape. */
  lemma AttributeRoundTrip<T>(ctx: FieldContext, c: Config, fs: seq<OptionFunc>, k: string, v: Value,
                              gs: seq<OptionFunc>, proj: Value -> Option<T>, defaultValue: T)
    requires ctx.field.config == ApplyAll(c, fs + [WithAttribute(k, v)] + gs)
    requires forall i :: 0 <= i < |gs| ==> !Writes(gs[i], AttributesMap, k)
    ensures GetFieldOption(ctx, k, proj, defaultValue) == if proj(v).Some? then proj(v).value else defaultValue
  {
    ApplyAllConcat(c, fs + [WithAttribute(k, v)], gs);
    EntrySurvives(ApplyAll(c, fs + [WithAttribute(k, v)]), gs, AttributesMap, k);
    assert (fs + [WithAttribute(k, v)])[..|fs|] == fs;
  }

  /** A key that no function of a new field ever set reads as the default. */
  lemma UnsetAttributeGivesDefault<T>(ctx: FieldContext, fs: seq<OptionFunc>, k: string,
                                      proj: Value -> Option<T>, defaultValue: T)
    requires ctx.field.config == ApplyAll(Defaults(), fs)
    requires forall i :: 0 <= i < |fs| ==> !Writes(fs[i], AttributesMap, k)
    ensures GetFieldOption(ctx, k, proj, defaultValue) == defaultValue
  {
    EntrySurvives(Defaults(), fs, AttributesMap, k);
  }

  /** A stored string is read back as a string, and as the default when an
      integer is asked for. */
  lemma MismatchedShapeGivesDefault(ctx: FieldContext)
    requires ctx.field == FieldOf("rows", [WithAttribute("rows", Str("5"))])
    ensures GetFieldOption(ctx, "rows", AsString, "") == "5"
    ensures GetFieldOption(ctx, "rows", AsInt, 3) == 3
  {
    assert [] + [WithAttribute("rows", Str("5"))] + [] == [WithAttribute("rows", Str("5"))];
    AttributeRoundTrip(ctx, Defaults(), [], "rows", Str("5"), [], AsString, "");
    AttributeRoundTrip(ctx, Defaults(), [], "rows", Str("5"), [], AsInt, 3);
  }

  /** The select choices, as the source reads them: from the ATTRIBUTES map
      under the reserved key. */
  function GetSelectOptions(ctx: FieldContext, defaultValue: seq<SelectOption>): (r: seq<SelectOption>)
    ensures Lookup(ctx.Attributes(), SelectOptionsKey) == Some(SelectOptionList(r)) || r == defaultValue
    ensures Lookup(ctx.field.config.attributes, SelectOptionsKey).None? ==> r == defaultValue
    ensures Lookup(ctx.Attributes(), SelectOptionsKey).Some? &&
            Lookup(ctx.Attributes(), SelectOptionsKey).value.SelectOptionList? ==>
              r == Lookup(ctx.Attributes(), SelectOptionsKey).value.choices
  {
    GetFieldOption(ctx, SelectOptionsKey, AsSelectOptions, defaultValue)
  }

  /** WithSelectOptions stores its choices in the OPTIONS map, which
      GetSelectOptions does not read: on a field whose attributes were never
      set, the stored choices are there and the default is returned. */
  lemma SelectOptionsNotReadBack(ctx: FieldContext, fs: seq<OptionFunc>, choices: seq<SelectOption>,
                                 defaultValue: seq<SelectOption>)
    requires ctx.field.config == ApplyAll(Defaults(), fs + [WithSelectOptions(choices)])
    requires Untouched(fs, AttributesPart)
    ensures Lookup(ctx.field.config.options, SelectOptionsKey) == Some(SelectOptionList(choices))
    ensures GetSelectOptions(ctx, defaultValue) == defaultValue
  {
    var all := fs + [WithSelectOptions(choices)];
    assert Untouched(all, AttributesPart) by {
      forall i | 0 <= i < |all| ensures Target(all[i]) != AttributesPart {
        if i < |fs| { assert all[i] == fs[i]; }
      }
    }
    ApplyAllFrame(Defaults(), all, AttributesPart);
    assert all[..|fs|] == fs;
  }

  /** The concrete case: two choices set, the empty default read back. */
  lemma SelectOptionsCounterexample(ctx: FieldContext)
    requires ctx.field == FieldOf("colour", [WithSelectOptions([SelectOption("Red", "red"), SelectOption("Blue", "blue")])])
    ensures GetSelectOptions(ctx, []) == []
    ensures GetSelectOptions(ctx, []) != [SelectOption("Red", "red"), SelectOption("Blue", "blue")]
  {
    var f := WithSelectOptions([SelectOption("Red", "red"), SelectOption("Blue", "blue")]);
    assert [] + [f] == [f];
    SelectOptionsNotReadBack(ctx, [], f.choices, []);
  }

  /** The evidently intended reader: the choices from the OPTIONS map, where
      WithSelectOptions puts them. */
  function GetSelectOptionsFromOptions(ctx: FieldContext, defaultValue: seq<SelectOption>): (r: seq<SelectOption>)
    ensures Lookup(ctx.field.config.options, SelectOptionsKey) == Some(SelectOptionList(r)) || r == defaultValue
    ensures Lookup(ctx.field.config.options, SelectOptionsKey).None? ==> r == defaultValue
    ensures Lookup(ctx.field.config.options, SelectOptionsKey).Some? &&
            Lookup(ctx.field.config.options, SelectOptionsKey).value.SelectOptionList? ==>
              r == Lookup(ctx.field.config.options, SelectOptionsKey).value.choices
  {
    match Lookup(ctx.field.config.options, SelectOptionsKey)
    case Some(SelectOptionList(choices)) => choices
    case _ => defaultValue
  }

  /** Select-options round trip for the intended reader: the last choices
      set come back, in declaration order. */
  lemma SelectOptionsRoundTrip(ctx: FieldContext, c: Config, fs: seq<OptionFunc>, choices: seq<SelectOption>,
                               gs: seq<OptionFunc>, defaultValue: seq<SelectOption>)
    requires ctx.field.config == ApplyAll(c, fs + [WithSelectOptions(choices)] + gs)
    requires forall i :: 0 <= i < |gs| ==> !Writes(gs[i], OptionsMap, SelectOptionsKey)
    ensures GetSelectOptionsFromOptions(ctx, defaultValue) == choices
  {
    ApplyAllConcat(c, fs + [WithSelectOptions(choices)], gs);
    EntrySurvives(ApplyAll(c, fs + [WithSelectOptions(choices)]), gs, OptionsMap, SelectOptionsKey);
    assert (fs + [WithSelectOptions(choices)])[..|fs|] == fs;
  }

  /** The mutable FieldOptions record the option functions write into. */
  class FieldOptions {
    var labelText: string
    var fieldType: string
    var required: bool
    var placeholder: string
    var description: string
    var attributes: AnyMap
    var options: AnyMap
    var validation: seq<ValidationRule>

    /** The record's current value. */
    function Snapshot(): Config
      reads this
    {
      Config(labelText, fieldType, required, placeholder, description, attributes, options, validation)
    }

    /** The struct literal: a record holding `c`. */
    constructor (c: Config)
      ensures Snapshot() == c
    {
      labelText, fieldType, required := c.labelText, c.fieldType, c.required;
      placeholder, description := c.placeholder, c.description;
      attributes, options, validation := c.attributes, c.options, c.validation;
    }

    /** Runs one option function on this record, in place. */
    method Apply(f: OptionFunc)
      modifies this
      ensures Snapshot() == Step(old(Snapshot()), f)
    {
      match f {
        case WithLabel(l) => labelText := l;
        case WithType(t) => fieldType := t;
        case WithRequired(b) => required := b;
        case WithPlaceholder(s) => placeholder := s;
        case WithDescription(s) => description := s;
        case WithAttributes(m) => attributes := m;
        case WithAttribute(k, v) =>
          if attributes.None? {
            attributes := Some(map[]);
          }
          attributes := Some(attributes.value[k := v]);
        case WithValidation(rs) => validation := rs;
        case WithOptions(m) => options := m;
        case WithSelectOptions(os) =>
          if options.None? {
            options := Some(map[]);
          }
          options := Some(options.value[SelectOptionsKey := SelectOptionList(os)]);
      }
    }
  }

  /** Starts from the defaults and applies the functions in argument order. */
  method NewFieldOptions(funcs: seq<OptionFunc>) returns (opts: FieldOptions)
    ensures fresh(opts)
    ensures opts.Snapshot() == ApplyAll(Defaults(), funcs)
    ensures funcs == [] ==>
              && opts.labelText == "" && opts.fieldType == "text" && !opts.required
              && opts.placeholder == "" && opts.description == ""
              && opts.attributes == Some(map[]) && opts.options == Some(map[])
              && opts.validation == []
  {
    opts := new FieldOptions(Defaults());
    for i := 0 to |funcs|
      invariant opts.Snapshot() == ApplyAll(Defaults(), funcs[..i])
    {
      opts.Apply(funcs[i]);
      assert funcs[..i + 1][..i] == funcs[..i];
    }
    assert funcs[..|funcs|] == funcs;
  }

  /** Builds the options, then copies them into a field with the given name. */
  method NewField(name: string, funcs: seq<OptionFunc>) returns (f: Field)
    ensures f.name == name
    ensures f.config == ApplyAll(Defaults(), funcs)
    ensures f == FieldOf(name, funcs)
  {
    var opts := NewFieldOptions(funcs);
    f := Field(name, opts.Snapshot());
  }
}
