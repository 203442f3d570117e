# templx/form: runtime form fields and Bulma rendering dispatch, in Dafny

This project models the form-field core of the `templx/form` Go package.

- Form fields are declared at runtime. A field is a name plus a `FieldOptions` record.
- The record starts from fixed defaults. An ordered list of option functions (`WithLabel`, `WithType`, …, `WithSelectOptions`) then writes into it, in place.
- `GetFieldOption` reads a render attribute at an expected shape. It never fails: a missing key, a nil map or a value of another shape all give the caller's default.
- `HasFile` tells the decoder whether any declared field is a file field.
- The Bulma `FieldRenderer` picks a component by the field's type tag. The fixed renderers always pick their own component.

Modules:

- `Wrappers` (`wrappers.dfy`): the `Option` datatype.
- `Form` (`field.dfy`):
  - the data model: `Value` for Go's `any`, `Config` for the value of a `FieldOptions` record, `OptionFunc` with one constructor per `With*` builder, `Field` and `FieldContext`;
  - the pure effect of one option function (`Step`) and of a whole list (`ApplyAll`);
  - the `FieldOptions` class, whose `Apply` method performs an option function in place;
  - `NewFieldOptions` and `NewField`, as methods with the source's loop;
  - the lookups, and the lemmas about all of these.
- `FormFile` (`file.dfy`): `HasFile` as a search loop, proved against the existential `AnyFile`.
- `Bulma` (`bulma.dfy`): the renderers as a `Renderer` datatype and `RenderField` over it.

Modelling choices:

- Go's `any` is the closed datatype `Value` (string, int, bool, list of select options).
- A type assertion `x.(T)` becomes a projection `Value -> Option<T>` (`AsString`, `AsInt`, `AsBool`, `AsSelectOptions`). Each succeeds exactly when the value has that shape. `GetFieldOption` takes the projection as a parameter, in place of Go's type parameter.
- A Go map that may be nil is `Option<map<string, Value>>`, with `None` for nil.
  - Reads see a nil map as empty (`Entries`, `Lookup`).
  - `WithAttribute` and `WithSelectOptions` replace a nil map by an empty one before writing, as the source does.
  - `WithAttributes(nil)` and `WithOptions(nil)` can still store nil.
- `ValidationRule` is not defined in the modelled files. It is an uninspected token datatype.
- Templ components are `Component(variant, ctx)` values. The variant names which builder the source calls, and `ctx` is the context passed to it.
- The Go interface `FieldRenderer` and its five implementations are the `Renderer` datatype. `RenderField(r, ctx)` plays the role of the interface method.
- Go's `int` is 32 or 64 bits wide depending on the platform. The model's `Int` is unbounded, because no arithmetic is done on stored values.

As written in the source, and kept in the model:

- The dispatcher's `"select"` case returns the text input, not the select component (`templx/form/renderer/bulma/renderer.go:20-21`).
- `WithSelectOptions` writes the reserved key into the options map, while `GetSelectOptions` reads it from the attributes map (see Findings).

## Model

| member | source | states |
|---|---|---|
| Form.AsString | templx/form/field.go:131 | the string type assertion succeeds exactly on string values and then returns the stored string |
| Form.AsInt | templx/form/field.go:131 | the int type assertion succeeds exactly on int values and then returns the stored int |
| Form.AsBool | templx/form/field.go:131 | the bool type assertion succeeds exactly on bool values and then returns the stored bool |
| Form.AsSelectOptions | templx/form/field.go:131 | the `[]SelectOption` type assertion succeeds exactly on select-option lists and then returns the stored list |
| Form.Lookup | templx/form/field.go:126 | the comma-ok map read finds a key exactly when it is present, with its stored value; a nil map has no keys |
| Form.Insert | templx/form/field.go:65-73 | writing one key into a possibly nil map: afterwards the key holds the new value, the key set gains only that key, and every other key keeps its value |
| Form.Step | templx/form/field.go:29-85 | one option function changes only the one part of the record it targets; every other part keeps its value |
| Form.ApplyAllConcat | templx/form/field.go:98-100 | applying options in argument order composes: applying `fs + gs` is applying `fs` and then `gs` |
| Form.ApplyAllFrame | templx/form/field.go:29-85 | a list of option functions that never targets a part leaves that part unchanged |
| Form.LastWins | templx/form/field.go:29-63 | for the scalar setters and the bulk setters of attributes, options and validation, the last one wins: its part holds exactly what that setter alone writes, whatever ran before it, provided nothing after it targets that part |
| Form.AttributesReplaceThenMerge | templx/form/field.go:59-73 | `WithAttributes(m)` then `WithAttribute("x", v)` yields `m` plus `x`; a later `WithAttributes(m2)` discards all of that and leaves exactly `m2` |
| Form.EntrySurvives | templx/form/field.go:65-73 | a single-key setter keeps the other keys: a map entry survives every option function that neither replaces its map nor writes its key |
| Form.TypeIsLastWithType | templx/form/field.go:35-39 | the type of a built record is the argument of the last `WithType`, or the starting type if there is none |
| Form.IsFileOfBuiltField | templx/form/field.go:12-14 | a field built by `NewField` is a file field exactly when the last `WithType` it was given is `"file"` |
| Form.DefaultTypedFieldIsNotFile | templx/form/field.go:87-97 | a field whose type is never set keeps the default `"text"` and is not a file field |
| Form.GetFieldOption | templx/form/field.go:125-137 | a missing key or a nil attribute map gives the default; a present key gives the stored value when its shape matches and the default otherwise |
| Form.AttributeRoundTrip | templx/form/field.go:65-73 | after `WithAttribute(k, v)`, followed by nothing that writes `k` or replaces the attributes, `GetFieldOption` at key `k` returns `v` at a matching shape and the default at any other shape |
| Form.UnsetAttributeGivesDefault | templx/form/field.go:125-129 | on a new field, a key that no option function wrote reads as the caller's default |
| Form.MismatchedShapeGivesDefault | templx/form/field.go:131-134 | a stored string is returned when a string is asked for, and the default is returned when an int is asked for |
| Form.GetSelectOptions | templx/form/field.go:143-145 | a select-option list stored under `"_select_options"` in the ATTRIBUTES map is returned; otherwise (key absent, nil map, or a value of another shape) the default is returned |
| Form.SelectOptionsNotReadBack | templx/form/field.go:152-160 | after `WithSelectOptions(choices)` on a field whose attributes were never written, the options map holds exactly `choices` under the reserved key, yet `GetSelectOptions` returns the default |
| Form.SelectOptionsCounterexample | templx/form/field.go:143-160 | for two concrete choices, `GetSelectOptions(ctx, [])` returns `[]`, not the two choices that were set |
| Form.GetSelectOptionsFromOptions | templx/form/field.go:139-160 | the intended reader: a select-option list stored under the reserved key in the OPTIONS map is returned; otherwise the default is returned |
| Form.SelectOptionsRoundTrip | templx/form/field.go:152-160 | with the intended reader, the last `WithSelectOptions(choices)` reads back exactly `choices`, in declaration order, whatever other option keys were set |
| Form.FieldOptions.constructor | templx/form/field.go:88-97 | the struct literal: the new record holds the given value |
| Form.FieldOptions.Apply | templx/form/field.go:29-85 | performing an option function in place leaves the record equal to `Step` of its old value; the nil-map normalisation happens before the key is written |
| Form.NewFieldOptions | templx/form/field.go:87-102 | a fresh record equal to the defaults with the functions applied in argument order; with no functions it holds the defaults: empty label, placeholder and description, type `"text"`, not required, empty attribute and option maps, no validation rules |
| Form.NewField | templx/form/field.go:104-110 | the field has the given name and the record `NewFieldOptions` builds from the same functions, so it equals `FieldOf(name, funcs)`, the field the lemmas are stated on |
| FormFile.HasFile | templx/form/file.go:11-18 | true exactly when some field is a file field; found by a scan that stops at the first one |
| FormFile.AnyFileConcat | templx/form/file.go:11-18 | a concatenation has a file field exactly when one of its two parts does |
| FormFile.NoFieldsNoFile | templx/form/file.go:17 | an empty field list has no file field |
| FormFile.FieldsWithFileHaveFile | templx/form/form_test.go:13-19 | `[NewField("name"), NewField("document", WithType("file"))]` has a file field |
| FormFile.FieldsWithoutFileHaveNoFile | templx/form/form_test.go:22-28 | `[NewField("name"), NewField("email", WithType("email"))]` has no file field |
| Bulma.NewFieldRenderer | templx/form/renderer/bulma/renderer.go:27-29 | gives the dispatching renderer |
| Bulma.NewSelectRenderer | templx/form/renderer/bulma/renderer.go:61-64 | gives a select renderer that keeps the given options unchanged |
| Bulma.RenderField | templx/form/renderer/bulma/renderer.go:12-59 | every renderer passes the context to the component unchanged; only the select renderer produces the select component |
| Bulma.DispatchAgreesWithFixedRenderers | templx/form/renderer/bulma/renderer.go:13-19 | for `"textarea"`, `"checkbox"` and `"file"` the dispatcher renders exactly what the fixed textarea, checkbox and file renderers render |
| Bulma.DispatchFallsBackToInput | templx/form/renderer/bulma/renderer.go:13-24 | the dispatcher picks the text input exactly when the type is none of `"textarea"`, `"checkbox"` and `"file"`; this covers `"select"`, `""` and every unknown type |
| Bulma.SelectTypeRendersAsInput | templx/form/renderer/bulma/renderer.go:20-21 | a `"select"` field is dispatched to the text input, which differs from what the select renderer produces |
| Bulma.FileInputIffIsFile | templx/form/renderer/bulma/renderer.go:18-19 | the dispatcher picks the file input exactly for fields whose `IsFile` holds |
| Bulma.DispatchDependsOnlyOnType | templx/form/renderer/bulma/renderer.go:13 | two contexts with the same type get the same variant, whatever their attributes, options, value, error or class |
| Bulma.CheckboxFieldRendersCheckbox | templx/form/renderer/bulma/renderer.go:16-17 | a field built with `WithType("checkbox")`, followed by nothing that sets the type, renders as a checkbox, whatever other options were given |
| Bulma.FixedRenderersIgnoreType | templx/form/renderer/bulma/renderer.go:34-59 | the textarea, checkbox, file and select renderers always produce their own variant (textarea, checkbox, file input, select), so each gives the same variant for every context, whatever its type |
| Bulma.SelectRendererIgnoresFormOptions | templx/form/renderer/bulma/renderer.go:53-59 | what the select renderer produces does not depend on its stored `FormOptions` |

## Left out

- The templ components `Input`, `Textarea`, `Checkbox`, `FileInput` and `Select` are not part of this model, nor is their markup. They appear only as the variant tag of a `Component`.
- The `File` struct (`templx/form/file.go:5-8`) is not modelled. It wraps multipart file headers and readers, which are I/O handles.
- The form decoder (`New`, `Handle`, `Values`, `Files`) is not part of this model. Its source is not among the modelled files, and it is HTTP body parsing. So the decoding tests in `templx/form/form_test.go:31-113` are not modelled either.
- `ValidationRule` is not part of this model. It is carried as an uninspected token.
- Go reference aliasing is not modelled. `WithAttributes` and `WithOptions` store the caller's map by reference, and `NewField` copies the struct shallowly. Maps here are values, so later mutation through a shared map is not captured.
- Go's distinction between a nil slice and an empty slice in `Validation` is not modelled, because nothing in the core can tell them apart.
- `FieldOptionFunc` (`templx/form/field.go:27`) is an open function type. Callers may pass their own closures, or a nil function, which panics at `fn(opts)` (`templx/form/field.go:99`). The closed `OptionFunc` datatype covers only the ten `With*` builders, so neither case is modelled.
- Type assertions are modelled only for the four shapes of `Value`. Interface types, named types and other dynamic types of Go's `any` are not modelled.

## Findings

| source | as written | input that shows it | evidently intended | confidence | as-written member | corrected member |
|---|---|---|---|---|---|---|
| templx/form/field.go:143-160 | `WithSelectOptions` stores the choices under `"_select_options"` in `Options`, but `GetSelectOptions` reads that key from `Attributes` | `NewField("colour", WithSelectOptions({Red, red}, {Blue, blue}))`, then `GetSelectOptions(ctx, nil)`, returns `nil` | the reader finds the choices the setter stored, in declaration order, as the documented select-option convention and the reserved key suggest | high; not executed | `Form.GetSelectOptions`, `Form.SelectOptionsNotReadBack`, `Form.SelectOptionsCounterexample` | `Form.GetSelectOptionsFromOptions`, `Form.SelectOptionsRoundTrip` |
