/**
 * The Bulma renderers: one that picks a component by the field's type, and
 * fixed ones that always render the same component.
 */
module Bulma {
  import opened Form

  /** The components a renderer can produce. Their markup is not modelled. */
  datatype Variant = Input | Textarea | Checkbox | FileInput | Select

  /** A component built for one field context. */
  datatype Component = Component(variant: Variant, ctx: FieldContext)

  /** The renderer types. `SelectRenderer` keeps the options it was made with. */
  datatype Renderer =
    | FieldRenderer
    | TextareaRenderer
    | CheckboxRenderer
    | FileRenderer
    | SelectRenderer(formOptions: seq<SelectOption>)

  function NewFieldRenderer(): (r: Renderer)
    ensures r.FieldRenderer?
  {
    FieldRenderer
  }

  function NewSelectRenderer(formOptions: seq<SelectOption>): (r: Renderer)
    ensures r.SelectRenderer? && r.formOptions == formOptions
  {
    SelectRenderer(formOptions)
  }

  /** Renders one field. Every component carries the context unchanged, and
      only the select renderer ever produces a select component. */
  function RenderField(r: Renderer, ctx: FieldContext): (c: Component)
    ensures c.ctx == ctx
    ensures c.variant == Select ==> r.SelectRenderer?
  {
    match r
    case FieldRenderer =>
      if ctx.Type() == "textarea" then Component(Textarea, ctx)
      else if ctx.Type() == "checkbox" then Component(Checkbox, ctx)
      else if ctx.Type() == "file" then Component(FileInput, ctx)
      else if ctx.Type() == "select" then Component(Input, ctx)
      else Component(Input, ctx)
    case TextareaRenderer => Component(Textarea, ctx)
    case CheckboxRenderer => Component(Checkbox, ctx)
    case FileRenderer => Component(FileInput, ctx)
    case SelectRenderer(_) => Component(Select, ctx)
  }

  /** For the three types it knows, the dispatching renderer renders what the
      fixed renderer of that type renders. */
  lemma DispatchAgreesWithFixedRenderers(ctx: FieldContext)
    ensures ctx.Type() == "textarea" ==> RenderField(FieldRenderer, ctx) == RenderField(TextareaRenderer, ctx)
    ensures ctx.Type() == "checkbox" ==> RenderField(FieldRenderer, ctx) == RenderField(CheckboxRenderer, ctx)
    ensures ctx.Type() == "file" ==> RenderField(FieldRenderer, ctx) == RenderField(FileRenderer, ctx)
  {
  }

  /** Every other type, "select" and the empty type included, falls back to
      the text input. */
  lemma DispatchFallsBackToInput(ctx: FieldContext)
    ensures ctx.Type() != "textarea" && ctx.Type() != "checkbox" && ctx.Type() != "file" <==>
            RenderField(FieldRenderer, ctx).variant == Input
  {
  }

  /** A "select" field is rendered as a text input, never as what the select
      renderer would produce. */
  lemma SelectTypeRendersAsInput(ctx: FieldContext, formOptions: seq<SelectOption>)
    requires ctx.Type() == "select"
    ensures RenderField(FieldRenderer, ctx).variant == Input
    ensures RenderField(FieldRenderer, ctx) != RenderField(SelectRenderer(formOptions), ctx)
  {
  }

  /** The dispatcher picks the file input exactly for file fields. */
  lemma FileInputIffIsFile(ctx: FieldContext)
    ensures RenderField(FieldRenderer, ctx).variant == FileInput <==> ctx.field.IsFile()
  {
  }

  /** The chosen component depends on the type alone, not on the name,
      attributes, options, value, error or class. */
  lemma DispatchDependsOnlyOnType(ctx1: FieldContext, ctx2: FieldContext)
    requires ctx1.Type() == ctx2.Type()
    ensures RenderField(FieldRenderer, ctx1).variant == RenderField(FieldRenderer, ctx2).variant
  {
  }

  /** A field whose last type set is "checkbox" renders as a checkbox,
      whatever else was set before or after. */
  lemma CheckboxFieldRendersCheckbox(ctx: FieldContext, fs: seq<OptionFunc>, gs: seq<OptionFunc>)
    requires ctx.field.config == ApplyAll(Defaults(), fs + [WithType("checkbox")] + gs)
    requires Untouched(gs, TypePart)
    ensures RenderField(FieldRenderer, ctx).variant == Checkbox
  {
    LastWins(Defaults(), Defaults(), fs, WithType("checkbox"), gs);
    assert [WithType("checkbox")][..0] == [];
  }

  /** Each fixed renderer always produces its own variant, whatever the
      field's type, so its variant is the same for every context. */
  lemma FixedRenderersIgnoreType(r: Renderer, ctx1: FieldContext, ctx2: FieldContext)
    requires !r.FieldRenderer?
    ensures RenderField(TextareaRenderer, ctx1).variant == Textarea
    ensures RenderField(CheckboxRenderer, ctx1).variant == Checkbox
    ensures RenderField(FileRenderer, ctx1).variant == FileInput
    ensures r.SelectRenderer? ==> RenderField(r, ctx1).variant == Select
    ensures RenderField(r, ctx1).variant == RenderField(r, ctx2).variant
  {
  }

  /** The select renderer's stored options do not affect what it renders. */
  lemma SelectRendererIgnoresFormOptions(a: seq<SelectOption>, b: seq<SelectOption>, ctx: FieldContext)
    ensures RenderField(SelectRenderer(a), ctx) == RenderField(SelectRenderer(b), ctx)
  {
  }
}
