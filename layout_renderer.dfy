/**
 * The public page's choice of layout from the saved layout name.
 */
module LayoutRenderer {
  datatype Layout = Modern | Creative | Professional | Minimal

  /** The layout a saved name selects; any name but the four known ones falls back to
      Modern. */
  function SelectLayout(name: string): (l: Layout)
    ensures name == "creative" <==> l == Creative
    ensures name == "professional" <==> l == Professional
    ensures name == "minimal" <==> l == Minimal
    ensures l == Modern <==> name != "creative" && name != "professional" && name != "minimal"
  {
    match name
    case "modern" => Modern
    case "creative" => Creative
    case "professional" => Professional
    case "minimal" => Minimal
    case _ => Modern
  }

  /** The name each layout is saved under. */
  function LayoutName(l: Layout): string
  {
    match l
    case Modern => "modern"
    case Creative => "creative"
    case Professional => "professional"
    case Minimal => "minimal"
  }

  /** Every layout is selected by its own name, and only the names of the other three
      layouts select anything but Modern. */
  lemma SelectByName(l: Layout, name: string)
    ensures SelectLayout(LayoutName(l)) == l
    ensures SelectLayout(name) != Modern ==> LayoutName(SelectLayout(name)) == name
  {
  }

  /** What the switch renders: the chosen layout, given the profile and colours it was
      handed. */
  datatype Rendered<D, C> = Rendered(layout: Layout, userData: D, colors: C)

  function Render<D, C>(name: string, userData: D, colors: C): Rendered<D, C>
  {
    Rendered(SelectLayout(name), userData, colors)
  }

  /** Each layout's own name renders that layout, and any name outside the four renders the
      modern one; either way the profile and colours are passed on as they are. */
  lemma RenderByName<D, C>(l: Layout, name: string, userData: D, colors: C)
    ensures Render(LayoutName(l), userData, colors) == Rendered(l, userData, colors)
    ensures name !in {"modern", "creative", "professional", "minimal"} ==>
      Render(name, userData, colors) == Rendered(Modern, userData, colors)
  {
    SelectByName(l, name);
  }
}
