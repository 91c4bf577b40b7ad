/** Door and key colours (ColourUtils) and the boot types (Boot.BootType). */
module Colours {
  import opened Base
  import opened JavaText

  /** java.awt.Color as far as the game is concerned: four named colours, and any other. */
  datatype Colour = Red | Green | Blue | Yellow | Unnamed(rgb: int)

  /** ColourUtils.colourToString: the lower-case name, or null for an unnamed colour. */
  function ColourToString(c: Colour): (r: Option<string>)
    ensures r.None? <==> c.Unnamed?
    ensures r.Some? ==> HasNoUpper(r.value)
  {
    match c
    case Red => Some("red")
    case Green => Some("green")
    case Blue => Some("blue")
    case Yellow => Some("yellow")
    case Unnamed(_) => None
  }

  /** ColourUtils.stringToColour: case-insensitive name match, null otherwise. */
  function StringToColour(s: string): (r: Option<Colour>)
    ensures r.Some? ==> ColourToString(r.value) == Some(ToLower(s))
  {
    var name := ToLower(s);
    if name == "red" then Some(Red)
    else if name == "blue" then Some(Blue)
    else if name == "green" then Some(Green)
    else if name == "yellow" then Some(Yellow)
    else None
  }

  /**
   * The converse of StringToColour's contract: a word whose lower-case form is a colour's
   * name, in any mix of cases, is read as that colour.
   */
  lemma ColourAnyCase(s: string, c: Colour)
    requires ColourToString(c) == Some(ToLower(s))
    ensures StringToColour(s) == Some(c)
  {
  }

  /** Every named colour survives being written and read back. */
  lemma ColourRoundTrip(c: Colour)
    requires !c.Unnamed?
    ensures StringToColour(ColourToString(c).value) == Some(c)
  {
    ToLowerFixesLowercase(ColourToString(c).value);
  }

  /** Boot.BootType; its constants are spelled in lower case. */
  datatype BootType = Flipper | FireBoots

  /** BootType.toString. */
  function BootName(t: BootType): (s: string)
    ensures HasNoUpper(s)
  {
    match t
    case Flipper => "flipper"
    case FireBoots => "fire"
  }

  /** BootType.valueOf: an exact, case-sensitive constant name; anything else throws. */
  function BootValueOf(s: string): (r: Option<BootType>)
    ensures r.Some? ==> BootName(r.value) == s
  {
    if s == "flipper" then Some(Flipper)
    else if s == "fire" then Some(FireBoots)
    else None
  }

  lemma BootRoundTrip(t: BootType)
    ensures BootValueOf(BootName(t)) == Some(t)
  {
  }
}
