/**
 * The colour policy of the fluid simulation: `generateColor` turns the
 * configured hue category and intensity into the RGB colour of a splat.
 */
module Colors {

  datatype Rgb = Rgb(r: real, g: real, b: real)

  const White: Rgb := Rgb(1.0, 1.0, 1.0)

  /** The four categories the colour switch recognises. */
  const Categories: set<string> := {"Cyan", "Magenta", "Yellow", "Black"}

  predicate InUnitCube(c: Rgb) {
    0.0 <= c.r <= 1.0 && 0.0 <= c.g <= 1.0 && 0.0 <= c.b <= 1.0
  }

  /**
   * generateColor: intensity is COLOR_INTENSITY / 100; each known category
   * lowers one channel (Black lowers all three) by the intensity, any other
   * category name is white.
   */
  function GenerateColor(category: string, intensityPercent: real): (c: Rgb)
    ensures category !in Categories ==> c == White
    ensures intensityPercent == 0.0 ==> c == White
    ensures category == "Black" ==> c.r == c.g == c.b == 1.0 - intensityPercent / 100.0
    ensures category == "Cyan" ==> c.g == c.b == 1.0 && c.r == 1.0 - intensityPercent / 100.0
    ensures category == "Magenta" ==> c.r == c.b == 1.0 && c.g == 1.0 - intensityPercent / 100.0
    ensures category == "Yellow" ==> c.r == c.g == 1.0 && c.b == 1.0 - intensityPercent / 100.0
    ensures 0.0 <= intensityPercent <= 100.0 ==> InUnitCube(c)
  {
    var intensity := intensityPercent / 100.0;
    match category
    case "Cyan" => Rgb(1.0 - intensity, 1.0, 1.0)
    case "Magenta" => Rgb(1.0, 1.0 - intensity, 1.0)
    case "Yellow" => Rgb(1.0, 1.0, 1.0 - intensity)
    case "Black" => Rgb(1.0 - intensity, 1.0 - intensity, 1.0 - intensity)
    case _ => White
  }
}
