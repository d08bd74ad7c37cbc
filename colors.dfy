/**
 * The chart palette: ten base colours, then translucent variants of them
 * whose opacity drops by 0.15 with every further round through the palette.
 * Opacities are kept in hundredths (70 stands for 0.7), so no floating-point
 * rounding enters the model.
 */
module Colors {

  datatype Color = Hex(code: string) | Rgba(r: nat, g: nat, b: nat, opacity: int)

  const BaseColors: seq<string> := [
    "#3B82F6", "#8B5CF6", "#14B8A6", "#22C55E", "#F59E0B",
    "#EF4444", "#EC4899", "#6366F1", "#F97316", "#A855F7"
  ]

  /** `parseInt` of one hexadecimal digit. */
  function HexNibble(c: char): (d: nat)
    ensures d < 16
  {
    if '0' <= c <= '9' then c as int - '0' as int
    else if 'A' <= c <= 'F' then c as int - 'A' as int + 10
    else if 'a' <= c <= 'f' then c as int - 'a' as int + 10
    else 0
  }

  /** `parseInt(code.substring(at, at + 2), 16)`. */
  function HexByte(code: string, at: nat): (v: nat)
    requires at + 2 <= |code|
    ensures v < 256
  {
    16 * HexNibble(code[at]) + HexNibble(code[at + 1])
  }

  /** Opacity, in hundredths, of the colour at index `i`: 0.7 - 0.15 * floor(i / 10). */
  function Opacity(i: nat): int {
    70 - 15 * (i / |BaseColors|)
  }

  /** The colour `getChartColors` puts at index `i` of any palette longer than `i`. */
  function ColorAt(i: nat): Color {
    if i < |BaseColors| then Hex(BaseColors[i])
    else
      var base := BaseColors[i % |BaseColors|];
      Rgba(HexByte(base, 1), HexByte(base, 3), HexByte(base, 5), Opacity(i))
  }

  /** The palette of `count` colours, entry by entry. */
  function Palette(count: nat): seq<Color> {
    seq(count, i requires 0 <= i < count => ColorAt(i))
  }

  /** `getChartColors(count)`. */
  method GetChartColors(count: nat) returns (colors: seq<Color>)
    ensures |colors| == count
    ensures forall i :: 0 <= i < count ==> colors[i] == ColorAt(i)
    ensures colors == Palette(count)
  {
    var baseColors := BaseColors;
    if count <= |baseColors| {
      colors := seq(count, i requires 0 <= i < count => Hex(baseColors[i]));
      return;
    }
    colors := seq(|baseColors|, i requires 0 <= i < |baseColors| => Hex(baseColors[i]));
    var current := |baseColors|;
    while |colors| < count
      invariant current == |colors| <= count
      invariant forall i :: 0 <= i < |colors| ==> colors[i] == ColorAt(i)
    {
      var baseIndex := current % |baseColors|;
      var opacity := 70 - (current / |baseColors|) * 15;
      var baseColor := baseColors[baseIndex];
      var hex := baseColor[1..];
      var r := HexByte(hex, 0);
      var g := HexByte(hex, 2);
      var b := HexByte(hex, 4);
      colors := colors + [Rgba(r, g, b, opacity)];
      current := current + 1;
    }
  }

  /** Every generated variant is more translucent than 0.7, and opacity never rises along the palette. */
  lemma OpacityDecreases(i: nat, j: nat)
    requires |BaseColors| <= i <= j
    ensures ColorAt(i).Rgba? && ColorAt(i).opacity < 70
    ensures ColorAt(j).opacity <= ColorAt(i).opacity
  {
  }

  /** Indices 10 and 11 are the first two base colours at opacity 0.55. */
  lemma FirstVariants()
    ensures ColorAt(10) == Rgba(59, 130, 246, 55)
    ensures ColorAt(11) == Rgba(139, 92, 246, 55)
  {
    assert BaseColors[0] == "#3B82F6";
    assert BaseColors[1] == "#8B5CF6";
  }
}
