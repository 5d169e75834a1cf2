/** The random colours of `packages/client/src/utils/colorUtils.ts` (copied
    verbatim into `ChartPage.tsx`). `Math.random` is not modelled: every
    `letters[Math.floor(Math.random() * letters.length)]` becomes an index
    into `letters`, chosen by the caller. */
module ColorUtils {

  const HEX_LETTERS := "0123456789ABCDEF"
  const DARK_LETTERS := "012"
  const LIGHT_LETTERS := "DEF"

  const DARK_BG := "#141414"
  const LIGHT_BG := "#dedede"

  /** An index into HEX_LETTERS. */
  type HexIndex = i: nat | i < 16

  /** An index into DARK_LETTERS or LIGHT_LETTERS. */
  type ShadeIndex = i: nat | i < 3

  /** The six indices `getRandomColor` draws, in order. */
  type HexPicks = s: seq<HexIndex> | |s| == 6 witness [0, 0, 0, 0, 0, 0]

  /** The random choices of one call of `getRandomDarkColor` or
      `getRandomLightColor`: two shade letters, then the six of the
      `getRandomColor` call inside. */
  datatype ColorDraw = ColorDraw(start1: ShadeIndex, start2: ShadeIndex, picks: HexPicks)

  /** `#` followed by six upper-case hexadecimal digits. */
  predicate IsHexColor(c: string) {
    |c| == 7 && c[0] == '#' && forall i | 1 <= i < 7 :: c[i] in HEX_LETTERS
  }

  /** A hex colour whose first two digits are among `letters`. */
  predicate IsShadedColor(c: string, letters: string) {
    IsHexColor(c) && c[1] in letters && c[2] in letters
  }

  /** The colour `getRandomColor` returns for the given picks. */
  function HexColor(picks: HexPicks): (c: string)
    ensures IsHexColor(c)
  {
    "#" + seq(6, i requires 0 <= i < 6 => HEX_LETTERS[picks[i]])
  }

  /** `getRandomColor`: append six picked hex digits to `#`. */
  method RandomColor(picks: HexPicks) returns (color: string)
    ensures color == HexColor(picks)
    ensures IsHexColor(color)
  {
    color := "#";
    for i := 0 to 6
      invariant |color| == i + 1 && color[0] == '#'
      invariant forall j | 0 <= j < i :: color[j + 1] == HEX_LETTERS[picks[j]]
    {
      color := color + [HEX_LETTERS[picks[i]]];
    }
  }

  /** `#${start1}${start2}${color.slice(3)}`: two shade letters, then the last
      four digits of a fresh random colour. */
  function ShadedColor(letters: string, d: ColorDraw): (c: string)
    requires |letters| == 3
    ensures |c| == 7 && c[0] == '#'
    ensures c[1] in letters && c[2] in letters
    ensures c[3..] == HexColor(d.picks)[3..]
  {
    "#" + [letters[d.start1], letters[d.start2]] + HexColor(d.picks)[3..]
  }

  /** `getRandomDarkColor`. */
  method RandomDarkColor(d: ColorDraw) returns (c: string)
    ensures c == ShadedColor(DARK_LETTERS, d)
    ensures IsShadedColor(c, DARK_LETTERS)
    ensures c[3..] == HexColor(d.picks)[3..]
  {
    var color := RandomColor(d.picks);
    c := "#" + [DARK_LETTERS[d.start1], DARK_LETTERS[d.start2]] + color[3..];
  }

  /** `getRandomLightColor`. */
  method RandomLightColor(d: ColorDraw) returns (c: string)
    ensures c == ShadedColor(LIGHT_LETTERS, d)
    ensures IsShadedColor(c, LIGHT_LETTERS)
    ensures c[3..] == HexColor(d.picks)[3..]
  {
    var color := RandomColor(d.picks);
    c := "#" + [LIGHT_LETTERS[d.start1], LIGHT_LETTERS[d.start2]] + color[3..];
  }

  /** Every shaded colour is a hex colour with its two shade letters in front. */
  lemma ShadedColorShape(letters: string, d: ColorDraw)
    requires letters == DARK_LETTERS || letters == LIGHT_LETTERS
    ensures IsShadedColor(ShadedColor(letters, d), letters)
    ensures ShadedColor(letters, d)[1] == letters[d.start1]
    ensures ShadedColor(letters, d)[2] == letters[d.start2]
  {
    var c := ShadedColor(letters, d);
    var offset := if letters == DARK_LETTERS then 0 else 13;
    assert HEX_LETTERS[offset + d.start1] == c[1];
    assert HEX_LETTERS[offset + d.start2] == c[2];
    var hex := HexColor(d.picks);
    forall i | 3 <= i < 7
      ensures c[i] in HEX_LETTERS
    {
      assert c[i] == hex[i];
    }
  }

  /** No colour is both dark and light: the two shade alphabets are disjoint. */
  lemma DarkAndLightDisjoint(c: string)
    ensures !(IsShadedColor(c, DARK_LETTERS) && IsShadedColor(c, LIGHT_LETTERS))
  {
  }
}
