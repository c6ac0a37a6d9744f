/**
 * The computations behind the touch control page served at `/` (src/app.ts):
 * padding the configured labels to exactly eight tiles, and the client
 * script's `hashToHue`, which picks each tile's colour from its name.
 */
module ControlPage {
  import Validation
  import Handlers
  import Responses
  import Device

  // ----- tile labels -----

  /** `config.sequences`, which the route uses only when it is an array */
  datatype Config<T> = ArrayConfig(items: seq<T>) | NotArray

  /** `config.sequences && Array.isArray(config.sequences) ? config.sequences : []` */
  function Labels<T>(c: Config<T>): seq<T> {
    if c.ArrayConfig? then c.items else []
  }

  /** A tile shows a configured entry, or a placeholder when that entry is missing or falsy */
  datatype Tile<T> = Configured(entry: T) | Placeholder(text: string)

  const TileCount: nat := 8

  /** `seq${i + 1}` for a tile index below eight */
  function PlaceholderLabel(i: nat): (s: string)
    requires i < TileCount
    ensures |s| == 4 && s[..3] == "seq" && s[3] as int == '1' as int + i
  {
    "seq" + [('1' as int + i) as char]
  }

  /** `labels[i] || `seq${i + 1}``, with JavaScript truthiness given by `truthy` */
  function TileAt<T>(labels: seq<T>, truthy: T -> bool, i: nat): Tile<T>
    requires i < TileCount
  {
    if i < |labels| && truthy(labels[i]) then Configured(labels[i]) else Placeholder(PlaceholderLabel(i))
  }

  /** `Array.from({ length: 8 }, (_, i) => labels[i] || `seq${i + 1}`)` */
  function Tiles<T>(c: Config<T>, truthy: T -> bool): (tiles: seq<Tile<T>>)
    ensures |tiles| == TileCount
    ensures forall i :: 0 <= i < TileCount ==>
      (tiles[i].Configured? <==> i < |Labels(c)| && truthy(Labels(c)[i]))
    ensures forall i :: 0 <= i < TileCount && tiles[i].Configured? ==> tiles[i].entry == Labels(c)[i]
    ensures forall i :: 0 <= i < TileCount && tiles[i].Placeholder? ==> tiles[i].text == PlaceholderLabel(i)
  {
    seq(TileCount, i requires 0 <= i < TileCount => TileAt(Labels(c), truthy, i))
  }

  /** `String(label)`, JavaScript's conversion of the entry being given by `show` */
  function TileText<T>(t: Tile<T>, show: T -> string): string {
    match t
    case Configured(e) => show(e)
    case Placeholder(s) => s
  }

  /** A configuration that is not an array renders the eight placeholders seq1 ... seq8 */
  lemma NotArrayGivesPlaceholders<T>(truthy: T -> bool, i: nat)
    requires i < TileCount
    ensures Tiles(NotArray, truthy)[i] == Placeholder(PlaceholderLabel(i))
  {
  }

  /** Entries past the eighth are never shown */
  lemma ExtraLabelsIgnored<T>(items: seq<T>, truthy: T -> bool)
    requires |items| >= TileCount
    ensures Tiles(ArrayConfig(items), truthy) == Tiles(ArrayConfig(items[..TileCount]), truthy)
  {
    var a, b := Tiles(ArrayConfig(items), truthy), Tiles(ArrayConfig(items[..TileCount]), truthy);
    forall i | 0 <= i < TileCount ensures a[i] == b[i] {
      assert items[..TileCount][i] == items[i];
    }
  }

  /** The placeholders are pairwise distinct */
  lemma PlaceholdersDistinct(i: nat, j: nat)
    requires i < TileCount && j < TileCount && i != j
    ensures PlaceholderLabel(i) != PlaceholderLabel(j)
  {
    assert PlaceholderLabel(i)[3] != PlaceholderLabel(j)[3];
  }

  /** The button kinds of src/lib/config.ts */
  datatype ButtonKind = Sequence | SequenceEffect | Effect | Stop

  /** One entry of `config.sequences`: an object, not a string */
  datatype ButtonConfig = ButtonConfig(name: string, kind: ButtonKind)

  /** The eight entries the repository configures */
  const RepositorySequences: seq<ButtonConfig> := [
    ButtonConfig("fire", Sequence),
    ButtonConfig("blandet", Sequence),
    ButtonConfig("Plasma Parts", Sequence),
    ButtonConfig("bitchinparts", Sequence),
    ButtonConfig("shockwave", SequenceEffect),
    ButtonConfig("shock4", Effect),
    ButtonConfig("Another Effect", Effect),
    ButtonConfig("stop", Stop)
  ]

  /** Every object is truthy */
  predicate ObjectIsTruthy(b: ButtonConfig) {
    true
  }

  /** `String(obj)` of a plain object */
  function ObjectToString(b: ButtonConfig): string {
    "[object Object]"
  }

  /** With the repository's configuration every tile is a configured object, so it reads "[object Object]" */
  lemma RepositoryTileText(i: nat)
    requires i < TileCount
    ensures TileText(Tiles(ArrayConfig(RepositorySequences), ObjectIsTruthy)[i], ObjectToString) == "[object Object]"
  {
    var tiles := Tiles(ArrayConfig(RepositorySequences), ObjectIsTruthy);
    assert |Labels(ArrayConfig(RepositorySequences))| == TileCount;
    assert tiles[i].Configured?;
  }

  /** "[object Object]" is not a valid sequence name: `[` is outside the class */
  lemma ObjectTextIsInvalidName()
    ensures !Validation.ValidSequenceName("[object Object]")
  {
    var text := "[object Object]";
    Validation.ValidSequenceNameIff(text);
    assert !Validation.IsNameChar(text[0]);
  }

  /**
   * Tapping any tile of the repository's configuration posts "[object Object]"
   * as a sequence name, which the start route refuses with 400 before calling
   * the device (assuming the route parameter decodes back to the text the
   * tile sent).
   */
  lemma RepositoryTilesAreRejected(device: Device.Oracle, history: seq<Device.Url>, base: string, encode: string -> string, i: nat)
    requires i < TileCount
    ensures var text := TileText(Tiles(ArrayConfig(RepositorySequences), ObjectIsTruthy)[i], ObjectToString);
      Handlers.SequenceStartSpec(device, history, base, encode, text)
      == Handlers.Handled([], [], Responses.InvalidNameResponse)
  {
    RepositoryTileText(i);
    ObjectTextIsInvalidName();
  }

  // ----- tile colour -----

  /** One UTF-16 code unit, what `charCodeAt` returns */
  newtype CodeUnit = x: int | 0 <= x < 0x1_0000

  const TwoTo32: int := 0x1_0000_0000

  /**
   * The UTF-16 code units of one character: the character itself inside the
   * Basic Multilingual Plane, otherwise a high and a low surrogate that
   * decode back to it
   */
  function CharUnits(c: char): (u: seq<CodeUnit>)
    ensures 1 <= |u| <= 2
    ensures (c as int < 0x1_0000) <==> |u| == 1
    ensures c as int < 0x1_0000 ==> u == [c as int as CodeUnit]
    ensures |u| == 2 ==> 0xD800 <= u[0] < 0xDC00 <= u[1] < 0xE000
    ensures |u| == 2 ==> (u[0] as int - 0xD800) * 0x400 + (u[1] as int - 0xDC00) + 0x1_0000 == c as int
  {
    var v := c as int;
    if v < 0x1_0000 then [v as CodeUnit]
    else [(0xD800 + (v - 0x1_0000) / 0x400) as CodeUnit, (0xDC00 + (v - 0x1_0000) % 0x400) as CodeUnit]
  }

  /** A JavaScript string's code units, for a Dafny string */
  function Utf16(s: string): (units: seq<CodeUnit>)
    ensures |s| <= |units| <= 2 * |s|
  {
    if s == [] then [] else CharUnits(s[0]) + Utf16(s[1..])
  }

  /** Concatenating strings concatenates their code units */
  lemma {:induction false} Utf16Append(a: string, b: string)
    ensures Utf16(a + b) == Utf16(a) + Utf16(b)
    decreases |a|
  {
    if a == [] {
      assert a + b == b;
    } else {
      assert (a + b)[0] == a[0];
      assert (a + b)[1..] == a[1..] + b;
      Utf16Append(a[1..], b);
    }
  }

  /** `h = (h * 31 + str.charCodeAt(i)) >>> 0`, folded from 0 over the code units */
  function RollingHash(units: seq<CodeUnit>): (h: nat)
    ensures h < TwoTo32
  {
    if units == [] then 0
    else (RollingHash(units[..|units| - 1]) * 31 + units[|units| - 1] as int) % TwoTo32
  }

  /** The client's `hashToHue(str)` */
  method HashToHue(str: string) returns (hue: nat)
    ensures hue < 360
    ensures hue == RollingHash(Utf16(str)) % 360
  {
    var units := Utf16(str);
    var h: nat := 0;
    for i := 0 to |units|
      invariant h == RollingHash(units[..i])
    {
      // h < 2^32, so h * 31 + a code unit is below 2^53 and exact as a double;
      // `>>> 0` on that non-negative integer is reduction modulo 2^32
      assert h * 31 + units[i] as int < 0x20_0000_0000_0000;
      assert units[..i + 1][..i] == units[..i];
      h := (h * 31 + units[i] as int) % TwoTo32;
    }
    assert units[..|units|] == units;
    hue := h % 360;
  }
}
