/**
  The named-colour catalogue and `ColorHelper.normalize`, which turns a colour
  reference (catalogue name, `#`-prefixed literal, or bare hex) into markup.
*/
module Colors {
  import opened PyText
  import opened CodeGen

  /** `#` followed by six upper-case hexadecimal digits. */
  predicate IsCanonicalHex(s: string)
  {
    |s| == 7 && s[0] == '#' && forall i :: 1 <= i < 7 ==> IsDigit(s[i]) || 'A' <= s[i] <= 'F'
  }

  /** A 24-bit colour value. */
  type Rgb = n: int | 0 <= n < 0x100_0000

  /** The value of a decimal or upper-case hexadecimal digit. */
  function HexDigitValue(c: char): int
  {
    if IsDigit(c) then c as int - '0' as int else c as int - 'A' as int + 10
  }

  /** The upper-case digit of a value below sixteen: `0`-`9`, then `A`-`F`. */
  function UpperHexDigit(d: int): (c: char)
    requires 0 <= d < 16
    ensures IsDigit(c) || 'A' <= c <= 'F'
    ensures HexDigitValue(c) == d
  {
    if d < 10 then ('0' as int + d) as char else ('A' as int + d - 10) as char
  }

  /** The last `k` hexadecimal digits of `n`, upper-case, most significant first. */
  function HexDigits(n: nat, k: nat): (s: string)
    ensures |s| == k
    ensures forall i :: 0 <= i < k ==> IsDigit(s[i]) || 'A' <= s[i] <= 'F'
  {
    if k == 0 then "" else HexDigits(n / 16, k - 1) + [UpperHexDigit(n % 16)]
  }

  /** The number a string of hexadecimal digits denotes, most significant digit first. */
  function HexValue(s: string): int
  {
    if s == [] then 0 else 16 * HexValue(s[..|s| - 1]) + HexDigitValue(s[|s| - 1])
  }

  function Pow16(k: nat): (p: nat)
    ensures p > 0
  {
    if k == 0 then 1 else 16 * Pow16(k - 1)
  }

  /** Below `16^k`, the `k` digits of `HexDigits(n, k)` denote `n` itself. */
  lemma {:induction false} HexDigitsValue(n: nat, k: nat)
    requires n < Pow16(k)
    ensures HexValue(HexDigits(n, k)) == n
  {
    if k > 0 {
      var h := HexDigits(n / 16, k - 1);
      var s := h + [UpperHexDigit(n % 16)];
      assert HexDigits(n, k) == s;
      assert s[..|s| - 1] == h;
      HexDigitsValue(n / 16, k - 1);
    }
  }

  /** The six digits of the catalogue's text denote the value itself. */
  lemma HexStringValue(n: Rgb)
    ensures HexValue(HexString(n)[1..]) == n
  {
    HexDigitsValue(n, 6);
    assert HexString(n)[1..] == HexDigits(n, 6);
    assert Pow16(6) == 0x100_0000;
  }

  /** How the catalogue writes a value: `#` and six upper-case digits. */
  function HexString(n: Rgb): (s: string)
    ensures IsCanonicalHex(s)
  {
    "#" + HexDigits(n, 6)
  }

  /**
    The `Color` enum as (member name, value) pairs in declaration order; the
    value `0xF0F8FF` stands for the string `"#F0F8FF"`. Members with the same
    value (AQUA and CYAN, YELLOW and BUSINESS, ...) are aliases in Python;
    only the name-to-value lookup is used here, and that is the same for aliases.
  */
  const Catalogue: seq<(string, Rgb)> := Colors1 + CatalogueRest

  const CatalogueRest: seq<(string, Rgb)> :=
    Colors2 + Colors3 + Colors4 + Colors5 + Colors6 + Colors7 + Colors8

  const Colors1: seq<(string, Rgb)> := [
      ("ALICE_BLUE", 0xF0F8FF),
      ("ANTIQUE_WHITE", 0xFAEBD7),
      ("AQUA", 0x00FFFF),
      ("AQUAMARINE", 0x7FFFD4),
      ("AZURE", 0xF0FFFF),
      ("BEIGE", 0xF5F5DC),
      ("BISQUE", 0xFFE4C4),
      ("BLACK", 0x000000),
      ("BLANCHED_ALMOND", 0xFFEBCD),
      ("BLUE", 0x0000FF),
      ("BLUE_VIOLET", 0x8A2BE2),
      ("BROWN", 0xA52A2A),
      ("BURLY_WOOD", 0xDEB887),
      ("CADET_BLUE", 0x5F9EA0),
      ("CHARTREUSE", 0x7FFF00),
      ("CHOCOLATE", 0xD2691E),
      ("CORAL", 0xFF7F50),
      ("CORNFLOWER_BLUE", 0x6495ED),
      ("CORNSILK", 0xFFF8DC),
      ("CRIMSON", 0xDC143C)
    ]

  const Colors2: seq<(string, Rgb)> := [
      ("CYAN", 0x00FFFF),
      ("DARK_BLUE", 0x00008B),
      ("DARK_CYAN", 0x008B8B),
      ("DARK_GOLDEN_ROD", 0xB8860B),
      ("DARK_GRAY", 0xA9A9A9),
      ("DARK_GREY", 0xA9A9A9),
      ("DARK_GREEN", 0x006400),
      ("DARK_KHAKI", 0xBDB76B),
      ("DARK_MAGENTA", 0x8B008B),
      ("DARK_OLIVE_GREEN", 0x556B2F),
      ("DARKORANGE", 0xFF8C00),
      ("DARK_ORCHID", 0x9932CC),
      ("DARK_RED", 0x8B0000),
      ("DARK_SALMON", 0xE9967A),
      ("DARK_SEA_GREEN", 0x8FBC8F),
      ("DARK_SLATE_BLUE", 0x483D8B),
      ("DARK_SLATE_GRAY", 0x2F4F4F),
      ("DARK_SLATE_GREY", 0x2F4F4F),
      ("DARK_TURQUOISE", 0x00CED1),
      ("DARK_VIOLET", 0x9400D3)
    ]

  const Colors3: seq<(string, Rgb)> := [
      ("DEEP_PINK", 0xFF1493),
      ("DEEP_SKY_BLUE", 0x00BFFF),
      ("DIM_GRAY", 0x696969),
      ("DIM_GREY", 0x696969),
      ("DODGER_BLUE", 0x1E90FF),
      ("FIRE_BRICK", 0xB22222),
      ("FLORAL_WHITE", 0xFFFAF0),
      ("FOREST_GREEN", 0x228B22),
      ("FUCHSIA", 0xFF00FF),
      ("GAINSBORO", 0xDCDCDC),
      ("GHOST_WHITE", 0xF8F8FF),
      ("GOLD", 0xFFD700),
      ("GOLDEN_ROD", 0xDAA520),
      ("GRAY", 0x808080),
      ("GREY", 0x808080),
      ("GREEN", 0x008000),
      ("GREEN_YELLOW", 0xADFF2F),
      ("HONEY_DEW", 0xF0FFF0),
      ("HOT_PINK", 0xFF69B4),
      ("INDIAN_RED", 0xCD5C5C)
    ]

  const Colors4: seq<(string, Rgb)> := [
      ("INDIGO", 0x4B0082),
      ("IVORY", 0xFFFFF0),
      ("KHAKI", 0xF0E68C),
      ("LAVENDER", 0xE6E6FA),
      ("LAVENDER_BLUSH", 0xFFF0F5),
      ("LAWN_GREEN", 0x7CFC00),
      ("LEMON_CHIFFON", 0xFFFACD),
      ("LIGHT_BLUE", 0xADD8E6),
      ("LIGHT_CORAL", 0xF08080),
      ("LIGHT_CYAN", 0xE0FFFF),
      ("LIGHT_GOLDEN_ROD_YELLOW", 0xFAFAD2),
      ("LIGHT_GRAY", 0xD3D3D3),
      ("LIGHT_GREY", 0xD3D3D3),
      ("LIGHT_GREEN", 0x90EE90),
      ("LIGHT_PINK", 0xFFB6C1),
      ("LIGHT_SALMON", 0xFFA07A),
      ("LIGHT_SEA_GREEN", 0x20B2AA),
      ("LIGHT_SKY_BLUE", 0x87CEFA),
      ("LIGHT_SLATE_GRAY", 0x778899),
      ("LIGHT_SLATE_GREY", 0x778899)
    ]

  const Colors5: seq<(string, Rgb)> := [
      ("LIGHT_STEEL_BLUE", 0xB0C4DE),
      ("LIGHT_YELLOW", 0xFFFFE0),
      ("LIME", 0x00FF00),
      ("LIME_GREEN", 0x32CD32),
      ("LINEN", 0xFAF0E6),
      ("MAGENTA", 0xFF00FF),
      ("MAROON", 0x800000),
      ("MEDIUM_AQUA_MARINE", 0x66CDAA),
      ("MEDIUM_BLUE", 0x0000CD),
      ("MEDIUM_ORCHID", 0xBA55D3),
      ("MEDIUM_PURPLE", 0x9370D8),
      ("MEDIUM_SEA_GREEN", 0x3CB371),
      ("MEDIUM_SLATE_BLUE", 0x7B68EE),
      ("MEDIUM_SPRING_GREEN", 0x00FA9A),
      ("MEDIUM_TURQUOISE", 0x48D1CC),
      ("MEDIUM_VIOLET_RED", 0xC71585),
      ("MIDNIGHT_BLUE", 0x191970),
      ("MINT_CREAM", 0xF5FFFA),
      ("MISTY_ROSE", 0xFFE4E1),
      ("MOCCASIN", 0xFFE4B5)
    ]

  const Colors6: seq<(string, Rgb)> := [
      ("NAVAJO_WHITE", 0xFFDEAD),
      ("NAVY", 0x000080),
      ("OLD_LACE", 0xFDF5E6),
      ("OLIVE", 0x808000),
      ("OLIVE_DRAB", 0x6B8E23),
      ("ORANGE", 0xFFA500),
      ("ORANGE_RED", 0xFF4500),
      ("ORCHID", 0xDA70D6),
      ("PALE_GOLDEN_ROD", 0xEEE8AA),
      ("PALE_GREEN", 0x98FB98),
      ("PALE_TURQUOISE", 0xAFEEEE),
      ("PALE_VIOLET_RED", 0xD87093),
      ("PAPAYA_WHIP", 0xFFEFD5),
      ("PEACH_PUFF", 0xFFDAB9),
      ("PERU", 0xCD853F),
      ("PINK", 0xFFC0CB),
      ("PLUM", 0xDDA0DD),
      ("POWDER_BLUE", 0xB0E0E6),
      ("PURPLE", 0x800080),
      ("RED", 0xFF0000)
    ]

  const Colors7: seq<(string, Rgb)> := [
      ("ROSY_BROWN", 0xBC8F8F),
      ("ROYAL_BLUE", 0x4169E1),
      ("SADDLE_BROWN", 0x8B4513),
      ("SALMON", 0xFA8072),
      ("SANDY_BROWN", 0xF4A460),
      ("SEA_GREEN", 0x2E8B57),
      ("SEA_SHELL", 0xFFF5EE),
      ("SIENNA", 0xA0522D),
      ("SILVER", 0xC0C0C0),
      ("SKY_BLUE", 0x87CEEB),
      ("SLATE_BLUE", 0x6A5ACD),
      ("SLATE_GRAY", 0x708090),
      ("SLATE_GREY", 0x708090),
      ("SNOW", 0xFFFAFA),
      ("SPRING_GREEN", 0x00FF7F),
      ("STEEL_BLUE", 0x4682B4),
      ("TAN", 0xD2B48C),
      ("TEAL", 0x008080),
      ("THISTLE", 0xD8BFD8),
      ("TOMATO", 0xFF6347)
    ]

  const Colors8: seq<(string, Rgb)> := [
      ("TURQUOISE", 0x40E0D0),
      ("VIOLET", 0xEE82EE),
      ("WHEAT", 0xF5DEB3),
      ("WHITE", 0xFFFFFF),
      ("WHITE_SMOKE", 0xF5F5F5),
      ("YELLOW", 0xFFFF00),
      ("YELLOW_GREEN", 0x9ACD32),
      ("BUSINESS", 0xFFFF00),
      ("APPLICATION", 0xA9DCDF),
      ("MOTIVATION", 0xB19CD9),
      ("STRATEGY", 0xF6E4CC),
      ("TECHNOLOGY", 0x90EE90),
      ("PHYSICAL", 0xCCFFCC),
      ("IMPLEMENTATION", 0xFFA6BF)
    ]

  /** The value of the member called `key`, if there is one. */
  function Lookup(entries: seq<(string, Rgb)>, key: string): (r: Option<Rgb>)
    ensures r.Some? <==> exists i :: 0 <= i < |entries| && entries[i].0 == key
    ensures r.Some? ==> exists i :: 0 <= i < |entries| && entries[i] == (key, r.value)
  {
    if entries == [] then None
    else if entries[0].0 == key then Some(entries[0].1)
    else
      var r := Lookup(entries[1..], key);
      assert forall i :: 1 <= i < |entries| ==> entries[i] == entries[1..][i - 1];
      r
  }

  lemma {:induction false} LookupConcat(a: seq<(string, Rgb)>, b: seq<(string, Rgb)>, key: string)
    ensures Lookup(a + b, key) == if Lookup(a, key).Some? then Lookup(a, key) else Lookup(b, key)
  {
    if a == [] {
      assert a + b == b;
    } else {
      assert (a + b)[1..] == a[1..] + b;
      LookupConcat(a[1..], b, key);
    }
  }

  lemma {:induction false} LookupFinds(entries: seq<(string, Rgb)>, i: nat)
    requires i < |entries|
    requires forall j :: 0 <= j < i ==> entries[j].0 != entries[i].0
    ensures Lookup(entries, entries[i].0) == Some(entries[i].1)
  {
    if i > 0 {
      LookupFinds(entries[1..], i - 1);
    }
  }

  /** The error `normalize` reports for a reference it cannot read. */
  function InvalidColor(color: string): Error
  {
    ValueError("invalid color: " + color)
  }

  /**
    `snakecase` keeps a colour literal's leading `#` (it lower-cases the
    first character and only touches later capitals).
  */
  predicate HashKept(py: Py, color: string)
  {
    py.snakecase(color) != [] && py.snakecase(color)[0] == '#'
  }

  /** The key the catalogue lookup uses: `stringcase.snakecase(color).upper()`. */
  function CatalogueKey(py: Py, color: string): string
  {
    Upper(py.snakecase(color))
  }

  /**
    `ColorHelper.normalize` on a string. A catalogue hit gives the member's
    value with no error (see `NormalizeAsWritten` for what the code returns
    there); the lookup runs before the `#` and hex checks; a `#`-prefixed
    reference is returned as it is; otherwise `color[1:]` must parse as base 16.
  */
  function Normalize(py: Py, color: string): (r: (string, Option<Error>))
    ensures color == [] ==> r == ("", None)
    ensures r.1.Some? ==> r.0 == "" && r.1.value == InvalidColor(color)
    ensures r.1.None? ==> (r.0 == "" <==> color == [])
  {
    if color == [] then ("", None)
    else if Lookup(Catalogue, CatalogueKey(py, color)).Some? then (HexString(Lookup(Catalogue, CatalogueKey(py, color)).value), None)
    else if color[0] == '#' then (color, None)
    else if py.parsesAsHex(color[1..]) then ("#" + color, None)
    else ("", Some(InvalidColor(color)))
  }

  /** A catalogue name in any spelling the key maps to gives the member's canonical value. */
  lemma NormalizeCatalogue(py: Py, color: string)
    requires color != [] && Lookup(Catalogue, CatalogueKey(py, color)).Some?
    ensures Normalize(py, color).1 == None
    ensures Normalize(py, color).0 == HexString(Lookup(Catalogue, CatalogueKey(py, color)).value)
    ensures IsCanonicalHex(Normalize(py, color).0)
  {
  }

  /** A `#`-prefixed reference that misses the catalogue comes back unchanged, with no check of its digits. */
  lemma NormalizeHashPrefixed(py: Py, color: string)
    requires color != [] && color[0] == '#' && Lookup(Catalogue, CatalogueKey(py, color)).None?
    ensures Normalize(py, color) == (color, None)
  {
  }

  /** Only `color[1:]` is parsed: the first character and the length are never checked. */
  lemma NormalizeBareHex(py: Py, color: string)
    requires Sound(py)
    requires |color| >= 2 && color[0] != '#' && Lookup(Catalogue, CatalogueKey(py, color)).None?
    requires forall i :: 1 <= i < |color| ==> IsHexDigit(color[i])
    ensures Normalize(py, color) == ("#" + color, None)
  {
    var tail := color[1..];
    assert AllHexDigits(tail) by {
      forall i | 0 <= i < |tail| ensures IsHexDigit(tail[i]) {
        assert tail[i] == color[i + 1];
      }
    }
  }

  /** Anything else is reported as an invalid colour and renders as the empty string. */
  lemma NormalizeInvalid(py: Py, color: string, k: nat)
    requires Sound(py)
    requires color != [] && color[0] != '#' && Lookup(Catalogue, CatalogueKey(py, color)).None?
    requires 1 <= k < |color| && NeverInHexLiteral(color[k])
    ensures Normalize(py, color) == ("", Some(InvalidColor(color)))
  {
    var tail := color[1..];
    assert tail[k - 1] == color[k];
    assert HasNonHexChar(tail);
  }

  /** A one-character reference that is not `#` and not a catalogue name leaves nothing to parse. */
  lemma NormalizeSingleChar(py: Py, c: char)
    requires Sound(py) && c != '#' && Lookup(Catalogue, CatalogueKey(py, [c])).None?
    ensures Normalize(py, [c]) == ("", Some(InvalidColor([c])))
  {
    assert [c][1..] == "";
  }

  /** No member name starts with `#`. */
  predicate NoHashName(entries: seq<(string, Rgb)>)
  {
    forall i :: 0 <= i < |entries| ==> entries[i].0 == [] || entries[i].0[0] != '#'
  }

  lemma {:induction false} NoHashNameConcat(a: seq<(string, Rgb)>, b: seq<(string, Rgb)>)
    requires NoHashName(a) && NoHashName(b)
    ensures NoHashName(a + b)
  {
    forall i | 0 <= i < |a + b| ensures (a + b)[i].0 == [] || (a + b)[i].0[0] != '#' {
      if i >= |a| {
        assert (a + b)[i] == b[i - |a|];
      }
    }
  }

  lemma FirstChunksHaveNoHashName()
    ensures NoHashName(Colors1) && NoHashName(Colors2) && NoHashName(Colors3) && NoHashName(Colors4)
  {
  }

  lemma LastChunksHaveNoHashName()
    ensures NoHashName(Colors5) && NoHashName(Colors6) && NoHashName(Colors7) && NoHashName(Colors8)
  {
  }

  lemma CatalogueHasNoHashName()
    ensures NoHashName(Catalogue)
  {
    FirstChunksHaveNoHashName();
    LastChunksHaveNoHashName();
    NoHashNameConcat(Colors7, Colors8);
    NoHashNameConcat(Colors6, Colors7 + Colors8);
    NoHashNameConcat(Colors5, Colors6 + Colors7 + Colors8);
    NoHashNameConcat(Colors4, Colors5 + Colors6 + Colors7 + Colors8);
    NoHashNameConcat(Colors3, Colors4 + Colors5 + Colors6 + Colors7 + Colors8);
    NoHashNameConcat(Colors2, Colors3 + Colors4 + Colors5 + Colors6 + Colors7 + Colors8);
    NoHashNameConcat(Colors1, CatalogueRest);
  }

  /**
    A `#`-prefixed reference whose catalogue key still starts with `#` is
    never a member name, so it comes back unchanged.
  */
  lemma NormalizeHashLiteral(py: Py, color: string)
    requires color != [] && color[0] == '#'
    requires var key := CatalogueKey(py, color); key != [] && key[0] == '#'
    ensures Normalize(py, color) == (color, None)
  {
    CatalogueHasNoHashName();
  }

  // ------------------------------------------------------------------ as written

  /** What the code hands back: a pair, or on a catalogue hit the bare enum member. */
  datatype RawNormalized = Pair(hex: string, err: Option<Error>) | BareMember(name: string)

  /** `ColorHelper.normalize` exactly as written: a catalogue hit returns `Color.__dict__[key]`. */
  function NormalizeAsWritten(py: Py, color: string): (r: RawNormalized)
  {
    if color == [] then Pair("", None)
    else if Lookup(Catalogue, CatalogueKey(py, color)).Some? then BareMember(CatalogueKey(py, color))
    else if color[0] == '#' then Pair(color, None)
    else if py.parsesAsHex(color[1..]) then Pair("#" + color, None)
    else Pair("", Some(InvalidColor(color)))
  }

  /** Off the catalogue the code as written and `Normalize` agree. */
  lemma AsWrittenAgreesOffCatalogue(py: Py, color: string)
    requires color == [] || Lookup(Catalogue, CatalogueKey(py, color)).None?
    ensures NormalizeAsWritten(py, color) == Pair(Normalize(py, color).0, Normalize(py, color).1)
  {
  }

  /**
    The input "blue", which the docstring lists as valid: the code as written
    returns the member, not a (value, error) pair, so a caller's tuple
    unpacking fails; the corrected lookup gives "#0000FF".
  */
  lemma CatalogueHitIsNotAPair(py: Py)
    requires py.snakecase("blue") == "blue"
    ensures NormalizeAsWritten(py, "blue") == BareMember("BLUE")
    ensures Normalize(py, "blue") == ("#0000FF", None)
  {
    assert CatalogueKey(py, "blue") == "BLUE";
    BlueIsCatalogued();
  }

  lemma BlueIsCatalogued()
    ensures Lookup(Catalogue, "BLUE") == Some(0x0000FF)
    ensures HexString(0x0000FF) == "#0000FF"
  {
    BlueInFirst();
    LookupConcat(Colors1, CatalogueRest, "BLUE");
    BlueHex();
  }

  lemma BlueInFirst()
    ensures Lookup(Colors1, "BLUE") == Some(0x0000FF)
  {
    assert Colors1[9] == ("BLUE", 0x0000FF);
    LookupFinds(Colors1, 9);
  }

  lemma BlueHex()
    ensures HexString(0x0000FF) == "#0000FF"
  {
    assert HexDigits(0, 2) == "00";
    assert HexDigits(0, 4) == HexDigits(0, 2) + "00";
    assert HexDigits(15, 5) == HexDigits(0, 4) + "F";
    assert HexDigits(0x0000FF, 6) == HexDigits(15, 5) + "F";
  }
}
