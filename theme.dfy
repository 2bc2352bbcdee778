/**
 * The application theme (Unigram/Unigram/Common/Theme.cs): the custom theme file parser
 * with its ARGB decoding, the outgoing-message palette and its "Outgoing" key mapping,
 * the chat-theme change tracker, and the settings store helpers behind the message
 * font size.
 */
module Themes {
  import opened Wrappers
  import opened DotNetText

  // ---------------------------------------------------------------------------
  // Colours
  // ---------------------------------------------------------------------------

  newtype byte = x: int | 0 <= x < 0x100

  /** `Windows.UI.Color`. */
  datatype Color = Color(a: byte, r: byte, g: byte, b: byte)

  /**
   * The colour a theme file's 32-bit value stands for: masking with 0xff000000,
   * 0x00ff0000, 0x0000ff00, 0x000000ff and shifting right by 24, 16, 8, 0 takes bytes
   * 3, 2, 1 and 0 of the bit pattern as alpha, red, green and blue.
   */
  function Unpack(bits: nat): (c: Color)
    requires bits < Bits32
    ensures Pack(c) == bits
  {
    var q1, q2 := bits / 0x100, bits / 0x100 / 0x100;
    DivModUnique(bits, 0x1_0000, q2, 0x100 * (q1 % 0x100) + bits % 0x100);
    DivModUnique(bits, 0x100_0000, q2 / 0x100, 0x1_0000 * (q2 % 0x100) + 0x100 * (q1 % 0x100) + bits % 0x100);
    Color((bits / 0x100_0000) as byte, (bits / 0x1_0000 % 0x100) as byte,
          (bits / 0x100 % 0x100) as byte, (bits % 0x100) as byte)
  }

  /** `a << 24 | r << 16 | g << 8 | b`. */
  function Pack(c: Color): (bits: nat)
    ensures bits < Bits32
  {
    c.a as nat * 0x100_0000 + c.r as nat * 0x1_0000 + c.g as nat * 0x100 + c.b as nat
  }

  /** Decoding a packed colour gives back the colour. */
  lemma UnpackPack(c: Color)
    ensures Unpack(Pack(c)) == c
  {
    var a, r, g, b := c.a as nat, c.r as nat, c.g as nat, c.b as nat;
    var bits := Pack(c);
    DivModUnique(bits, 0x100_0000, a, r * 0x1_0000 + g * 0x100 + b);
    DivModUnique(bits, 0x1_0000, a * 0x100 + r, g * 0x100 + b);
    DivModUnique(a * 0x100 + r, 0x100, a, r);
    DivModUnique(bits, 0x100, a * 0x1_0000 + r * 0x100 + g, b);
    DivModUnique(a * 0x1_0000 + r * 0x100 + g, 0x100, a * 0x100 + r, g);
  }

  // ---------------------------------------------------------------------------
  // Custom theme files
  // ---------------------------------------------------------------------------

  /** `TelegramTheme`, a flags enumeration: Light = 1, Dark = 2. */
  const LightTheme: int := 1
  const DarkTheme: int := 2

  /** How `UpdateCustom` treats one line of a theme file. */
  datatype LineKind =
    | NameLine
    | ParentLine(argument: string)
    | BlankLine
    | NoSeparator
    | Pair(key: string, value: string)

  function Classify(line: string): (k: LineKind)
    ensures k.NameLine? <==> StartsWith(line, "name: ")
    ensures k.ParentLine? ==> StartsWith(line, "parent: ")
    ensures k.Pair? ==> ':' in line
    ensures k.NoSeparator? ==> ':' !in line
  {
    if StartsWith(line, "name: ") then NameLine
    else if StartsWith(line, "parent: ") then ParentLine(line[|"parent: "|..])
    else if line == "!" || line == "#" || IsNullOrWhiteSpace(line) then BlankLine
    else
      var split := Split(line, ':');
      if |split| < 2 then NoSeparator else Pair(Trim(split[0]), Trim(split[1]))
  }

  /** A value of the form `#` followed by a hexadecimal number that fits 32 bits. */
  function ColorValue(value: string): (r: Option<Color>)
    ensures r.Some? ==> StartsWith(value, "#") && ParseHex32(value[1..]) == Some(Pack(r.value))
    ensures StartsWith(value, "#") && ParseHex32(value[1..]).Some? ==> r.Some?
  {
    if StartsWith(value, "#") then
      match ParseHex32(value[1..])
      case Some(bits) => Some(Unpack(bits))
      case None => None
    else None
  }

  datatype Entry = Entry(key: string, color: Color)

  /** The dictionary entry a line contributes, if any. */
  function EntryOf(line: string): (r: Option<Entry>)
    ensures r.Some? <==> Classify(line).Pair? && ColorValue(Classify(line).value).Some?
    ensures r.Some? ==> r.value.key == Classify(line).key && Some(r.value.color) == ColorValue(Classify(line).value)
  {
    match Classify(line)
    case Pair(key, value) =>
      (match ColorValue(value)
       case Some(c) => Some(Entry(key, c))
       case None => None)
    case _ => None
  }

  /** What a theme file yields: the parent theme and the colour dictionary. */
  datatype CustomTheme = CustomTheme(parent: int, values: map<string, Color>)

  /** `int.Parse` of a "parent: " argument throws; the exception leaves `UpdateCustom`. */
  datatype ThemeError = ParentFormat(lineIndex: nat)

  /** The effect of line number `index` on what has been read so far. */
  function Step(t: CustomTheme, line: string, index: nat): Result<CustomTheme, ThemeError> {
    match Classify(line)
    case ParentLine(argument) =>
      (match ParseInt32(argument)
       case Some(p) => Success(t.(parent := p))
       case None => Failure(ParentFormat(index)))
    case _ =>
      (match EntryOf(line)
       case Some(e) => Success(t.(values := t.values[e.key := e.color]))
       case None => Success(t))
  }

  /**
   * One line fails exactly when it is a "parent: " line whose argument is not a 32-bit
   * integer, and then with its own index; every other line keeps the parent theme.
   */
  lemma StepOutcome(t: CustomTheme, line: string, index: nat)
    ensures Step(t, line, index).Failure? <==>
      Classify(line).ParentLine? && ParseInt32(Classify(line).argument).None?
    ensures Step(t, line, index).Failure? ==> Step(t, line, index).error == ParentFormat(index)
    ensures Step(t, line, index).Success? && !Classify(line).ParentLine? ==>
      Step(t, line, index).value.parent == t.parent
  {
  }

  /** Reading `lines` in order, starting from the requested theme and no colours. */
  function Parsed(lines: seq<string>, requested: int): (r: Result<CustomTheme, ThemeError>)
    ensures r.Failure? ==> r.error.lineIndex < |lines|
    decreases |lines|
  {
    if |lines| == 0 then Success(CustomTheme(requested, map[]))
    else
      match Parsed(lines[..|lines| - 1], requested)
      case Failure(e) => Failure(e)
      case Success(t) => Step(t, lines[|lines| - 1], |lines| - 1)
  }

  /**
   * The line loop of `UpdateCustom`: "name: " lines, "!", "#", blank lines and lines
   * without ':' are skipped, each "parent: N" line replaces the requested theme, and each
   * "key: #hex" line stores a colour, a later line overwriting an earlier one.
   */
  method ParseCustomTheme(lines: seq<string>, requested: int) returns (r: Result<CustomTheme, ThemeError>)
    ensures r == Parsed(lines, requested)
  {
    var theme := CustomTheme(requested, map[]);
    var i := 0;
    while i < |lines|
      invariant 0 <= i <= |lines|
      invariant Parsed(lines[..i], requested) == Success(theme)
    {
      var next := ReadLine(theme, lines[i], i);
      ParsedNext(lines, requested, i, theme);
      if next.Failure? {
        FailurePersists(lines, requested, i + 1);
        return next;
      }
      theme := next.value;
      i := i + 1;
    }
    WholePrefix(lines);
    r := Success(theme);
  }

  /** The body of the line loop: skip the line, replace the parent, or store a colour. */
  method ReadLine(before: CustomTheme, line: string, index: nat) returns (r: Result<CustomTheme, ThemeError>)
    ensures r == Step(before, line, index)
  {
    r := Success(before);
    if StartsWith(line, "name: ") {
      StepName(before, line, index);
    } else if StartsWith(line, "parent: ") {
      StepParent(before, line, index);
      var p := ParseInt32(line[|"parent: "|..]);
      if p.None? {
        r := Failure(ParentFormat(index));
      } else {
        r := Success(before.(parent := p.value));
      }
    } else if line == "!" || line == "#" || IsNullOrWhiteSpace(line) {
      StepBlank(before, line, index);
    } else {
      StepOther(before, line, index);
      var split := Split(line, ':');
      if |split| >= 2 {
        var key := Trim(split[0]);
        var value := Trim(split[1]);
        var color := ReadColor(value);
        if color.Some? {
          r := Success(before.(values := before.values[key := color.value]));
        }
      }
    }
  }

  /** The value half of a "key: value" line: `#` and a hexadecimal 32-bit ARGB pattern. */
  method ReadColor(value: string) returns (color: Option<Color>)
    ensures color == ColorValue(value)
  {
    color := None;
    if StartsWith(value, "#") {
      var hex := ParseHex32(value[1..]);
      if hex.Some? {
        color := Some(Unpack(hex.value));
      }
    }
  }

  lemma StepName(t: CustomTheme, line: string, index: nat)
    requires StartsWith(line, "name: ")
    ensures Step(t, line, index) == Success(t)
  {
    assert Classify(line) == NameLine;
  }

  lemma StepParent(t: CustomTheme, line: string, index: nat)
    requires !StartsWith(line, "name: ") && StartsWith(line, "parent: ")
    ensures ParseInt32(line[|"parent: "|..]).None? ==> Step(t, line, index) == Failure(ParentFormat(index))
    ensures ParseInt32(line[|"parent: "|..]).Some? ==>
      Step(t, line, index) == Success(t.(parent := ParseInt32(line[|"parent: "|..]).value))
  {
    assert Classify(line) == ParentLine(line[|"parent: "|..]);
  }

  lemma StepBlank(t: CustomTheme, line: string, index: nat)
    requires !StartsWith(line, "name: ") && !StartsWith(line, "parent: ")
    requires line == "!" || line == "#" || IsNullOrWhiteSpace(line)
    ensures Step(t, line, index) == Success(t)
  {
    assert Classify(line) == BlankLine;
  }

  lemma StepOther(t: CustomTheme, line: string, index: nat)
    requires !StartsWith(line, "name: ") && !StartsWith(line, "parent: ")
    requires !(line == "!" || line == "#" || IsNullOrWhiteSpace(line))
    ensures |Split(line, ':')| < 2 ==> Step(t, line, index) == Success(t)
    ensures |Split(line, ':')| >= 2 ==>
      var key := Trim(Split(line, ':')[0]);
      var value := Trim(Split(line, ':')[1]);
      Step(t, line, index) ==
        Success(match ColorValue(value) case Some(c) => t.(values := t.values[key := c]) case None => t)
  {
    var split := Split(line, ':');
    if |split| >= 2 {
      var key, value := Trim(split[0]), Trim(split[1]);
      assert Classify(line) == Pair(key, value);
      StepPair(t, line, index, key, value);
    } else {
      assert Classify(line) == NoSeparator;
    }
  }

  lemma StepPair(t: CustomTheme, line: string, index: nat, key: string, value: string)
    requires Classify(line) == Pair(key, value)
    ensures Step(t, line, index) ==
      Success(match ColorValue(value) case Some(c) => t.(values := t.values[key := c]) case None => t)
  {
    assert EntryOf(line) == (match ColorValue(value) case Some(c) => Some(Entry(key, c)) case None => None);
  }

  lemma ParsedNext(lines: seq<string>, requested: int, i: nat, t: CustomTheme)
    requires i < |lines| && Parsed(lines[..i], requested) == Success(t)
    ensures Parsed(lines[..i + 1], requested) == Step(t, lines[i], i)
  {
    assert lines[..i + 1][..i] == lines[..i];
  }

  lemma FailureNext(lines: seq<string>, requested: int, i: nat)
    requires i < |lines| && Parsed(lines[..i], requested).Failure?
    ensures Parsed(lines[..i + 1], requested) == Parsed(lines[..i], requested)
  {
    var prefix := lines[..i + 1];
    assert prefix[..|prefix| - 1] == lines[..i];
  }

  /** Once a prefix has failed, the whole file fails with the same error. */
  lemma {:induction false} FailurePersists(lines: seq<string>, requested: int, i: nat)
    requires i <= |lines| && Parsed(lines[..i], requested).Failure?
    ensures Parsed(lines, requested) == Parsed(lines[..i], requested)
    decreases |lines| - i
  {
    if i < |lines| {
      FailureNext(lines, requested, i);
      FailurePersists(lines, requested, i + 1);
    } else {
      WholePrefix(lines);
    }
  }

  lemma WholePrefix(lines: seq<string>)
    ensures lines[..|lines|] == lines
  {
  }

  /** A "parent: " line whose argument `int.Parse` rejects. */
  predicate BadParentLine(line: string) {
    !StartsWith(line, "name: ") && StartsWith(line, "parent: ")
    && ParseInt32(line[|"parent: "|..]).None?
  }

  predicate BadParentAt(lines: seq<string>, j: nat)
    requires j < |lines|
  {
    BadParentLine(lines[j])
  }

  /** The first "parent: " line whose argument is not a 32-bit integer. */
  function FirstBadParent(lines: seq<string>): (r: Option<nat>)
    ensures r.Some? ==> r.value < |lines|
    decreases |lines|
  {
    if |lines| == 0 then None
    else
      match FirstBadParent(lines[..|lines| - 1])
      case Some(j) => Some(j)
      case None => if BadParentAt(lines, |lines| - 1) then Some(|lines| - 1) else None
  }

  /** `FirstBadParent` finds a malformed "parent: " line with none before it, or says there is none. */
  lemma {:induction false} FirstBadParentIsFirst(lines: seq<string>)
    ensures FirstBadParent(lines).Some? ==>
      BadParentAt(lines, FirstBadParent(lines).value)
      && forall j :: 0 <= j < FirstBadParent(lines).value ==> !BadParentAt(lines, j)
    ensures FirstBadParent(lines).None? ==> forall j :: 0 <= j < |lines| ==> !BadParentAt(lines, j)
    decreases |lines|
  {
    if |lines| > 0 {
      var front := lines[..|lines| - 1];
      FirstBadParentIsFirst(front);
      PrefixBadParents(front, lines);
      if FirstBadParent(front).None? {
        forall j | 0 <= j < |lines|
          ensures !BadParentAt(lines, j) || j == |lines| - 1
        {
          if j < |front| {
            assert !BadParentAt(front, j);
          }
        }
      }
    }
  }

  lemma PrefixBadParents(front: seq<string>, lines: seq<string>)
    requires front <= lines
    ensures forall k :: 0 <= k < |front| ==> BadParentAt(front, k) == BadParentAt(lines, k)
  {
    forall k | 0 <= k < |front|
      ensures BadParentAt(front, k) == BadParentAt(lines, k)
    {
      assert front[k] == lines[k];
    }
  }

  /** The value of the last "parent: " line, or the requested theme when there is none. */
  function LastParent(lines: seq<string>, requested: int): int
    decreases |lines|
  {
    if |lines| == 0 then requested
    else
      var line := lines[|lines| - 1];
      match Classify(line)
      case ParentLine(argument) =>
        (match ParseInt32(argument)
         case Some(p) => p
         case None => LastParent(lines[..|lines| - 1], requested))
      case _ => LastParent(lines[..|lines| - 1], requested)
  }

  /** The colour of the last line that stores `key`. */
  function LastColor(lines: seq<string>, key: string): Option<Color>
    decreases |lines|
  {
    if |lines| == 0 then None
    else
      match EntryOf(lines[|lines| - 1])
      case Some(e) => if e.key == key then Some(e.color) else LastColor(lines[..|lines| - 1], key)
      case None => LastColor(lines[..|lines| - 1], key)
  }

  /** The file fails exactly when some "parent: " argument is malformed, at the first such line. */
  lemma {:induction false} ParsedFailure(lines: seq<string>, requested: int)
    ensures Parsed(lines, requested).Failure? <==> FirstBadParent(lines).Some?
    ensures Parsed(lines, requested).Failure? ==>
      Parsed(lines, requested).error == ParentFormat(FirstBadParent(lines).value)
    decreases |lines|
  {
    if |lines| > 0 {
      var front := lines[..|lines| - 1];
      ParsedFailure(front, requested);
      assert forall k :: 0 <= k < |front| ==> front[k] == lines[k];
    }
  }

  /** The last "parent: " line wins. */
  lemma {:induction false} ParsedParent(lines: seq<string>, requested: int)
    requires Parsed(lines, requested).Success?
    ensures Parsed(lines, requested).value.parent == LastParent(lines, requested)
    decreases |lines|
  {
    if |lines| > 0 {
      ParsedParent(lines[..|lines| - 1], requested);
    }
  }

  /** A key holds a colour exactly when some line stores it, and the last such line wins. */
  lemma {:induction false} ParsedColor(lines: seq<string>, requested: int, key: string)
    requires Parsed(lines, requested).Success?
    ensures key in Parsed(lines, requested).value.values <==> LastColor(lines, key).Some?
    ensures key in Parsed(lines, requested).value.values ==>
      Parsed(lines, requested).value.values[key] == LastColor(lines, key).value
    decreases |lines|
  {
    if |lines| > 0 {
      ParsedColor(lines[..|lines| - 1], requested, key);
    }
  }

  /** Lines that are skipped change nothing: neither the parent nor any colour. */
  lemma SkippedLine(lines: seq<string>, requested: int, line: string)
    requires Classify(line).NameLine? || Classify(line).BlankLine? || Classify(line).NoSeparator?
    ensures Parsed(lines + [line], requested) == Parsed(lines, requested)
  {
    assert (lines + [line])[..|lines|] == lines;
  }

  /** A key free of ':' and outer white space, then ": ", then a value, reads as that pair. */
  lemma PairLine(key: string, value: string)
    requires |key| > 0 && ':' !in key
    requires !IsWhiteSpace(key[0]) && !IsWhiteSpace(key[|key| - 1])
    requires key != "name" && key != "parent"
    requires |value| > 0 && ':' !in value
    requires !IsWhiteSpace(value[0]) && !IsWhiteSpace(value[|value| - 1])
    ensures Classify(key + ": " + value) == Pair(key, value)
  {
    var rest := " " + value;
    PairTrims(key, value);
    assert ':' !in rest;
    PairLineShape(key, rest);
    ColonSpace(key, value);
    ClassifySplit(key + [':'] + rest, key, rest);
  }

  lemma ColonSpace(key: string, value: string)
    ensures key + ": " + value == key + [':'] + (" " + value)
  {
  }

  /** The key and the value of a "key: value" line are their own trims. */
  lemma PairTrims(key: string, value: string)
    requires |key| > 0 && !IsWhiteSpace(key[0]) && !IsWhiteSpace(key[|key| - 1])
    requires |value| > 0 && !IsWhiteSpace(value[0]) && !IsWhiteSpace(value[|value| - 1])
    ensures Trim(key) == key && Trim(" " + value) == value
  {
    TrimUnchanged(key);
    TrimLeadingWhite(" ", value);
  }

  lemma PairLineShape(key: string, rest: string)
    requires |key| > 0 && ':' !in key && ':' !in rest
    requires key != "name" && key != "parent"
    ensures var line := key + [':'] + rest;
      && !StartsWith(line, "name: ") && !StartsWith(line, "parent: ")
      && line != "!" && line != "#" && !IsNullOrWhiteSpace(line)
      && Split(line, ':') == [key, rest]
  {
    var line := key + [':'] + rest;
    NotPrefixed(key, rest, "name: ", 4);
    NotPrefixed(key, rest, "parent: ", 6);
    assert line[|key|] == ':' && !IsWhiteSpace(line[|key|]);
    SplitPair(key, rest);
  }

  lemma ClassifySplit(line: string, first: string, second: string)
    requires !StartsWith(line, "name: ") && !StartsWith(line, "parent: ")
    requires line != "!" && line != "#" && !IsNullOrWhiteSpace(line)
    requires Split(line, ':') == [first, second]
    ensures Classify(line) == Pair(Trim(first), Trim(second))
  {
  }

  lemma SplitPair(key: string, rest: string)
    requires ':' !in key && ':' !in rest
    ensures Split(key + [':'] + rest, ':') == [key, rest]
  {
    SplitJoin([key, rest], ':');
    assert Join([key, rest], ':') == key + [':'] + rest;
  }

  /** `#` and eight hexadecimal digits of a packed colour read back as the colour. */
  lemma HexColorValue(c: Color)
    ensures ColorValue("#" + Hex8(Pack(c))) == Some(c)
  {
    var value := "#" + Hex8(Pack(c));
    assert value[1..] == Hex8(Pack(c));
    Hex8RoundTrip(Pack(c));
    UnpackPack(c);
  }

  /** The line `key: #AARRGGBB` reads back as the entry (key, colour). */
  lemma EntryRoundTrip(key: string, c: Color)
    requires |key| > 0 && ':' !in key
    requires !IsWhiteSpace(key[0]) && !IsWhiteSpace(key[|key| - 1])
    requires key != "name" && key != "parent"
    ensures EntryOf(key + ": #" + Hex8(Pack(c))) == Some(Entry(key, c))
  {
    var hex := Hex8(Pack(c));
    var value := "#" + hex;
    HexValueShape(hex);
    PairLine(key, value);
    HexColorValue(c);
    EntryOfPair(key + ": " + value, key, value, c);
    HashLine(key, hex);
  }

  lemma HashLine(key: string, hex: string)
    ensures key + ": #" + hex == key + ": " + ("#" + hex)
  {
  }

  lemma EntryOfPair(line: string, key: string, value: string, c: Color)
    requires Classify(line) == Pair(key, value) && ColorValue(value) == Some(c)
    ensures EntryOf(line) == Some(Entry(key, c))
  {
  }

  lemma HexValueShape(hex: string)
    requires |hex| > 0 && forall i :: 0 <= i < |hex| ==> IsHexDigit(hex[i])
    ensures var value := "#" + hex;
      ':' !in value && !IsWhiteSpace(value[0]) && !IsWhiteSpace(value[|value| - 1])
  {
    var value := "#" + hex;
    assert forall i :: 0 < i < |value| ==> value[i] == hex[i - 1];
    assert IsHexDigit(value[|value| - 1]);
  }

  /** `key + ": ..."` does not start with a prefix whose only ':' sits at `colon`. */
  lemma NotPrefixed(key: string, rest: string, prefix: string, colon: nat)
    requires ':' !in key && colon < |prefix| && prefix[colon] == ':'
    requires forall i :: 0 <= i < |prefix| && i != colon ==> prefix[i] != ':'
    requires key != prefix[..colon]
    ensures !StartsWith(key + [':'] + rest, prefix)
  {
    var line := key + [':'] + rest;
    if |prefix| <= |line| {
      var k: nat;
      if |key| < colon {
        k := |key|;
      } else if |key| > colon {
        k := colon;
        assert key[colon] != ':';
      } else {
        k :| k < colon && key[k] != prefix[k];
      }
      assert line[k] != prefix[k];
      assert line[..|prefix|][k] != prefix[k];
    }
  }

  // ---------------------------------------------------------------------------
  // Outgoing message palette
  // ---------------------------------------------------------------------------

  /** A brush colour: one of the built-in hexadecimal codes, or a colour read from a theme. */
  datatype BrushColor = Preset(code: nat) | Themed(color: Color)

  function LightPalette(): map<string, BrushColor> {
    map[
      "MessageForegroundBrush" := Preset(0x000000),
      "MessageForegroundLinkBrush" := Preset(0x168ACD),
      "MessageBackgroundBrush" := Preset(0xF0FDDF),
      "MessageSubtleLabelBrush" := Preset(0x6DC264),
      "MessageSubtleGlyphBrush" := Preset(0x5DC452),
      "MessageSubtleForegroundBrush" := Preset(0x6DC264),
      "MessageHeaderForegroundBrush" := Preset(0x3A8E26),
      "MessageHeaderBorderBrush" := Preset(0x5DC452),
      "MessageMediaForegroundBrush" := Preset(0xF0FDDF),
      "MessageMediaBackgroundBrush" := Preset(0x78C67F),
      "MessageOverlayBackgroundBrush" := Preset(0x54000000),
      "MessageCallForegroundBrush" := Preset(0x2AB32A),
      "MessageCallMissedForegroundBrush" := Preset(0xDD5849)
    ]
  }

  function DarkPalette(): map<string, BrushColor> {
    map[
      "MessageForegroundBrush" := Preset(0xE4ECF2),
      "MessageForegroundLinkBrush" := Preset(0x83CAFF),
      "MessageBackgroundBrush" := Preset(0x2B5278),
      "MessageSubtleLabelBrush" := Preset(0x7DA8D3),
      "MessageSubtleGlyphBrush" := Preset(0x72BCFD),
      "MessageSubtleForegroundBrush" := Preset(0x7DA8D3),
      "MessageHeaderForegroundBrush" := Preset(0x90CAFF),
      "MessageHeaderBorderBrush" := Preset(0x65B9F4),
      "MessageMediaForegroundBrush" := Preset(0xFFFFFF),
      "MessageMediaBackgroundBrush" := Preset(0x4C9CE2),
      "MessageOverlayBackgroundBrush" := Preset(0x54000000),
      "MessageCallForegroundBrush" := Preset(0x49A2F0),
      "MessageCallMissedForegroundBrush" := Preset(0xED5050)
    ]
  }

  /** The light and the dark outgoing palettes define the same thirteen brushes. */
  lemma PalettesAlike()
    ensures LightPalette().Keys == DarkPalette().Keys
    ensures forall brush :: brush in LightPalette() ==> LightPalette()[brush].Preset? && DarkPalette()[brush].Preset?
  {
  }

  /** The theme key that recolours `brush`: "XBrush" is set by "XOutgoing". */
  function SourceKey(brush: string): Option<string> {
    if EndsWith(brush, "Brush") then Some(brush[..|brush| - |"Brush"|] + "Outgoing") else None
  }

  /** The brush a theme key names, for keys ending in "Outgoing". */
  function BrushOf(key: string): Option<string> {
    if EndsWith(key, "Outgoing") then Some(key[..|key| - |"Outgoing"|] + "Brush") else None
  }

  /** A key recolours a brush exactly when the brush's source key is that key. */
  lemma BrushOfSourceKey(key: string, brush: string)
    ensures BrushOf(key) == Some(brush) <==> SourceKey(brush) == Some(key)
  {
    if BrushOf(key) == Some(brush) {
      var stem := key[..|key| - 8];
      assert brush == stem + "Brush";
      assert brush[..|brush| - 5] == stem;
      assert key == stem + "Outgoing";
    }
    if SourceKey(brush) == Some(key) {
      var stem := brush[..|brush| - 5];
      assert key == stem + "Outgoing";
      assert key[..|key| - 8] == stem;
      assert brush == stem + "Brush";
    }
  }

  /** The palette after recolouring with `values`: brush "XBrush" takes the colour of "XOutgoing". */
  function Recolored(palette: map<string, BrushColor>, values: map<string, Color>): (r: map<string, BrushColor>)
    ensures r.Keys == palette.Keys
  {
    map brush | brush in palette ::
      if SourceKey(brush).Some? && SourceKey(brush).value in values
      then Themed(values[SourceKey(brush).value]) else palette[brush]
  }

  /** Recolouring keeps the brush set and touches only brushes some "Outgoing" key names. */
  lemma RecoloredOnlyNamed(palette: map<string, BrushColor>, values: map<string, Color>, brush: string)
    ensures Recolored(palette, values).Keys == palette.Keys
    ensures brush in palette && Recolored(palette, values)[brush] != palette[brush] ==>
      exists key :: key in values && BrushOf(key) == Some(brush)
  {
    if brush in palette && Recolored(palette, values)[brush] != palette[brush] {
      var key := SourceKey(brush).value;
      BrushOfSourceKey(key, brush);
    }
  }

  /** Keys that do not end in "Outgoing" recolour nothing. */
  lemma OtherKeysIgnored(palette: map<string, BrushColor>, values: map<string, Color>, key: string, c: Color)
    requires !EndsWith(key, "Outgoing")
    ensures Recolored(palette, values[key := c]) == Recolored(palette, values - {key})
  {
    forall brush | brush in palette
      ensures Recolored(palette, values[key := c])[brush] == Recolored(palette, values - {key})[brush]
    {
      if SourceKey(brush) == Some(key) {
        BrushOfSourceKey(key, brush);
      }
    }
  }

  /** Adding one key to the colour dictionary recolours at most the brush that key names. */
  lemma RecolorOne(palette: map<string, BrushColor>, before: map<string, Color>, key: string, c: Color)
    requires key !in before
    ensures Recolored(palette, before[key := c]) ==
      if BrushOf(key).Some? && BrushOf(key).value in palette
      then Recolored(palette, before)[BrushOf(key).value := Themed(c)]
      else Recolored(palette, before)
  {
    var after := before[key := c];
    var expected :=
      if BrushOf(key).Some? && BrushOf(key).value in palette
      then Recolored(palette, before)[BrushOf(key).value := Themed(c)]
      else Recolored(palette, before);
    forall brush | brush in palette
      ensures Recolored(palette, after)[brush] == expected[brush]
    {
      BrushOfSourceKey(key, brush);
    }
  }

  /** The "Outgoing" loop of `ThemeOutgoing.Update`, over the dictionary's keys in any order. */
  method Recolor(palette: map<string, BrushColor>, values: map<string, Color>) returns (result: map<string, BrushColor>)
    ensures result == Recolored(palette, values)
  {
    result := palette;
    var pending := values.Keys;
    assert values - pending == map[];
    while pending != {}
      invariant pending <= values.Keys
      invariant result == Recolored(palette, values - pending)
      decreases |pending|
    {
      var key :| key in pending;
      RecolorOne(palette, values - pending, key, values[key]);
      assert values - (pending - {key}) == (values - pending)[key := values[key]];
      if EndsWith(key, "Outgoing") {
        var brush := key[..|key| - |"Outgoing"|] + "Brush";
        if brush in result {
          result := result[brush := Themed(values[key])];
        }
      }
      pending := pending - {key};
    }
    assert values - pending == values;
  }

  /** Which palette an update addresses. */
  datatype Shade = LightShade | DarkShade

  /** `ThemeOutgoing.Update(parent, values)` recolours the dark palette only for Dark. */
  function RecolorTarget(parent: int): Shade {
    if parent == DarkTheme then DarkShade else LightShade
  }

  /** `ThemeOutgoing.Update(parent)` resets the light palette only for Light. */
  function ResetTarget(parent: int): Shade {
    if parent == LightTheme then LightShade else DarkShade
  }

  /**
   * The two updates address the same palette exactly for the two named themes; any other
   * parent number (a custom file may give one) is recoloured in the light palette but
   * reset in the dark one.
   */
  lemma TargetsAgree(parent: int)
    ensures RecolorTarget(parent) == ResetTarget(parent) <==> parent == LightTheme || parent == DarkTheme
  {
  }

  /**
   * `ThemeOutgoing`: the light and dark palettes of the outgoing message brushes. The
   * source keeps them in two static dictionaries; one object stands for both here.
   */
  class ThemeOutgoing {
    var light: map<string, BrushColor>
    var dark: map<string, BrushColor>

    /** Both palettes hold exactly the thirteen built-in brushes: updates never add one. */
    predicate Valid()
      reads this
    {
      light.Keys == LightPalette().Keys && dark.Keys == DarkPalette().Keys
    }

    constructor()
      ensures Valid() && light == LightPalette() && dark == DarkPalette()
    {
      light := LightPalette();
      dark := DarkPalette();
    }

    /** `Update(parent, values)`: no dictionary resets a palette, a dictionary recolours one. */
    method Update(parent: int, values: Option<map<string, Color>>)
      requires Valid()
      modifies this
      ensures Valid()
      ensures values.None? && ResetTarget(parent) == LightShade ==> light == LightPalette() && dark == old(dark)
      ensures values.None? && ResetTarget(parent) == DarkShade ==> dark == DarkPalette() && light == old(light)
      ensures values.Some? && RecolorTarget(parent) == LightShade ==>
        light == Recolored(old(light), values.value) && dark == old(dark)
      ensures values.Some? && RecolorTarget(parent) == DarkShade ==>
        dark == Recolored(old(dark), values.value) && light == old(light)
    {
      if values.None? {
        Reset(parent);
        return;
      }
      if parent == DarkTheme {
        dark := Recolor(dark, values.value);
      } else {
        light := Recolor(light, values.value);
      }
    }

    /**
     * `Update(parent)`: every brush of one palette back to its built-in colour. As the
     * palette holds exactly the built-in brushes, that is the built-in palette.
     */
    method Reset(parent: int)
      requires Valid()
      modifies this
      ensures Valid()
      ensures ResetTarget(parent) == LightShade ==> light == LightPalette() && dark == old(dark)
      ensures ResetTarget(parent) == DarkShade ==> dark == DarkPalette() && light == old(light)
    {
      if parent == LightTheme {
        light := LightPalette();
      } else {
        dark := DarkPalette();
      }
    }
  }

  // ---------------------------------------------------------------------------
  // Chat theme tracking
  // ---------------------------------------------------------------------------

  /** `ElementTheme`. */
  datatype ElementTheme = DefaultElement | LightElement | DarkElement

  /** The part of TDLib's `ThemeSettings` the tracker reads; `backgroundId` is `Background?.Id`. */
  datatype ThemeSettings = ThemeSettings(accentColor: int, backgroundId: Option<int>, outgoingMessageAccentColor: int)

  /** TDLib's `ChatTheme`. */
  datatype ChatTheme = ChatTheme(name: string, lightSettings: ThemeSettings, darkSettings: ThemeSettings)

  /** `TelegramThemeType` of an accent theme. */
  datatype AccentType = Day | Tinted

  /** A palette switch the theme asks for. */
  datatype PaletteChange =
    | AccentPalette(accentType: AccentType, outgoingAccent: int)
    | DefaultPalette(parent: int)
    | CustomPalette(parent: int, values: map<string, Color>)

  /** What one `Update(ElementTheme, ChatTheme)` decides. */
  datatype Tracked = Tracked(updated: bool, accent: Option<int>, background: Option<int>, change: Option<PaletteChange>)

  /** The settings for the requested element theme: light for Light, dark for anything else. */
  function SettingsFor(requested: ElementTheme, theme: Option<ChatTheme>): Option<ThemeSettings> {
    match theme
    case None => None
    case Some(t) => Some(if requested == LightElement then t.lightSettings else t.darkSettings)
  }

  function TrackerStep(lastAccent: Option<int>, lastBackground: Option<int>,
                       requested: ElementTheme, theme: Option<ChatTheme>): (t: Tracked)
    ensures t.accent.Some? <==> theme.Some?
    ensures t.background.Some? ==> theme.Some?
    ensures theme.None? ==> (t.updated <==> lastBackground.Some?) && (t.change.Some? <==> lastAccent.Some?)
  {
    match SettingsFor(requested, theme)
    case Some(s) =>
      Tracked(lastBackground != s.backgroundId, Some(s.accentColor), s.backgroundId,
        if lastAccent != Some(s.accentColor)
        then Some(AccentPalette(if requested == LightElement then Day else Tinted, s.outgoingMessageAccentColor))
        else None)
    case None =>
      Tracked(lastBackground.Some?, None, None,
        if lastAccent.Some? then Some(DefaultPalette(if requested == DarkElement then DarkTheme else LightTheme))
        else None)
  }

  /** The result is true exactly when the recorded background changes, to or from none included. */
  lemma TrackerUpdatedIff(lastAccent: Option<int>, lastBackground: Option<int>,
                          requested: ElementTheme, theme: Option<ChatTheme>)
    ensures var t := TrackerStep(lastAccent, lastBackground, requested, theme);
      t.updated <==> t.background != lastBackground
  {
  }

  /** Afterwards the accent and background of the chosen settings, or none, are recorded. */
  lemma TrackerRecords(lastAccent: Option<int>, lastBackground: Option<int>,
                       requested: ElementTheme, theme: Option<ChatTheme>)
    ensures var t := TrackerStep(lastAccent, lastBackground, requested, theme);
      match SettingsFor(requested, theme)
      case Some(s) => t.accent == Some(s.accentColor) && t.background == s.backgroundId
      case None => t.accent.None? && t.background.None?
  {
  }

  /** A palette switch is asked for exactly when the recorded accent changes. */
  lemma TrackerChangeIff(lastAccent: Option<int>, lastBackground: Option<int>,
                         requested: ElementTheme, theme: Option<ChatTheme>)
    ensures var t := TrackerStep(lastAccent, lastBackground, requested, theme);
      t.change.Some? <==> t.accent != lastAccent
  {
  }

  /** Applying the same chat theme twice: the second time reports nothing and switches nothing. */
  lemma TrackerRepeat(lastAccent: Option<int>, lastBackground: Option<int>,
                      requested: ElementTheme, theme: Option<ChatTheme>)
    ensures var first := TrackerStep(lastAccent, lastBackground, requested, theme);
      var second := TrackerStep(first.accent, first.background, requested, theme);
      !second.updated && second.change.None?
      && second.accent == first.accent && second.background == first.background
  {
  }

  // ---------------------------------------------------------------------------
  // Settings store and the theme object
  // ---------------------------------------------------------------------------

  /** A value kept in the theme's settings container. */
  datatype StoreValue = DoubleValue(d: real) | IntValue(i: int) | StringValue(s: string) | BoolValue(b: bool)

  /** A boxed value: the store compares what it holds by reference. */
  class Box {
    const value: StoreValue

    constructor(value: StoreValue)
      ensures this.value == value
    {
      this.value := value;
    }
  }

  /** Unboxing to another type throws `InvalidCastException`. */
  datatype CastError = InvalidCast(key: string)

  predicate SameKind(a: StoreValue, b: StoreValue) {
    (a.DoubleValue? && b.DoubleValue?) || (a.IntValue? && b.IntValue?)
    || (a.StringValue? && b.StringValue?) || (a.BoolValue? && b.BoolValue?)
  }

  /** The C# `(int)` cast of a double: truncation toward zero. */
  function Truncate(d: real): (n: int)
    ensures -1.0 < d - n as real < 1.0
    ensures d >= 0.0 ==> 0.0 <= n as real <= d
    ensures d < 0.0 ==> d <= n as real <= 0.0
  {
    if d >= 0.0 then d.Floor else -((-d).Floor)
  }

  /** A whole number stored as a double casts back to itself. */
  lemma TruncateWhole(n: int)
    ensures Truncate(n as real) == n
  {
  }

  const FontSizeKey: string := "MessageFontSize"
  const DefaultFontSize: real := 14.0

  /** `Theme`: its settings store, the resources it publishes, and the chat-theme tracker. */
  class Theme {
    /** The outgoing message palettes. */
    const outgoing: ThemeOutgoing
    /** The "Theme" settings container's values. */
    var store: map<string, Box>
    /** The theme's own resource dictionary entries. */
    var resources: map<string, Box>
    var messageFontSize: Option<int>
    var lastAccent: Option<int>
    var lastBackground: Option<int>
    var lastTheme: Option<ChatTheme>
    /** The palette switches asked for so far, oldest first. */
    var changes: seq<PaletteChange>

    predicate Valid()
      reads this, outgoing
    {
      outgoing.Valid()
    }

    constructor(outgoing: ThemeOutgoing, store: map<string, Box>)
      requires outgoing.Valid()
      ensures Valid()
      ensures this.outgoing == outgoing && this.store == store && resources == map[]
      ensures messageFontSize.None? && lastAccent.None? && lastBackground.None? && lastTheme.None?
      ensures changes == []
    {
      this.outgoing := outgoing;
      this.store := store;
      resources := map[];
      messageFontSize := None;
      lastAccent := None;
      lastBackground := None;
      lastTheme := None;
      changes := [];
    }

    /**
     * `AddOrUpdateValue`: the store maps `key` to `value` afterwards; the result is false
     * only when the key already held that very box, and only a change reaches the resources.
     */
    method AddOrUpdateValue(key: string, value: Box) returns (changed: bool)
      modifies this`store, this`resources
      ensures changed <==> key !in old(store) || old(store)[key] != value
      ensures store == old(store)[key := value]
      ensures resources == if changed then old(resources)[key := value] else old(resources)
    {
      changed := false;
      if key in store {
        if store[key] != value {
          store := store[key := value];
          changed := true;
        }
      } else {
        store := store[key := value];
        changed := true;
      }
      if changed {
        // The indexer and `Add` both leave the key mapped to the value.
        resources := resources[key := value];
      }
    }

    /** `GetValueOrDefault`: the stored value when the key is present and of the default's type. */
    function GetValueOrDefault(key: string, default: StoreValue): (r: Result<StoreValue, CastError>)
      reads this
      ensures key !in store ==> r == Success(default)
      ensures key in store ==> (r.Success? <==> SameKind(store[key].value, default))
      ensures key in store && r.Success? ==> r.value == store[key].value
    {
      if key in store then
        var stored := store[key].value;
        if SameKind(stored, default) then Success(stored) else Failure(InvalidCast(key))
      else Success(default)
    }

    /** The `MessageFontSize` getter: the cached size, else the stored double cast to `int`. */
    method MessageFontSize() returns (r: Result<int, CastError>)
      modifies this`messageFontSize
      ensures old(messageFontSize).Some? ==> r == Success(old(messageFontSize).value) && messageFontSize == old(messageFontSize)
      ensures old(messageFontSize).None? ==>
        match GetValueOrDefault(FontSizeKey, DoubleValue(DefaultFontSize))
        case Success(v) => r == Success(Truncate(v.d)) && messageFontSize == Some(Truncate(v.d))
        case Failure(e) => r == Failure(e) && messageFontSize.None?
    {
      if messageFontSize.None? {
        var stored := GetValueOrDefault(FontSizeKey, DoubleValue(DefaultFontSize));
        if stored.Failure? {
          return Failure(stored.error);
        }
        messageFontSize := Some(Truncate(stored.value.d));
      }
      r := Success(messageFontSize.value);
    }

    /** The `MessageFontSize` setter: caches the size and stores it as a freshly boxed double. */
    method SetMessageFontSize(value: int)
      modifies this`messageFontSize, this`store, this`resources
      ensures messageFontSize == Some(value)
      ensures FontSizeKey in store && fresh(store[FontSizeKey])
      ensures store[FontSizeKey].value == DoubleValue(value as real)
      ensures forall k :: k in old(store) && k != FontSizeKey ==> k in store && store[k] == old(store)[k]
      ensures resources == old(resources)[FontSizeKey := store[FontSizeKey]]
    {
      messageFontSize := Some(value);
      var box := new Box(DoubleValue(value as real));
      var changed := AddOrUpdateValue(FontSizeKey, box);
    }

    /** `Update(TelegramTheme, values)`: the outgoing palettes follow the switch. */
    method ApplyPalette(parent: int, values: Option<map<string, Color>>)
      requires Valid()
      modifies this`changes, outgoing
      ensures Valid()
      ensures changes == old(changes) + [if values.Some? then CustomPalette(parent, values.value) else DefaultPalette(parent)]
      ensures values.None? && ResetTarget(parent) == LightShade ==>
        outgoing.light == LightPalette() && outgoing.dark == old(outgoing.dark)
      ensures values.None? && ResetTarget(parent) == DarkShade ==>
        outgoing.dark == DarkPalette() && outgoing.light == old(outgoing.light)
      ensures values.Some? && RecolorTarget(parent) == LightShade ==>
        outgoing.light == Recolored(old(outgoing.light), values.value) && outgoing.dark == old(outgoing.dark)
      ensures values.Some? && RecolorTarget(parent) == DarkShade ==>
        outgoing.dark == Recolored(old(outgoing.dark), values.value) && outgoing.light == old(outgoing.light)
    {
      outgoing.Update(parent, values);
      changes := changes + [if values.Some? then CustomPalette(parent, values.value) else DefaultPalette(parent)];
    }

    /**
     * `Update(ElementTheme, ChatTheme)`: reports whether the background changed, asks for
     * a palette switch when the accent changed, and records accent, background and theme.
     */
    method Update(requested: ElementTheme, theme: Option<ChatTheme>) returns (updated: bool)
      requires Valid()
      modifies this`lastAccent, this`lastBackground, this`lastTheme, this`changes, outgoing
      ensures Valid()
      ensures var t := TrackerStep(old(lastAccent), old(lastBackground), requested, theme);
        && updated == t.updated && lastAccent == t.accent && lastBackground == t.background
        && lastTheme == theme
        && changes == old(changes) + (if t.change.Some? then [t.change.value] else [])
      ensures var t := TrackerStep(old(lastAccent), old(lastBackground), requested, theme);
        t.change.Some? && t.change.value.DefaultPalette? && t.change.value.parent == LightTheme ==>
          outgoing.light == LightPalette() && outgoing.dark == old(outgoing.dark)
      ensures var t := TrackerStep(old(lastAccent), old(lastBackground), requested, theme);
        t.change.Some? && t.change.value.DefaultPalette? && t.change.value.parent == DarkTheme ==>
          outgoing.dark == DarkPalette() && outgoing.light == old(outgoing.light)
      ensures var t := TrackerStep(old(lastAccent), old(lastBackground), requested, theme);
        !(t.change.Some? && t.change.value.DefaultPalette?) ==>
          outgoing.light == old(outgoing.light) && outgoing.dark == old(outgoing.dark)
    {
      updated := false;
      var settings := SettingsFor(requested, theme);
      if settings.Some? {
        var s := settings.value;
        if lastAccent != Some(s.accentColor) {
          changes := changes + [AccentPalette(if requested == LightElement then Day else Tinted, s.outgoingMessageAccentColor)];
        }
        if lastBackground != s.backgroundId {
          updated := true;
        }
        lastAccent := Some(s.accentColor);
        lastBackground := s.backgroundId;
      } else {
        if lastAccent.Some? {
          ApplyPalette(if requested == DarkElement then DarkTheme else LightTheme, None);
        }
        if lastBackground.Some? {
          updated := true;
        }
        lastAccent := None;
        lastBackground := None;
      }
      lastTheme := theme;
    }

    /**
     * `UpdateCustom` over the file's lines: a malformed "parent: " line stops it with the
     * exception and nothing changes; otherwise the parsed colours are applied to the parsed
     * parent theme.
     */
    method UpdateCustom(lines: seq<string>, requested: int) returns (error: Option<ThemeError>)
      requires Valid()
      modifies this`changes, outgoing
      ensures Valid()
      ensures match Parsed(lines, requested)
        case Failure(e) => error == Some(e) && changes == old(changes)
          && outgoing.light == old(outgoing.light) && outgoing.dark == old(outgoing.dark)
        case Success(t) =>
          (&& error.None? && changes == old(changes) + [CustomPalette(t.parent, t.values)]
           && (RecolorTarget(t.parent) == LightShade ==>
                 outgoing.light == Recolored(old(outgoing.light), t.values) && outgoing.dark == old(outgoing.dark))
           && (RecolorTarget(t.parent) == DarkShade ==>
                 outgoing.dark == Recolored(old(outgoing.dark), t.values) && outgoing.light == old(outgoing.light)))
    {
      var parsed := ParseCustomTheme(lines, requested);
      if parsed.Failure? {
        return Some(parsed.error);
      }
      ApplyPalette(parsed.value.parent, Some(parsed.value.values));
      error := None;
    }
  }
}
