/**
 * `format_cadastral_info` (bot/utils/formatter.py): a registry feature record
 * becomes a six-line info text and the list of outer polygon rings. Missing
 * attributes fall back to fixed placeholders; area is chosen by Python
 * truthiness; the cost is grouped by thousands; Python exceptions raised by the
 * code are the Failure outcomes.
 */
module Formatter {
  import opened Wrappers

  /** An attribute value: an integer or a text (float values are not modelled). */
  datatype Scalar = Number(n: int) | Text(s: string)

  /** A vertex as the registry delivers it; coordinates are opaque, never computed on. */
  datatype Position = Position(longitude: real, latitude: real)

  /** A ring as the formatter returns it: (longitude, latitude) pairs. */
  type Point = (real, real)
  type Ring = seq<Point>

  /**
   * `feat.geometry`: the `type` tag with its `coordinates`. A Polygon holds
   * rings (the first is the outer one); a MultiPolygon holds polygons.
   */
  datatype Geometry =
    | Polygon(rings: seq<seq<Position>>)
    | MultiPolygon(polygons: seq<seq<seq<Position>>>)
    | OtherGeometry(geometryType: string)  // any type tag but "Polygon" and "MultiPolygon"

  /** `feat.properties.options`; None is an attribute the object does not have. */
  datatype Options = Options(
    landRecordType: Option<string>,
    readableAddress: Option<string>,
    specifiedArea: Option<Scalar>,
    landRecordArea: Option<Scalar>,
    costValue: Option<int>,
    landRecordCategoryType: Option<string>,
    permittedUseEstablishedByDocument: Option<string>)

  datatype Feature = Feature(options: Options, geometry: Option<Geometry>)

  /** The Python exceptions the formatter can raise, with their `str(e)`. */
  datatype FormatError = IndexOutOfRange | CommaWithString {
    function Message(): string {
      match this
      case IndexOutOfRange => "list index out of range"
      case CommaWithString => "Cannot specify ',' with 's'."
    }
  }

  const UnknownType := "Неизвестно"
  const UnknownAddress := "Неизвестен"
  const UnknownArea := "Неизвестна"
  const NoCost := "Не указана"
  const NoCategory := "Не указана"
  const NoPermittedUse := "Не установлен"

  const TypeLabel := "🏷 **Тип объекта:** "
  const AddressLabel := "📍 **Адрес:** "
  const AreaLabel := "📐 **Площадь:** "
  const AreaUnit := " кв.м"
  const CostLabel := "💰 **Кадастровая стоимость:** "
  const CostUnit := " ₽"
  const CategoryLabel := "🏞 **Категория земель:** "
  const UseLabel := "📄 **Вид разрешенного использования:** "

  // ---------------------------------------------------------------------------
  // Decimal digits and thousands grouping

  predicate IsDigit(c: char) { '0' <= c <= '9' }

  predicate AllDigits(s: string) { forall i :: 0 <= i < |s| ==> IsDigit(s[i]) }

  function DigitChar(d: nat): char
    requires d < 10
  {
    "0123456789"[d]
  }

  /** The numeric value of a digit string, most significant digit first. */
  function DigitsValue(s: string): nat
    requires AllDigits(s)
  {
    if s == [] then 0
    else DigitsValue(s[..|s| - 1]) * 10 + ((s[|s| - 1] as int) - ('0' as int))
  }

  /** Python's `str(n)` for a non-negative integer: no leading zero, at least one digit. */
  function Digits(n: nat): (r: string)
    ensures |r| >= 1 && AllDigits(r)
    ensures r[0] == '0' ==> n == 0
    ensures n < 10 ==> |r| == 1
    ensures n < 100 ==> |r| <= 2
    ensures n < 1000 ==> |r| <= 3
    decreases n
  {
    if n < 10 then [DigitChar(n)] else Digits(n / 10) + [DigitChar(n % 10)]
  }

  /** Reading the digits back gives the number. */
  lemma {:induction false} DigitsRoundTrip(n: nat)
    ensures DigitsValue(Digits(n)) == n
  {
    var s := Digits(n);
    if n >= 10 {
      DigitsRoundTrip(n / 10);
      assert s[..|s| - 1] == Digits(n / 10);
    }
  }

  /** Python's `str(n)` for any integer. */
  function IntToString(n: int): string
  {
    if n < 0 then "-" + Digits(-n) else Digits(n)
  }

  /** The text with every space removed. */
  function RemoveSpaces(s: string): string
  {
    if s == [] then [] else (if s[0] == ' ' then "" else [s[0]]) + RemoveSpaces(s[1..])
  }

  lemma {:induction false} RemoveSpacesConcat(a: string, b: string)
    ensures RemoveSpaces(a + b) == RemoveSpaces(a) + RemoveSpaces(b)
  {
    if a != [] {
      assert (a + b)[0] == a[0];
      assert (a + b)[1..] == a[1..] + b;
      RemoveSpacesConcat(a[1..], b);
    } else {
      assert a + b == b;
    }
  }

  lemma {:induction false} RemoveSpacesNoSpace(s: string)
    requires forall i :: 0 <= i < |s| ==> s[i] != ' '
    ensures RemoveSpaces(s) == s
  {
    if s != [] {
      RemoveSpacesNoSpace(s[1..]);
    }
  }

  /** `f"{n:,}".replace(",", " ")` on the digit string of `n`: groups of three from the right. */
  function Group(d: string): (r: string)
    ensures |d| >= 1 ==> |r| == |d| + (|d| - 1) / 3
    decreases |d|
  {
    if |d| <= 3 then d else Group(d[..|d| - 3]) + " " + d[|d| - 3..]
  }

  /** Removing the separators gives the plain digits back. */
  lemma {:induction false} GroupRoundTrip(d: string)
    requires forall i :: 0 <= i < |d| ==> d[i] != ' '
    ensures RemoveSpaces(Group(d)) == d
  {
    if |d| <= 3 {
      RemoveSpacesNoSpace(d);
    } else {
      var head, tail := d[..|d| - 3], d[|d| - 3..];
      assert forall i :: 0 <= i < |head| ==> head[i] == d[i];
      assert forall i :: 0 <= i < |tail| ==> tail[i] == d[|d| - 3 + i];
      var g := Group(head);
      GroupRoundTrip(head);
      assert Group(d) == (g + " ") + tail;
      RemoveSpacesConcat(g + " ", tail);
      RemoveSpacesConcat(g, " ");
      assert RemoveSpaces(" ") == "";
      RemoveSpacesNoSpace(tail);
      calc {
        RemoveSpaces(Group(d));
        RemoveSpaces(g + " ") + RemoveSpaces(tail);
        RemoveSpaces(g) + RemoveSpaces(" ") + tail;
        head + tail;
        d;
      }
    }
  }

  /** Grouping digits yields only digits and separators. */
  lemma {:induction false} GroupChars(d: string)
    requires AllDigits(d)
    ensures forall i :: 0 <= i < |Group(d)| ==> Group(d)[i] == ' ' || IsDigit(Group(d)[i])
    ensures NoNewline(Group(d))
  {
    if |d| > 3 {
      var head, tail := d[..|d| - 3], d[|d| - 3..];
      GroupChars(head);
      var g, r := Group(head), Group(d);
      assert r == g + " " + tail;
      forall i | 0 <= i < |r| ensures r[i] == ' ' || IsDigit(r[i]) {
        if i < |g| {
          assert r[i] == g[i];
        } else if i > |g| {
          assert r[i] == tail[i - |g| - 1];
        }
      }
    }
  }

  /** Appending a space and three digits keeps every space at a multiple of four from the end. */
  lemma SpacedLayout(g: string, tail: string)
    requires |tail| == 3 && AllDigits(tail)
    requires forall i :: 0 <= i < |g| ==> (g[i] == ' ' <==> (|g| - i) % 4 == 0)
    ensures forall i :: 0 <= i < |g + " " + tail| ==>
      ((g + " " + tail)[i] == ' ' <==> (|g + " " + tail| - i) % 4 == 0)
  {
    var r := g + " " + tail;
    forall i | 0 <= i < |r| ensures (r[i] == ' ' <==> (|r| - i) % 4 == 0) {
      if i < |g| {
        assert r[i] == g[i];
        assert |r| - i == (|g| - i) + 4;
      } else if i > |g| {
        assert r[i] == tail[i - |g| - 1];
        assert IsDigit(tail[i - |g| - 1]);
      }
    }
  }

  /**
   * Layout of the grouped digits: a single space exactly at every fourth place
   * counted from the right end, and no space anywhere else; at most three
   * digits are left unchanged.
   */
  lemma {:induction false} GroupLayout(d: string)
    requires |d| >= 1 && AllDigits(d)
    ensures |d| <= 3 ==> Group(d) == d
    ensures forall i :: 0 <= i < |Group(d)| ==> (Group(d)[i] == ' ' <==> (|Group(d)| - i) % 4 == 0)
  {
    if |d| > 3 {
      var head, tail := d[..|d| - 3], d[|d| - 3..];
      GroupLayout(head);
      assert AllDigits(tail) by {
        forall k | 0 <= k < |tail| ensures IsDigit(tail[k]) { assert tail[k] == d[|d| - 3 + k]; }
      }
      SpacedLayout(Group(head), tail);
      assert Group(d) == Group(head) + " " + tail;
    } else {
      assert forall i :: 0 <= i < |d| ==> IsDigit(d[i]);
    }
  }

  /**
   * The cost text: an integer cost is its decimal digits grouped by thousands;
   * the placeholder text raises ValueError because the `,` format spec is
   * applied to a string.
   */
  function FormatCost(cost: Scalar): (r: Result<string, FormatError>)
    ensures r.Failure? <==> cost.Text?
    ensures r.Failure? ==> r.error == CommaWithString
    ensures r.Success? ==> RemoveSpaces(r.value) == IntToString(cost.n)
    ensures r.Success? && -1000 < cost.n < 1000 ==> r.value == IntToString(cost.n)
  {
    match cost
    case Text(_) => Failure(CommaWithString)
    case Number(n) =>
      var d := Digits(if n < 0 then -n else n);
      GroupRoundTrip(d);
      GroupLayout(d);
      GroupChars(d);
      if n < 0 then
        RemoveSpacesConcat("-", Group(d));
        Success("-" + Group(d))
      else
        Success(Group(d))
  }

  // ---------------------------------------------------------------------------
  // Attributes with their fallbacks

  /** Python truthiness of an optional attribute: None, 0 and "" are false. */
  predicate Truthy(v: Option<Scalar>)
  {
    match v
    case None => false
    case Some(Number(n)) => n != 0
    case Some(Text(s)) => s != ""
  }

  /** Python's `a or b`. */
  function Or(a: Option<Scalar>, b: Option<Scalar>): Option<Scalar>
  {
    if Truthy(a) then a else b
  }

  /** The value as an f-string shows it. */
  function Show(v: Scalar): string
  {
    match v
    case Number(n) => IntToString(n)
    case Text(s) => s
  }

  function ObjectType(o: Options): (r: string)
    ensures o.landRecordType.Some? ==> r == o.landRecordType.value
    ensures o.landRecordType.None? ==> r == UnknownType
  {
    o.landRecordType.GetOr(UnknownType)
  }

  function Address(o: Options): (r: string)
    ensures o.readableAddress.Some? ==> r == o.readableAddress.value
    ensures o.readableAddress.None? ==> r == UnknownAddress
  {
    o.readableAddress.GetOr(UnknownAddress)
  }

  function Category(o: Options): (r: string)
    ensures o.landRecordCategoryType.Some? ==> r == o.landRecordCategoryType.value
    ensures o.landRecordCategoryType.None? ==> r == NoCategory
  {
    o.landRecordCategoryType.GetOr(NoCategory)
  }

  function PermittedUse(o: Options): (r: string)
    ensures o.permittedUseEstablishedByDocument.Some? ==> r == o.permittedUseEstablishedByDocument.value
    ensures o.permittedUseEstablishedByDocument.None? ==> r == NoPermittedUse
  {
    o.permittedUseEstablishedByDocument.GetOr(NoPermittedUse)
  }

  /** `cost_value`, or the placeholder text when the attribute is missing. */
  function CostField(o: Options): (r: Scalar)
    ensures o.costValue.Some? ==> r == Number(o.costValue.value)
    ensures o.costValue.None? ==> r == Text(NoCost)
  {
    match o.costValue
    case Some(n) => Number(n)
    case None => Text(NoCost)
  }

  /** The first truthy of specified area and recorded area, else the placeholder. */
  function Area(o: Options): (r: string)
    ensures Truthy(o.specifiedArea) ==> r == Show(o.specifiedArea.value)
    ensures !Truthy(o.specifiedArea) && Truthy(o.landRecordArea) ==> r == Show(o.landRecordArea.value)
    ensures !Truthy(o.specifiedArea) && !Truthy(o.landRecordArea) ==> r == UnknownArea
  {
    var v := Or(Or(o.specifiedArea, o.landRecordArea), Some(Text(UnknownArea)));
    Show(v.value)
  }

  /** A zero specified area is falsy and yields to the recorded area. */
  lemma ZeroAreaFallsThrough(o: Options, recorded: Scalar)
    requires o.specifiedArea == Some(Number(0)) || o.specifiedArea == Some(Text(""))
    requires o.landRecordArea == Some(recorded) && recorded != Number(0) && recorded != Text("")
    ensures Area(o) == Show(recorded)
  {
  }

  // ---------------------------------------------------------------------------
  // Rings

  /** `[(pos.longitude, pos.latitude) for pos in ring]`. */
  function Pairs(ring: seq<Position>): (r: Ring)
    ensures |r| == |ring|
    ensures forall i :: 0 <= i < |ring| ==> r[i] == (ring[i].longitude, ring[i].latitude)
  {
    if ring == [] then [] else [(ring[0].longitude, ring[0].latitude)] + Pairs(ring[1..])
  }

  /** `[... for pos in polygon[0]] for polygon in polygons`; an empty polygon raises IndexError. */
  function OuterRings(polygons: seq<seq<seq<Position>>>): (r: Result<seq<Ring>, FormatError>)
    ensures r.Success? <==> forall i :: 0 <= i < |polygons| ==> polygons[i] != []
    ensures r.Failure? ==> r.error == IndexOutOfRange
    ensures r.Success? ==> |r.value| == |polygons|
    ensures r.Success? ==> forall i :: 0 <= i < |polygons| ==> r.value[i] == Pairs(polygons[i][0])
  {
    if polygons == [] then Success([])
    else if polygons[0] == [] then Failure(IndexOutOfRange)
    else
      match OuterRings(polygons[1..])
      case Failure(e) => Failure(e)
      case Success(rest) => Success([Pairs(polygons[0][0])] + rest)
  }

  /**
   * The rings of a geometry: a Polygon gives its outer ring alone, a
   * MultiPolygon the outer ring of each polygon in order (holes dropped);
   * no geometry, empty coordinates or another type give no rings.
   */
  function ExtractRings(geometry: Option<Geometry>): (r: Result<seq<Ring>, FormatError>)
    ensures r.Failure? ==> geometry.Some? && geometry.value.MultiPolygon? && r.error == IndexOutOfRange
  {
    match geometry
    case None => Success([])
    case Some(Polygon(rings)) =>
      if rings == [] then Success([]) else Success([Pairs(rings[0])])
    case Some(MultiPolygon(polygons)) =>
      if polygons == [] then Success([]) else OuterRings(polygons)
    case Some(OtherGeometry(_)) => Success([])
  }

  /**
   * The rings of a geometry: a Polygon gives its outer ring alone, a
   * MultiPolygon the outer ring of each polygon in order (holes dropped) and
   * raises IndexError on a polygon without rings; no geometry, empty
   * coordinates or another type give no rings.
   */
  lemma RingsOfGeometry(geometry: Option<Geometry>)
    ensures var r := ExtractRings(geometry);
      geometry.Some? && geometry.value.Polygon? && geometry.value.rings != [] ==>
        r.Success? && |r.value| == 1 && r.value[0] == Pairs(geometry.value.rings[0])
    ensures var r := ExtractRings(geometry);
      geometry.Some? && geometry.value.MultiPolygon? ==>
        var ps := geometry.value.polygons;
        && (r.Success? <==> forall i :: 0 <= i < |ps| ==> ps[i] != [])
        && (r.Success? ==> |r.value| == |ps| && forall i :: 0 <= i < |ps| ==> r.value[i] == Pairs(ps[i][0]))
    ensures (|| geometry.None?
             || geometry.value.OtherGeometry?
             || (geometry.value.Polygon? && geometry.value.rings == [])
             || (geometry.value.MultiPolygon? && geometry.value.polygons == [])) ==> ExtractRings(geometry) == Success([])
    ensures ExtractRings(geometry).Failure? ==> ExtractRings(geometry).error == IndexOutOfRange
  {
  }

  // ---------------------------------------------------------------------------
  // Text

  /** Each line followed by a newline. */
  function JoinLines(lines: seq<string>): (r: string)
    ensures |r| >= |lines|
    ensures lines != [] ==> r[|r| - 1] == '\n'
  {
    if lines == [] then "" else lines[0] + "\n" + JoinLines(lines[1..])
  }

  /** Index of the first newline, or the length when there is none. */
  function FirstNewline(s: string): (i: nat)
    ensures i <= |s|
    ensures i < |s| ==> s[i] == '\n'
    ensures forall j :: 0 <= j < i ==> s[j] != '\n'
  {
    if s == [] || s[0] == '\n' then 0 else 1 + FirstNewline(s[1..])
  }

  /** The newline-terminated lines of a text (a last unterminated piece is a line too). */
  function SplitLines(s: string): seq<string>
    decreases |s|
  {
    if s == [] then []
    else
      var i := FirstNewline(s);
      if i == |s| then [s] else [s[..i]] + SplitLines(s[i + 1..])
  }

  predicate NoNewline(s: string) { forall i :: 0 <= i < |s| ==> s[i] != '\n' }

  /** Splitting joined lines gives the lines back when none holds a newline. */
  lemma {:induction false} SplitJoinRoundTrip(lines: seq<string>)
    requires forall k :: 0 <= k < |lines| ==> NoNewline(lines[k])
    ensures SplitLines(JoinLines(lines)) == lines
  {
    if lines != [] {
      var s := JoinLines(lines);
      var l := lines[0];
      assert s == l + "\n" + JoinLines(lines[1..]);
      assert s[|l|] == '\n';
      var i := FirstNewline(s);
      assert i == |l|;
      assert s[..i] == l;
      assert s[i + 1..] == JoinLines(lines[1..]);
      SplitJoinRoundTrip(lines[1..]);
    }
  }

  /** The six info lines in their fixed order. */
  function InfoLines(o: Options, cost: string): (r: seq<string>)
    ensures |r| == 6
    ensures r[3] == CostLabel + cost + CostUnit
  {
    [ TypeLabel + ObjectType(o),
      AddressLabel + Address(o),
      AreaLabel + Area(o) + AreaUnit,
      CostLabel + cost + CostUnit,
      CategoryLabel + Category(o),
      UseLabel + PermittedUse(o) ]
  }

  /**
   * `format_cadastral_info`: the rings are extracted first, then the cost is
   * formatted, so a geometry failure wins over a cost failure.
   */
  function FormatCadastralInfo(feat: Feature): (r: Result<(string, seq<Ring>), FormatError>)
    ensures r.Success? <==> ExtractRings(feat.geometry).Success? && feat.options.costValue.Some?
  {
    match ExtractRings(feat.geometry)
    case Failure(e) => Failure(e)
    case Success(rings) =>
      match FormatCost(CostField(feat.options))
      case Failure(e) => Failure(e)
      case Success(cost) => Success((JoinLines(InfoLines(feat.options, cost)), rings))
  }

  /**
   * The formatter succeeds exactly when the rings can be extracted and the cost
   * attribute is present; a ring failure wins over a cost failure; on success
   * the rings are the extracted ones and the text is the six info lines.
   */
  lemma FormatOutcome(feat: Feature)
    ensures var r := FormatCadastralInfo(feat);
      r.Success? <==> ExtractRings(feat.geometry).Success? && feat.options.costValue.Some?
    ensures ExtractRings(feat.geometry).Failure? ==> FormatCadastralInfo(feat) == Failure(IndexOutOfRange)
    ensures ExtractRings(feat.geometry).Success? && feat.options.costValue.None? ==>
      FormatCadastralInfo(feat) == Failure(CommaWithString)
    ensures var r := FormatCadastralInfo(feat);
      r.Success? ==> r.value.1 == ExtractRings(feat.geometry).value
    ensures var r := FormatCadastralInfo(feat);
      r.Success? ==> r.value.0 == JoinLines(InfoLines(feat.options, FormatCost(CostField(feat.options)).value))
  {
    RingsOfGeometry(feat.geometry);
  }

  /** Missing attributes print their placeholders. */
  lemma AbsentAttributesBecomePlaceholders(feat: Feature)
    requires feat.options.landRecordType.None? && feat.options.readableAddress.None?
    requires feat.options.specifiedArea.None? && feat.options.landRecordArea.None?
    requires feat.options.landRecordCategoryType.None? && feat.options.permittedUseEstablishedByDocument.None?
    requires feat.options.costValue.Some? && ExtractRings(feat.geometry).Success?
    ensures FormatCadastralInfo(feat).Success?
    ensures FormatCadastralInfo(feat).value.0 == JoinLines(
      [ TypeLabel + "Неизвестно",
        AddressLabel + "Неизвестен",
        AreaLabel + "Неизвестна" + AreaUnit,
        CostLabel + FormatCost(Number(feat.options.costValue.value)).value + CostUnit,
        CategoryLabel + "Не указана",
        UseLabel + "Не установлен" ])
  {
    FormatOutcome(feat);
  }

  /** A record without a cost attribute makes the formatter raise ValueError. */
  lemma MissingCostRaises(feat: Feature)
    requires feat.options.costValue.None? && ExtractRings(feat.geometry).Success?
    ensures FormatCadastralInfo(feat) == Failure(CommaWithString)
    ensures FormatCadastralInfo(feat).error.Message() == "Cannot specify ',' with 's'."
  {
    FormatOutcome(feat);
  }

  lemma NoNewlineConcat(a: string, b: string)
    requires NoNewline(a) && NoNewline(b)
    ensures NoNewline(a + b)
  {
    forall i | 0 <= i < |a + b| ensures (a + b)[i] != '\n' {
      if i >= |a| { assert (a + b)[i] == b[i - |a|]; }
    }
  }

  lemma LabelsHaveNoNewline()
    ensures NoNewline(TypeLabel) && NoNewline(AddressLabel) && NoNewline(AreaLabel) && NoNewline(AreaUnit)
    ensures NoNewline(CostLabel) && NoNewline(CostUnit) && NoNewline(CategoryLabel) && NoNewline(UseLabel)
  {
  }

  /** The cost text holds no newline. */
  lemma CostNoNewline(n: int)
    ensures FormatCost(Number(n)).Success? && NoNewline(FormatCost(Number(n)).value)
  {
    var d := Digits(if n < 0 then -n else n);
    GroupChars(d);
    if n < 0 {
      NoNewlineConcat("-", Group(d));
    }
  }

  /**
   * The info text is exactly the six lines, in order, each newline-terminated,
   * provided no attribute text itself holds a newline.
   */
  lemma SixLines(feat: Feature)
    requires FormatCadastralInfo(feat).Success?
    requires NoNewline(ObjectType(feat.options)) && NoNewline(Address(feat.options))
    requires NoNewline(Area(feat.options))
    requires NoNewline(Category(feat.options)) && NoNewline(PermittedUse(feat.options))
    ensures |SplitLines(FormatCadastralInfo(feat).value.0)| == 6
    ensures SplitLines(FormatCadastralInfo(feat).value.0) ==
      InfoLines(feat.options, FormatCost(CostField(feat.options)).value)
  {
    var o := feat.options;
    FormatOutcome(feat);
    LabelsHaveNoNewline();
    CostNoNewline(o.costValue.value);
    var cost := FormatCost(CostField(o)).value;
    var lines := InfoLines(o, cost);
    NoNewlineConcat(TypeLabel, ObjectType(o));
    NoNewlineConcat(AddressLabel, Address(o));
    NoNewlineConcat(AreaLabel, Area(o));
    NoNewlineConcat(AreaLabel + Area(o), AreaUnit);
    NoNewlineConcat(CostLabel, cost);
    NoNewlineConcat(CostLabel + cost, CostUnit);
    NoNewlineConcat(CategoryLabel, Category(o));
    NoNewlineConcat(UseLabel, PermittedUse(o));
    SplitJoinRoundTrip(lines);
  }
}
