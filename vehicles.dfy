/**
 * The vehicle record (src/models/VehicleData.js): the government API's
 * record mapped to named fields, its Hebrew rendering filtered by the
 * user's display flags, the translation tables, the validity test and the
 * short title.
 */
module Vehicles {
  import opened Text
  import opened Collections

  /** A property of the API record: a string or a number (rendered in decimal). */
  datatype ApiValue = Str(s: string) | Num(n: int)

  /** The falsy values among them: `''` and `0`. */
  predicate Falsy(v: ApiValue) {
    (v.Str? && v.s == "") || (v.Num? && v.n == 0)
  }

  /** `data.<key> || ''`, with the value as a template literal renders it. */
  function FieldOf(data: map<string, ApiValue>, key: string): (s: string)
    ensures s == "" <==> key !in data || Falsy(data[key])
    ensures key in data && data[key].Str? ==> s == if Falsy(data[key]) then "" else data[key].s
  {
    if key !in data || Falsy(data[key]) then ""
    else match data[key]
      case Str(t) => t
      case Num(n) => IntToString(n)
  }

  datatype VehicleData = VehicleData(
    licensePlate: string,
    manufacturer: string,
    model: string,
    year: string,
    color: string,
    engineVolume: string,
    fuelType: string,
    ownershipType: string,
    testDate: string,
    lastInspection: string,
    vehicleType: string,
    modelCode: string,
    chassisNumber: string,
    frontTires: string,
    rearTires: string,
    registrationDate: string,
    rawData: map<string, ApiValue>)

  /** The constructor: each field from its API key, `''` when that key is missing or falsy. */
  function FromApi(data: map<string, ApiValue>): (v: VehicleData)
    ensures v.rawData == data
  {
    VehicleData(
      FieldOf(data, "mispar_rechev"),
      FieldOf(data, "tozeret_nm"),
      FieldOf(data, "kinuy_mishari"),
      FieldOf(data, "shnat_yitzur"),
      FieldOf(data, "tzeva_rechev"),
      FieldOf(data, "degem_manoa"),
      FieldOf(data, "sug_delek_nm"),
      FieldOf(data, "baalut"),
      FieldOf(data, "tokef_dt"),
      FieldOf(data, "mivchan_acharon_dt"),
      FieldOf(data, "sug_degem"),
      FieldOf(data, "degem_nm"),
      FieldOf(data, "misgeret"),
      FieldOf(data, "zmig_kidmi"),
      FieldOf(data, "zmig_ahori"),
      FieldOf(data, "moed_aliya_lakvish"),
      data)
  }

  /** The manufacturer is read from `tozeret_nm`; a record carrying only `tozeret` has none. */
  lemma ManufacturerFromTozeretNm(data: map<string, ApiValue>, maker: string)
    ensures FromApi(data["tozeret_nm" := Str(maker)]).manufacturer == maker
    ensures "tozeret_nm" !in data ==> FromApi(data).manufacturer == ""
  {
  }

  /** `isValid`: a plate and at least a manufacturer or a model. */
  predicate IsValid(v: VehicleData) {
    v.licensePlate != "" && (v.manufacturer != "" || v.model != "")
  }

  /** A mapped record is valid iff the API gave a plate and a manufacturer or commercial name. */
  lemma ValidFromApi(data: map<string, ApiValue>)
    ensures IsValid(FromApi(data)) <==>
      && "mispar_rechev" in data && !Falsy(data["mispar_rechev"])
      && (("tozeret_nm" in data && !Falsy(data["tozeret_nm"])) || ("kinuy_mishari" in data && !Falsy(data["kinuy_mishari"])))
  {
  }

  /**
   * Each table maps its Hebrew names to themselves and the API's English
   * codes to the Hebrew names; it is written here as those two parts.
   */
  function Table(hebrew: seq<string>, english: map<string, string>): (table: map<string, string>)
    ensures forall h | h in hebrew && h !in english :: h in table && table[h] == h
    ensures forall k | k in english :: k in table && table[k] == english[k]
    ensures forall k | k in table :: k in hebrew || k in english
  {
    (map h | h in hebrew :: h) + english
  }

  const HebrewColors: seq<string> := ["לבן", "שחור", "כסף", "אפור", "כחול", "אדום", "ירוק", "צהוב", "חום"]
  const EnglishColors: map<string, string> := map[
    "WHITE" := "לבן", "BLACK" := "שחור", "SILVER" := "כסף", "GRAY" := "אפור", "BLUE" := "כחול",
    "RED" := "אדום", "GREEN" := "ירוק", "YELLOW" := "צהוב", "BROWN" := "חום"]
  const ColorMap: map<string, string> := Table(HebrewColors, EnglishColors)

  const HebrewFuels: seq<string> := ["בנזין", "דיזל", "חשמלי", "היברידי", "גז"]
  const EnglishFuels: map<string, string> := map[
    "GASOLINE" := "בנזין", "DIESEL" := "דיזל", "ELECTRIC" := "חשמלי", "HYBRID" := "היברידי", "GAS" := "גז"]
  const FuelMap: map<string, string> := Table(HebrewFuels, EnglishFuels)

  const HebrewOwnerships: seq<string> := ["פרטי", "מסחרי", "ציבורי"]
  const EnglishOwnerships: map<string, string> := map[
    "PRIVATE" := "פרטי", "COMMERCIAL" := "מסחרי", "PUBLIC" := "ציבורי"]
  const OwnershipMap: map<string, string> := Table(HebrewOwnerships, EnglishOwnerships)

  /** `table[value] || value`. */
  function Translate(table: map<string, string>, value: string): (r: string)
    ensures value in table && table[value] != "" ==> r == table[value]
    ensures value !in table || table[value] == "" ==> r == value
  {
    if value in table && table[value] != "" then table[value] else value
  }

  /** A table whose every result translates to itself. */
  predicate Closed(table: map<string, string>) {
    forall k | k in table :: table[k] != "" && table[k] in table && table[table[k]] == table[k]
  }

  lemma {:induction false} TranslateIdempotent(table: map<string, string>, value: string)
    requires Closed(table)
    ensures Translate(table, Translate(table, value)) == Translate(table, value)
  {
    if value in table {
      assert table[value] in table && table[table[value]] == table[value];
    }
  }

  /** A table is closed when every English code names one of its Hebrew names. */
  lemma {:induction false} TableClosed(hebrew: seq<string>, english: map<string, string>)
    requires forall h | h in hebrew :: h != "" && h !in english
    requires forall k | k in english :: english[k] in hebrew
    ensures Closed(Table(hebrew, english))
  {
    var table := Table(hebrew, english);
    forall k | k in table
      ensures table[k] != "" && table[k] in table && table[table[k]] == table[k]
    {
      if k in english {
        assert english[k] in hebrew;
      }
    }
  }

  /** Each of the three tables is closed, so translating twice changes nothing. */
  lemma ColorMapClosed()
    ensures Closed(ColorMap)
  {
    ColorNamesAreHebrew();
    HebrewColorsAreNotCodes();
    TableClosed(HebrewColors, EnglishColors);
  }

  lemma ColorNamesAreHebrew()
    ensures forall k | k in EnglishColors :: EnglishColors[k] in HebrewColors
  {
    forall k | k in EnglishColors
      ensures EnglishColors[k] in HebrewColors
    {
      assert k in {"WHITE", "BLACK", "SILVER", "GRAY", "BLUE", "RED", "GREEN", "YELLOW", "BROWN"};
    }
  }

  lemma HebrewColorsAreNotCodes()
    ensures forall h | h in HebrewColors :: h != "" && h !in EnglishColors
  {
    assert EnglishColors.Keys == {"WHITE", "BLACK", "SILVER", "GRAY", "BLUE", "RED", "GREEN", "YELLOW", "BROWN"};
  }

  lemma FuelMapClosed()
    ensures Closed(FuelMap)
  {
    assert forall k | k in EnglishFuels :: EnglishFuels[k] in HebrewFuels;
    assert forall h | h in HebrewFuels :: h != "" && h !in EnglishFuels;
    TableClosed(HebrewFuels, EnglishFuels);
  }

  lemma OwnershipMapClosed()
    ensures Closed(OwnershipMap)
  {
    assert forall k | k in EnglishOwnerships :: EnglishOwnerships[k] in HebrewOwnerships;
    assert forall h | h in HebrewOwnerships :: h != "" && h !in EnglishOwnerships;
    TableClosed(HebrewOwnerships, EnglishOwnerships);
  }

  /** An English color code of the API translates to its Hebrew name. */
  lemma TranslatesColor()
    ensures Translate(ColorMap, "WHITE") == "לבן"
  {
    assert "WHITE" in EnglishColors && EnglishColors["WHITE"] == "לבן";
  }

  /** A Hebrew color name translates to itself. */
  lemma KeepsHebrewColor()
    ensures Translate(ColorMap, "לבן") == "לבן"
  {
    assert "לבן" !in EnglishColors && "לבן" == HebrewColors[0];
  }

  /** A value the table does not know passes through. */
  lemma KeepsUnknownColor()
    ensures Translate(ColorMap, "PURPLE") == "PURPLE"
  {
    assert "PURPLE" !in HebrewColors && "PURPLE" !in EnglishColors;
  }

  /** An English fuel code translates to its Hebrew name. */
  lemma TranslatesFuel()
    ensures Translate(FuelMap, "DIESEL") == "דיזל"
  {
    assert "DIESEL" in EnglishFuels;
  }

  /** The fields `toHebrewDisplay` can show, in the order it tests them. */
  const DisplayOrder: seq<string> :=
    ["manufacturer", "model", "year", "color", "engineVolume", "fuelType", "ownershipType", "testDate"]

  function Value(v: VehicleData, name: string): string
  {
    match name
      case "manufacturer" => v.manufacturer
      case "model" => v.model
      case "year" => v.year
      case "color" => v.color
      case "engineVolume" => v.engineVolume
      case "fuelType" => v.fuelType
      case "ownershipType" => v.ownershipType
      case "testDate" => v.testDate
      case _ => ""
  }

  /** The line for one field; `dateText` is the locale rendering of the test date. */
  function Line(v: VehicleData, name: string, dateText: string -> string): string
  {
    match name
      case "manufacturer" => "🏭 יצרן: " + v.manufacturer
      case "model" => "🚗 דגם: " + v.model
      case "year" => "📅 שנת ייצור: " + v.year
      case "color" => "🎨 צבע: " + Translate(ColorMap, v.color)
      case "engineVolume" => "⚙️ נפח מנוע: " + v.engineVolume + " סמ\"ק"
      case "fuelType" => "⛽ סוג דלק: " + Translate(FuelMap, v.fuelType)
      case "ownershipType" => "👤 סוג בעלות: " + Translate(OwnershipMap, v.ownershipType)
      case _ => "🔍 תוקף טסט: " + dateText(v.testDate)
  }

  /** Every line starts with its field's emoji, never with the first letter of the no-data text. */
  lemma LineHead(v: VehicleData, name: string, dateText: string -> string)
    requires name in DisplayOrder
    ensures Line(v, name, dateText) != [] && Line(v, name, dateText)[0] != NoData[0]
  {
    var l := Line(v, name, dateText);
    if name == "manufacturer" { assert l[0] == '🏭'; }
    else if name == "model" { assert l[0] == '🚗'; }
    else if name == "year" { assert l[0] == '📅'; }
    else if name == "color" { assert l[0] == '🎨'; }
    else if name == "engineVolume" { assert l[0] == '⚙'; }
    else if name == "fuelType" { assert l[0] == '⛽'; }
    else if name == "ownershipType" { assert l[0] == '👤'; }
    else { assert l[0] == '🔍'; }
  }

  /** A field is shown when its display flag is truthy and its value is not empty. */
  predicate Shown(flags: map<string, bool>, v: VehicleData, name: string) {
    name in flags && flags[name] && Value(v, name) != ""
  }

  /** The shown fields among `names`, in the order of `names`. */
  function ShownAmong(names: seq<string>, flags: map<string, bool>, v: VehicleData): (r: seq<string>)
    ensures forall x :: x in r <==> x in names && Shown(flags, v, x)
    ensures Distinct(names) ==> Distinct(r)
    ensures |r| <= |names|
  {
    if names == [] then []
    else
      var rest := ShownAmong(names[1..], flags, v);
      assert names[0] in names && (Distinct(names) ==> names[0] !in names[1..]);
      if Shown(flags, v, names[0]) then [names[0]] + rest else rest
  }

  const NoData := "לא נמצאו נתונים"

  /** `toHebrewDisplay`: the lines of the shown fields joined by newlines, or the no-data text. */
  function HebrewDisplay(flags: map<string, bool>, v: VehicleData, dateText: string -> string): (t: string)
  {
    var shown := ShownAmong(DisplayOrder, flags, v);
    if |shown| > 0 then Join(seq(|shown|, i requires 0 <= i < |shown| => Line(v, shown[i], dateText)), "\n")
    else NoData
  }

  /**
   * A field has a line iff its flag is on and its value is not empty, each
   * at most once; the text is the no-data text exactly when no field is shown.
   */
  lemma HebrewDisplayLines(flags: map<string, bool>, v: VehicleData, dateText: string -> string)
    ensures var shown := ShownAmong(DisplayOrder, flags, v);
      && Distinct(shown)
      && (forall name :: name in shown <==> name in DisplayOrder && Shown(flags, v, name))
      && (HebrewDisplay(flags, v, dateText) == NoData <==> shown == [])
  {
    var shown := ShownAmong(DisplayOrder, flags, v);
    DisplayOrderDistinct();
    if shown != [] {
      var lines := seq(|shown|, i requires 0 <= i < |shown| => Line(v, shown[i], dateText));
      var t := HebrewDisplay(flags, v, dateText);
      JoinPrefix(lines, "\n");
      LineHead(v, shown[0], dateText);
      assert lines[0] == Line(v, shown[0], dateText);
      assert t[0] == lines[0][0];
    }
  }

  /** No field appears twice in the display order. */
  lemma DisplayOrderDistinct()
    ensures Distinct(DisplayOrder)
  {
  }

  /** The texts of `s` that are not empty, in order. */
  function NonEmpty(s: seq<string>): (r: seq<string>)
    ensures |r| <= |s|
  {
    if s == [] then [] else (if s[0] != "" then [s[0]] else []) + NonEmpty(s[1..])
  }

  /** `getTitle`'s `parts`: manufacturer, model and year, each pushed only when non-empty. */
  function TitleParts(v: VehicleData): (parts: seq<string>)
    ensures parts == NonEmpty([v.manufacturer, v.model, v.year])
    ensures forall i | 0 <= i < |parts| :: parts[i] != ""
  {
    var all := [v.manufacturer, v.model, v.year];
    assert all[1..] == [v.model, v.year] && all[1..][1..] == [v.year] && [v.year][1..] == [];
    assert NonEmpty([v.year]) == (if v.year != "" then [v.year] else []);
    assert NonEmpty([v.model, v.year]) == (if v.model != "" then [v.model] else []) + NonEmpty([v.year]);
    assert NonEmpty(all) == (if v.manufacturer != "" then [v.manufacturer] else []) + NonEmpty([v.model, v.year]);
    (if v.manufacturer != "" then [v.manufacturer] else [])
    + (if v.model != "" then [v.model] else [])
    + (if v.year != "" then [v.year] else [])
  }

  /** `getTitle`: the parts joined by spaces, or `רכב <plate>` when there are none. */
  function Title(v: VehicleData): (t: string)
  {
    var parts := TitleParts(v);
    if |parts| > 0 then Join(parts, " ") else "רכב " + v.licensePlate
  }

  /**
   * The title is the non-empty of manufacturer, model and year in that
   * order with one space between each two, or the plate after `רכב `.
   */
  lemma TitleShape(v: VehicleData)
    ensures var (m, d, y) := (v.manufacturer, v.model, v.year);
      && (m != "" && d != "" && y != "" ==> Title(v) == m + " " + d + " " + y)
      && (m != "" && d != "" && y == "" ==> Title(v) == m + " " + d)
      && (m != "" && d == "" && y != "" ==> Title(v) == m + " " + y)
      && (m == "" && d != "" && y != "" ==> Title(v) == d + " " + y)
      && (m != "" && d == "" && y == "" ==> Title(v) == m)
      && (m == "" && d != "" && y == "" ==> Title(v) == d)
      && (m == "" && d == "" && y != "" ==> Title(v) == y)
      && (m == "" && d == "" && y == "" ==> Title(v) == "רכב " + v.licensePlate)
  {
    var parts := TitleParts(v);
    if |parts| == 3 {
      assert parts[1..][1..] == [parts[2]];
      assert Join(parts[1..], " ") == parts[1] + " " + parts[2];
      assert Join(parts, " ") == parts[0] + " " + (parts[1] + " " + parts[2]);
    } else if |parts| == 2 {
      assert Join(parts, " ") == parts[0] + " " + parts[1];
    }
  }
}
