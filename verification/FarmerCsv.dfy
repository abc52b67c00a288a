/** The gateway's farmer CSV: nested loops flatten the report into rows, and the
    rows can be read back. */
module FarmerCsv {
  import opened Prelude
  import opened Report

  type CsvRow = seq<Cell>

  const FARM_TITLES := ["Farm name", "Location", "Farm state", "Area"]
  const CROP_TITLES := ["Crop name", "Product", "Size", "Location", "Sowing date", "Plants"]
  const ACTIVITY_TITLES := [
    "Activity type", "Input date", "Title", "Manufacture location", "Application ratio",
    "Application method", "Comment", "Category", "Biological name", "Biological type"]
  const HARVEST_TITLES := ["Harvest date", "Amount", "Unit", "Category", "Description"]

  function TextCell(text: string): Cell {
    Text(text)
  }

  function Header(): CsvRow {
    Map(TextCell, FARM_TITLES + CROP_TITLES + ACTIVITY_TITLES + HARVEST_TITLES)
  }

  const BLANK := Text("")
  const PADDING: CsvRow := [BLANK, BLANK, BLANK, BLANK, BLANK, BLANK, BLANK, BLANK, BLANK, BLANK]

  function FarmCells(farm: FarmInfo): CsvRow {
    [farm.name, farm.location, farm.state, farm.area]
  }

  function CropCells(crop: CropInfo): CsvRow {
    [crop.name, crop.product, crop.size, crop.location, crop.sowingDate, crop.plants]
  }

  function ActivityCells(a: Activity): CsvRow {
    [a.kind, a.inputDate, a.title, a.manufactureLocation, a.appRatio, a.appMethod, a.comment, a.category, a.bioName, a.bioType]
  }

  function HarvestCells(h: Harvest): CsvRow {
    [h.harvestDate, h.amount, h.unit, h.category, h.description]
  }

  // ---- The rows ------------------------------------------------------------------

  function ActivityRows(farm: FarmInfo, crop: CropInfo, activities: seq<Activity>): seq<CsvRow> {
    Map(a => FarmCells(farm) + CropCells(crop) + ActivityCells(a), activities)
  }

  function HarvestRows(farm: FarmInfo, crop: CropInfo, harvests: seq<Harvest>): seq<CsvRow> {
    Map(h => FarmCells(farm) + CropCells(crop) + PADDING + HarvestCells(h), harvests)
  }

  function CropRows(farm: FarmInfo, crop: Crop): seq<CsvRow> {
    if crop.activities == [] && crop.harvests == [] then [FarmCells(farm) + CropCells(crop.info)]
    else ActivityRows(farm, crop.info, crop.activities) + HarvestRows(farm, crop.info, crop.harvests)
  }

  function CropsRows(farm: FarmInfo, crops: seq<Crop>): seq<CsvRow> {
    if crops == [] then [] else CropsRows(farm, crops[..|crops| - 1]) + CropRows(farm, crops[|crops| - 1])
  }

  function FarmRows(farm: Farm): seq<CsvRow> {
    if farm.crops == [] then [FarmCells(farm.info)] else CropsRows(farm.info, farm.crops)
  }

  function Rows(content: seq<Farm>): seq<CsvRow> {
    if content == [] then [] else Rows(content[..|content| - 1]) + FarmRows(content[|content| - 1])
  }

  method GetFarmerReport(content: seq<Farm>) returns (worksheet: seq<CsvRow>)
    ensures worksheet == [Header()] + Rows(content)
  {
    hide Header, CropRows, FarmRows, ActivityRows, HarvestRows, FarmCells, CropCells, Map;
    worksheet := [Header()];
    for i := 0 to |content|
      invariant worksheet == [Header()] + Rows(content[..i])
    {
      assert content[..i + 1][..i] == content[..i];
      worksheet := AddFarm(worksheet, content[i]);
    }
    assert content[..|content|] == content;
  }

  /** The body of the loop over farms. */
  method AddFarm(before: seq<CsvRow>, farm: Farm) returns (worksheet: seq<CsvRow>)
    ensures worksheet == before + FarmRows(farm)
  {
    hide CropRows, ActivityRows, HarvestRows, FarmCells, CropCells;
    worksheet := before;
    if |farm.crops| > 0 {
      for i := 0 to |farm.crops|
        invariant worksheet == before + CropsRows(farm.info, farm.crops[..i])
      {
        assert farm.crops[..i + 1][..i] == farm.crops[..i];
        worksheet := AddCrop(worksheet, farm.info, farm.crops[i]);
      }
      assert farm.crops[..|farm.crops|] == farm.crops;
    } else {
      worksheet := worksheet + [FarmCells(farm.info)];
    }
  }

  /** The body of the loop over crops. */
  method AddCrop(before: seq<CsvRow>, farm: FarmInfo, crop: Crop) returns (worksheet: seq<CsvRow>)
    ensures worksheet == before + CropRows(farm, crop)
  {
    hide FarmCells, CropCells, ActivityCells, HarvestCells, Map;
    worksheet := before;
    var hasActivities, hasHarvests := |crop.activities| > 0, |crop.harvests| > 0;
    if hasActivities {
      for i := 0 to |crop.activities|
        invariant worksheet == before + ActivityRows(farm, crop.info, crop.activities)[..i]
      {
        worksheet := worksheet + [FarmCells(farm) + CropCells(crop.info) + ActivityCells(crop.activities[i])];
      }
    }
    ghost var middle := worksheet;
    if hasHarvests {
      for i := 0 to |crop.harvests|
        invariant worksheet == middle + HarvestRows(farm, crop.info, crop.harvests)[..i]
      {
        worksheet := worksheet + [FarmCells(farm) + CropCells(crop.info) + PADDING + HarvestCells(crop.harvests[i])];
      }
    }
    if !hasActivities && !hasHarvests {
      worksheet := worksheet + [FarmCells(farm) + CropCells(crop.info)];
    }
  }

  // ---- Reading the rows back -------------------------------------------------------

  /** What a data row says, told by its width. */
  datatype Line =
    | BareFarm(farm: FarmInfo)
    | BareCrop(farm: FarmInfo, crop: CropInfo)
    | OfActivity(farm: FarmInfo, crop: CropInfo, activity: Activity)
    | OfHarvest(farm: FarmInfo, crop: CropInfo, harvest: Harvest)
    | Unreadable

  function FarmAt(row: CsvRow): FarmInfo
    requires |row| >= 4
  {
    FarmInfo(row[0], row[1], row[2], row[3])
  }

  function CropAt(row: CsvRow): CropInfo
    requires |row| >= 10
  {
    CropInfo(row[4], row[5], row[6], row[7], row[8], row[9])
  }

  function ReadRow(row: CsvRow): Line {
    if |row| == 4 then BareFarm(FarmAt(row))
    else if |row| == 10 then BareCrop(FarmAt(row), CropAt(row))
    else if |row| == 20 then
      OfActivity(FarmAt(row), CropAt(row),
                 Activity(row[10], row[11], row[12], row[13], row[14], row[15], row[16], row[17], row[18], row[19]))
    else if |row| == 25 && row[10..20] == PADDING then
      OfHarvest(FarmAt(row), CropAt(row), Harvest(row[20], row[21], row[22], row[23], row[24]))
    else Unreadable
  }

  /** The tree as lines: each activity and harvest once, under its own farm and
      crop, in order, and one line for each childless farm or crop. */
  function CropLines(farm: FarmInfo, crop: Crop): seq<Line> {
    if crop.activities == [] && crop.harvests == [] then [BareCrop(farm, crop.info)]
    else Map(a => OfActivity(farm, crop.info, a), crop.activities) + Map(h => OfHarvest(farm, crop.info, h), crop.harvests)
  }

  function CropsLines(farm: FarmInfo, crops: seq<Crop>): seq<Line> {
    if crops == [] then [] else CropsLines(farm, crops[..|crops| - 1]) + CropLines(farm, crops[|crops| - 1])
  }

  function FarmLines(farm: Farm): seq<Line> {
    if farm.crops == [] then [BareFarm(farm.info)] else CropsLines(farm.info, farm.crops)
  }

  function Lines(content: seq<Farm>): seq<Line> {
    if content == [] then [] else Lines(content[..|content| - 1]) + FarmLines(content[|content| - 1])
  }

  lemma MapConcat<A, B>(f: A -> B, p: seq<A>, q: seq<A>)
    ensures Map(f, p + q) == Map(f, p) + Map(f, q)
  {
  }

  lemma ActivityRowsRead(farm: FarmInfo, crop: CropInfo, activities: seq<Activity>)
    ensures Map(ReadRow, ActivityRows(farm, crop, activities)) == Map(a => OfActivity(farm, crop, a), activities)
  {
    forall i | 0 <= i < |activities| ensures ReadRow(ActivityRows(farm, crop, activities)[i]) == OfActivity(farm, crop, activities[i]) {
    }
  }

  lemma HarvestRowsRead(farm: FarmInfo, crop: CropInfo, harvests: seq<Harvest>)
    ensures Map(ReadRow, HarvestRows(farm, crop, harvests)) == Map(h => OfHarvest(farm, crop, h), harvests)
  {
    hide ReadRow, FarmCells, CropCells, HarvestCells;
    forall i | 0 <= i < |harvests| ensures ReadRow(HarvestRows(farm, crop, harvests)[i]) == OfHarvest(farm, crop, harvests[i]) {
      HarvestRowRead(farm, crop, harvests[i]);
    }
  }

  lemma HarvestRowRead(farm: FarmInfo, crop: CropInfo, h: Harvest)
    ensures ReadRow(FarmCells(farm) + CropCells(crop) + PADDING + HarvestCells(h)) == OfHarvest(farm, crop, h)
  {
    var row := FarmCells(farm) + CropCells(crop) + PADDING + HarvestCells(h);
    assert row[10..20] == PADDING;
  }

  lemma CropRowsRead(farm: FarmInfo, crop: Crop)
    ensures Map(ReadRow, CropRows(farm, crop)) == CropLines(farm, crop)
  {
    if crop.activities == [] && crop.harvests == [] {
      assert ReadRow(FarmCells(farm) + CropCells(crop.info)) == BareCrop(farm, crop.info);
    } else {
      ActivityRowsRead(farm, crop.info, crop.activities);
      HarvestRowsRead(farm, crop.info, crop.harvests);
      MapConcat(ReadRow, ActivityRows(farm, crop.info, crop.activities), HarvestRows(farm, crop.info, crop.harvests));
    }
  }

  lemma {:induction false} CropsRowsRead(farm: FarmInfo, crops: seq<Crop>)
    ensures Map(ReadRow, CropsRows(farm, crops)) == CropsLines(farm, crops)
  {
    if crops != [] {
      var n := |crops| - 1;
      CropsRowsRead(farm, crops[..n]);
      CropRowsRead(farm, crops[n]);
      MapConcat(ReadRow, CropsRows(farm, crops[..n]), CropRows(farm, crops[n]));
    }
  }

  /** Flattening loses nothing: read by header position, the data rows give back
      exactly the lines of the tree, in order, and every row is readable. */
  lemma {:induction false} RowsReadBack(content: seq<Farm>)
    ensures Map(ReadRow, Rows(content)) == Lines(content)
  {
    if content != [] {
      var n := |content| - 1;
      RowsReadBack(content[..n]);
      FarmRowsRead(content[n]);
      MapConcat(ReadRow, Rows(content[..n]), FarmRows(content[n]));
    }
  }

  lemma FarmRowsRead(farm: Farm)
    ensures Map(ReadRow, FarmRows(farm)) == FarmLines(farm)
  {
    CropsRowsRead(farm.info, farm.crops);
    assert ReadRow(FarmCells(farm.info)) == BareFarm(farm.info);
  }

  // ---- How many lines ---------------------------------------------------------------

  function Max(a: nat, b: nat): nat {
    if a < b then b else a
  }

  function CropCount(crop: Crop): nat {
    Max(1, |crop.activities| + |crop.harvests|)
  }

  function FarmCount(farm: Farm): nat {
    if farm.crops == [] then 1 else Sum(CropCount, farm.crops)
  }

  lemma CropRowsCount(farm: FarmInfo, crop: Crop)
    ensures |CropRows(farm, crop)| == CropCount(crop)
  {
    hide Map, FarmCells, CropCells;
  }

  lemma {:induction false} CropsCount(farm: FarmInfo, crops: seq<Crop>)
    ensures |CropsRows(farm, crops)| == Sum(CropCount, crops)
  {
    if crops != [] {
      CropsCount(farm, crops[..|crops| - 1]);
      CropRowsCount(farm, crops[|crops| - 1]);
      SumLast(CropCount, crops);
      hide CropRows, CropCount, Sum;
    }
  }

  /** One row per activity and harvest, one per childless crop or farm. */
  lemma {:induction false} RowCount(content: seq<Farm>)
    ensures |Rows(content)| == Sum(FarmCount, content)
  {
    hide CropsRows;
    if content != [] {
      var n := |content| - 1;
      RowCount(content[..n]);
      CropsCount(content[n].info, content[n].crops);
      assert |FarmRows(content[n])| == FarmCount(content[n]);
      SumLast(FarmCount, content);
      hide FarmRows, FarmCount, Sum;
    }
  }

  lemma {:induction false} LinesReadable(content: seq<Farm>)
    ensures forall i :: 0 <= i < |Lines(content)| ==> Lines(content)[i] != Unreadable
  {
    if content != [] {
      LinesReadable(content[..|content| - 1]);
      CropsReadable(content[|content| - 1].info, content[|content| - 1].crops);
    }
  }

  lemma {:induction false} CropsReadable(farm: FarmInfo, crops: seq<Crop>)
    ensures forall i :: 0 <= i < |CropsLines(farm, crops)| ==> CropsLines(farm, crops)[i] != Unreadable
  {
    if crops != [] { CropsReadable(farm, crops[..|crops| - 1]); }
  }

  /** Every data row has one of the four widths. */
  lemma Widths(content: seq<Farm>)
    ensures forall i :: 0 <= i < |Rows(content)| ==> |Rows(content)[i]| in {4, 10, 20, 25}
  {
    RowsReadBack(content);
    LinesReadable(content);
    hide Rows, Lines;
    forall i | 0 <= i < |Rows(content)| ensures |Rows(content)[i]| in {4, 10, 20, 25} {
      assert ReadRow(Rows(content)[i]) == Lines(content)[i];
    }
  }

  // ---- Values under titles -------------------------------------------------------------

  type Pairs = seq<(string, Cell)>

  function FarmPairs(farm: FarmInfo): Pairs {
    [("Farm name", farm.name), ("Location", farm.location), ("Farm state", farm.state), ("Area", farm.area)]
  }

  function CropPairs(crop: CropInfo): Pairs {
    [("Crop name", crop.name), ("Product", crop.product), ("Size", crop.size), ("Location", crop.location),
     ("Sowing date", crop.sowingDate), ("Plants", crop.plants)]
  }

  function ActivityPairs(a: Activity): Pairs {
    [("Activity type", a.kind), ("Input date", a.inputDate), ("Title", a.title),
     ("Manufacture location", a.manufactureLocation), ("Application ratio", a.appRatio),
     ("Application method", a.appMethod), ("Comment", a.comment), ("Category", a.category),
     ("Biological name", a.bioName), ("Biological type", a.bioType)]
  }

  const NO_ACTIVITY := Activity(BLANK, BLANK, BLANK, BLANK, BLANK, BLANK, BLANK, BLANK, BLANK, BLANK)

  function HarvestPairs(h: Harvest): Pairs {
    [("Harvest date", h.harvestDate), ("Amount", h.amount), ("Unit", h.unit), ("Category", h.category),
     ("Description", h.description)]
  }

  /** What a line says, title by title. A harvest leaves the activity columns
      blank. */
  function LinePairs(line: Line): Pairs {
    match line
    case BareFarm(farm) => FarmPairs(farm)
    case BareCrop(farm, crop) => FarmPairs(farm) + CropPairs(crop)
    case OfActivity(farm, crop, a) => FarmPairs(farm) + CropPairs(crop) + ActivityPairs(a)
    case OfHarvest(farm, crop, h) => FarmPairs(farm) + CropPairs(crop) + ActivityPairs(NO_ACTIVITY) + HarvestPairs(h)
    case Unreadable => []
  }

  /** The columns from `from` on have these titles and hold these values. */
  ghost predicate Under(row: CsvRow, from: nat, pairs: Pairs) {
    && from + |pairs| <= |row| <= |Header()|
    && forall j :: 0 <= j < |pairs| ==> Header()[from + j] == Text(pairs[j].0) && row[from + j] == pairs[j].1
  }

  lemma HeaderBlocks()
    ensures |Header()| == 25
    ensures forall j :: 0 <= j < 4 ==> Header()[j] == Text(FARM_TITLES[j])
    ensures forall j :: 0 <= j < 6 ==> Header()[4 + j] == Text(CROP_TITLES[j])
    ensures forall j :: 0 <= j < 10 ==> Header()[10 + j] == Text(ACTIVITY_TITLES[j])
    ensures forall j :: 0 <= j < 5 ==> Header()[20 + j] == Text(HARVEST_TITLES[j])
  {
    var titles := FARM_TITLES + CROP_TITLES + ACTIVITY_TITLES + HARVEST_TITLES;
    assert |titles| == 25;
    forall j | 0 <= j < 25 ensures Header()[j] == Text(titles[j]) {}
    forall j | 0 <= j < 4 ensures titles[j] == FARM_TITLES[j] {}
    forall j | 0 <= j < 6 ensures titles[4 + j] == CROP_TITLES[j] {}
    forall j | 0 <= j < 10 ensures titles[10 + j] == ACTIVITY_TITLES[j] {}
    forall j | 0 <= j < 5 ensures titles[20 + j] == HARVEST_TITLES[j] {}
    hide Header, Map;
  }

  lemma FarmUnder(row: CsvRow)
    requires 4 <= |row| <= 25
    ensures Under(row, 0, FarmPairs(FarmAt(row)))
  {
    HeaderBlocks();
    hide Header;
  }

  lemma CropUnder(row: CsvRow)
    requires 10 <= |row| <= 25
    ensures Under(row, 4, CropPairs(CropAt(row)))
  {
    HeaderBlocks();
    hide Header;
    forall j | 0 <= j < 6 ensures CROP_TITLES[j] == CropPairs(CropAt(row))[j].0 {}
  }

  lemma ActivityUnder(row: CsvRow, a: Activity)
    requires 20 <= |row| <= 25 && row[10..20] == ActivityCells(a)
    ensures Under(row, 10, ActivityPairs(a))
  {
    HeaderBlocks();
    hide Header;
    forall j | 0 <= j < 10 ensures ACTIVITY_TITLES[j] == ActivityPairs(a)[j].0 {}
    forall j | 0 <= j < 10 ensures row[10 + j] == ActivityPairs(a)[j].1 { assert row[10 + j] == row[10..20][j]; }
  }

  lemma HarvestUnder(row: CsvRow, h: Harvest)
    requires |row| == 25 && row[20..] == HarvestCells(h)
    ensures Under(row, 20, HarvestPairs(h))
  {
    HeaderBlocks();
    hide Header;
    forall j | 0 <= j < 5 ensures HARVEST_TITLES[j] == HarvestPairs(h)[j].0 {}
    forall j | 0 <= j < 5 ensures row[20 + j] == HarvestPairs(h)[j].1 { assert row[20 + j] == row[20..][j]; }
  }

  lemma UnderJoins(row: CsvRow, from: nat, p: Pairs, q: Pairs)
    requires Under(row, from, p) && Under(row, from + |p|, q)
    ensures Under(row, from, p + q)
  {
    forall j | 0 <= j < |p + q| ensures Header()[from + j] == Text((p + q)[j].0) && row[from + j] == (p + q)[j].1 {
      if j >= |p| { assert (p + q)[j] == q[j - |p|] && from + j == from + |p| + (j - |p|); }
    }
    hide Header;
  }

  /** A readable row is its line, title by title, from the first column on. */
  lemma RowUnder(row: CsvRow)
    requires ReadRow(row) != Unreadable
    ensures Under(row, 0, LinePairs(ReadRow(row))) && |LinePairs(ReadRow(row))| == |row|
  {
    hide Under, Header;
    FarmUnder(row);
    if |row| >= 10 {
      CropUnder(row);
      UnderJoins(row, 0, FarmPairs(FarmAt(row)), CropPairs(CropAt(row)));
    }
    if |row| == 20 { ActivityRowUnder(row); }
    if |row| == 25 { HarvestRowUnder(row); }
  }

  lemma ActivityRowUnder(row: CsvRow)
    requires |row| == 20 && Under(row, 0, FarmPairs(FarmAt(row)) + CropPairs(CropAt(row)))
    ensures Under(row, 0, LinePairs(ReadRow(row))) && |LinePairs(ReadRow(row))| == |row|
  {
    hide Under, Header;
    var a := ReadRow(row).activity;
    assert row[10..20] == ActivityCells(a);
    ActivityUnder(row, a);
    UnderJoins(row, 0, FarmPairs(FarmAt(row)) + CropPairs(CropAt(row)), ActivityPairs(a));
  }

  lemma HarvestRowUnder(row: CsvRow)
    requires |row| == 25 && row[10..20] == PADDING && Under(row, 0, FarmPairs(FarmAt(row)) + CropPairs(CropAt(row)))
    ensures Under(row, 0, LinePairs(ReadRow(row))) && |LinePairs(ReadRow(row))| == |row|
  {
    hide Under, Header;
    var h := ReadRow(row).harvest;
    assert row[20..] == HarvestCells(h) && ActivityCells(NO_ACTIVITY) == PADDING;
    ActivityUnder(row, NO_ACTIVITY);
    HarvestUnder(row, h);
    UnderJoins(row, 0, FarmPairs(FarmAt(row)) + CropPairs(CropAt(row)), ActivityPairs(NO_ACTIVITY));
    UnderJoins(row, 0, FarmPairs(FarmAt(row)) + CropPairs(CropAt(row)) + ActivityPairs(NO_ACTIVITY), HarvestPairs(h));
  }

  /** Every cell of the worksheet is a value of the tree standing under its own
      title: the j-th column of the i-th data row has the title and the value
      that the i-th line of the tree puts there, and there are no other cells. */
  lemma ValuesUnderTitles(content: seq<Farm>, i: nat)
    requires i < |Rows(content)|
    ensures var row := Rows(content)[i];
      && i < |Lines(content)| && |row| == |LinePairs(Lines(content)[i])|
      && forall j :: 0 <= j < |row| ==>
           && j < |Header()|
           && Header()[j] == Text(LinePairs(Lines(content)[i])[j].0)
           && row[j] == LinePairs(Lines(content)[i])[j].1
  {
    RowsReadBack(content);
    LinesReadable(content);
    hide Rows, Lines, LinePairs, Header;
    assert ReadRow(Rows(content)[i]) == Lines(content)[i];
    RowUnder(Rows(content)[i]);
    hide ReadRow;
  }
}
