/** The in-memory shop store (`ShopDao`): a loader that parses the five-column
    CSV database into shops, the list `db` and the index `idmap` it fills once,
    lookup by id, the fixed-radius geo query and the location converter. */
module ShopDao {
  import opened Wrappers
  import opened JsValues
  import opened JsStrings
  import opened JsNumbers
  import opened ShopModel

  /** The ways an operation of the store fails (thrown errors and rejected
      promises in the original). */
  datatype DaoError =
    | Unreadable                  // the database file could not be read
    | Malformed(line: string)     // "malformed location data: <line>"
    | NotFound(id: Value)         // "model not found for id: <id>"
    | Uninitialized               // `db` is still null, so `db.filter` fails

  /** The fixed query radius: 50 miles in kilometres. */
  const MaxKm: real := 50.0 * 1.609344

  // ---------------------------------------------------------------------
  // CSV loading

  /** A line of the database file splits into exactly five columns. */
  predicate WellFormedLine(line: string)
  {
    |Split(line, ',')| == 5
  }

  /** Every line of the file is well formed. */
  predicate AllWellFormed(lines: seq<string>)
  {
    forall j :: 0 <= j < |lines| ==> WellFormedLine(lines[j])
  }

  /** `params[key] = v` for the `k`-th of the column names `id`, `name`,
      `address`, `lat`, `lng`. */
  function SetColumn(p: ShopParams, k: nat, v: Value): ShopParams
    requires k < 5
  {
    match k
    case 0 => p.(id := v)
    case 1 => p.(name := v)
    case 2 => p.(address := v)
    case 3 => p.(lat := v)
    case 4 => p.(lng := v)
  }

  /** The params object a row builds: each column, trimmed, under its name;
      nothing else is set. */
  function RowParams(columns: seq<string>): ShopParams
    requires |columns| == 5
  {
    NoParams.(
      id := Str(Trim(columns[0])),
      name := Str(Trim(columns[1])),
      address := Str(Trim(columns[2])),
      lat := Str(Trim(columns[3])),
      lng := Str(Trim(columns[4])))
  }

  /** The params object after the first `k` columns have been set. */
  function RowParamsUpTo(columns: seq<string>, k: nat): ShopParams
    requires |columns| == 5 && k <= 5
  {
    NoParams.(
      id := if k > 0 then Str(Trim(columns[0])) else Undefined,
      name := if k > 1 then Str(Trim(columns[1])) else Undefined,
      address := if k > 2 then Str(Trim(columns[2])) else Undefined,
      lat := if k > 3 then Str(Trim(columns[3])) else Undefined,
      lng := if k > 4 then Str(Trim(columns[4])) else Undefined)
  }

  /** Assigning the five trimmed columns of a row, one by one, to a fresh
      params object. */
  method ReadParams(columns: seq<string>) returns (params: ShopParams)
    requires |columns| == 5
    ensures params == RowParams(columns)
  {
    params := NoParams;
    var k := 0;
    while k < 5
      invariant 0 <= k <= 5
      invariant params == RowParamsUpTo(columns, k)
    {
      params := SetColumn(params, k, Str(Trim(columns[k])));
      k := k + 1;
    }
  }

  /** `new ShopModel(params)` over the params a row assigns. */
  method ReadShop(columns: seq<string>) returns (shop: Shop)
    requires |columns| == 5
    ensures shop == RowShop(columns)
  {
    var params := ReadParams(columns);
    shop := Make(params);
  }

  /** The shop a well-formed row becomes: `new ShopModel(params)`. */
  function RowShop(columns: seq<string>): Shop
    requires |columns| == 5
  {
    Make(RowParams(columns))
  }

  /** What a loaded row holds: the trimmed name and address, the parsed id
      and coordinates, version 0, no timestamps, and the status "active"
      exactly when both coordinates parse ("invalid" otherwise). */
  lemma RowShopFields(columns: seq<string>)
    requires |columns| == 5
    ensures var s := RowShop(columns);
      // an empty id column stays the empty string; any other id is parsed
      && (Trim(columns[0]) == "" ==> s.id == Str(""))
      && (Trim(columns[0]) != "" ==> s.id == Num(ParseIntText(Trim(columns[0]))))
      && s.name == Str(Trim(columns[1])) && s.address == Str(Trim(columns[2]))
      && s.lat == ParseFloatText(Trim(columns[3])) && s.lng == ParseFloatText(Trim(columns[4]))
      && s.version == Zero && s.dateCreated == Undefined && s.lastUpdated == Undefined
      && (s.status == Str(Invalid) <==> BadCoordinates(s))
      && (s.status == Str(Active) <==> !BadCoordinates(s))
      && Normalised(s)
  {
    var p := RowParams(columns);
    MakeFields(p);
    var t := Trim(columns[0]);
    assert p.id == Str(t);
    if t == "" {
      assert !Truthy(p.id);
    } else {
      assert Truthy(p.id);
      assert RowShop(columns).id == Num(ParseInt(Str(t)));
    }
  }

  /** Splitting each line of the file into its columns: the rows, one per
      line and in order, or the first line without exactly five columns. */
  function SplitRows(lines: seq<string>): (r: Result<seq<seq<string>>, DaoError>)
    ensures r.Ok? ==> forall j :: 0 <= j < |r.value| ==> |r.value[j]| == 5
    ensures r.Err? ==> r.error.Malformed?
  {
    if lines == [] then Ok([])
    else
      var columns := Split(lines[0], ',');
      if |columns| != 5 then Err(Malformed(lines[0]))
      else Prepend([columns], SplitRows(lines[1..]))
  }

  /** The split succeeds exactly when every line has five columns, and then
      holds each line's columns in line order; otherwise it names a line
      of the input that does not. */
  lemma {:induction false} SplitRowsShape(lines: seq<string>)
    ensures var r := SplitRows(lines);
      && (r.Ok? <==> AllWellFormed(lines))
      && (r.Ok? ==> |r.value| == |lines| && forall j :: 0 <= j < |lines| ==> r.value[j] == Split(lines[j], ','))
      && (r.Err? ==> r.error.Malformed? && r.error.line in lines && !WellFormedLine(r.error.line))
  {
    if lines != [] && WellFormedLine(lines[0]) {
      var tail := lines[1..];
      SplitRowsShape(tail);
      assert forall j :: 0 < j < |lines| ==> lines[j] == tail[j - 1];
      if SplitRows(tail).Ok? {
        var rows := [Split(lines[0], ',')] + SplitRows(tail).value;
        assert SplitRows(lines) == Ok(rows);
        forall j | 0 <= j < |lines|
          ensures rows[j] == Split(lines[j], ',')
        {
          if j > 0 { assert rows[j] == SplitRows(tail).value[j - 1]; }
        }
      } else {
        var k :| 0 <= k < |tail| && !WellFormedLine(tail[k]);
        assert !WellFormedLine(lines[k + 1]);
      }
    }
  }

  /** `xs` followed by the elements of `r`, or the error of `r`. */
  function Prepend<T>(xs: seq<T>, r: Result<seq<T>, DaoError>): (r': Result<seq<T>, DaoError>)
    ensures r'.Ok? <==> r.Ok?
    ensures r.Ok? ==> r'.value == xs + r.value
    ensures r.Err? ==> r' == r
  {
    match r
    case Ok(rest) => Ok(xs + rest)
    case Err(e) => Err(e)
  }

  /** `f` applied to each element of `xs`, in order. */
  function MapSeq<A, B>(xs: seq<A>, f: A --> B): (ys: seq<B>)
    requires forall j :: 0 <= j < |xs| ==> f.requires(xs[j])
    ensures |ys| == |xs|
    ensures forall j :: 0 <= j < |xs| ==> ys[j] == f(xs[j])
  {
    if xs == [] then []
    else
      var init := xs[..|xs| - 1];
      assert forall j :: 0 <= j < |init| ==> init[j] == xs[j];
      MapSeq(init, f) + [f(xs[|xs| - 1])]
  }

  lemma MapSeqSnoc<A, B>(xs: seq<A>, x: A, f: A --> B)
    requires forall j :: 0 <= j < |xs| ==> f.requires(xs[j])
    requires f.requires(x)
    ensures MapSeq(xs + [x], f) == MapSeq(xs, f) + [f(x)]
  {
    assert (xs + [x])[..|xs|] == xs;
  }

  /** A shop per row, in order. */
  function BuildShops(rows: seq<seq<string>>): seq<Shop>
    requires forall j :: 0 <= j < |rows| ==> |rows[j]| == 5
  {
    MapSeq(rows, RowShop)
  }

  lemma PrependNothing<T>(r: Result<seq<T>, DaoError>)
    ensures Prepend([], r) == r
  {
    if r.Ok? {
      assert [] + r.value == r.value;
    }
  }

  lemma PrependSnoc<T>(xs: seq<T>, x: T, r: Result<seq<T>, DaoError>)
    ensures Prepend(xs, Prepend([x], r)) == Prepend(xs + [x], r)
  {
    if r.Ok? {
      assert xs + ([x] + r.value) == (xs + [x]) + r.value;
    }
  }

  lemma SplitRowsStep(lines: seq<string>, i: nat)
    requires i < |lines|
    ensures SplitRows(lines[i..]) ==
      if WellFormedLine(lines[i]) then Prepend([Split(lines[i], ',')], SplitRows(lines[i + 1..]))
      else Err(Malformed(lines[i]))
  {
    assert lines[i..][0] == lines[i] && lines[i..][1..] == lines[i + 1..];
  }

  /** Loading the database file's text (`None` when it cannot be read). */
  function ParseCsv(file: Option<string>): (r: Result<seq<Shop>, DaoError>)
    ensures r == Err(Unreadable) <==> file.None?
  {
    match file
    case None => Err(Unreadable)
    case Some(text) => LoadLines(Split(text, '\n'))
  }

  /** The shops of the file's lines, or the first malformed line. */
  function LoadLines(lines: seq<string>): Result<seq<Shop>, DaoError>
  {
    match SplitRows(lines)
    case Ok(rows) => Ok(BuildShops(rows))
    case Err(e) => Err(e)
  }

  /** A load fails when the file cannot be read or some line does not have
      five columns; otherwise it yields one shop per '\n'-separated line, in
      line order, built from that line's columns. */
  lemma ParseCsvShape(file: Option<string>)
    ensures file.None? ==> ParseCsv(file) == Err(Unreadable)
    ensures file.Some? ==> (ParseCsv(file).Ok? <==> AllWellFormed(Split(file.value, '\n')))
    ensures file.Some? && ParseCsv(file).Err? ==>
      ParseCsv(file).error.Malformed? && !WellFormedLine(ParseCsv(file).error.line)
    ensures ParseCsv(file).Ok? ==> var shops := ParseCsv(file).value;
      && |shops| == Count(file.value, '\n') + 1
      && forall j :: 0 <= j < |shops| ==> shops[j] == RowShop(Split(Split(file.value, '\n')[j], ','))
  {
    if file.Some? {
      var lines := Split(file.value, '\n');
      SplitRowsShape(lines);
      var split := SplitRows(lines);
      if split.Ok? {
        assert ParseCsv(file) == Ok(BuildShops(split.value));
      } else {
        assert ParseCsv(file) == Err(split.error);
      }
    }
  }

  /** Every loaded shop is normalised, so re-wrapping it changes nothing. */
  lemma ParsedShopsNormalised(file: Option<string>)
    ensures ParseCsv(file).Ok? ==> forall j :: 0 <= j < |ParseCsv(file).value| ==> Normalised(ParseCsv(file).value[j])
  {
    if file.Some? {
      var split := SplitRows(Split(file.value, '\n'));
      if split.Ok? {
        var rows := split.value;
        assert ParseCsv(file) == Ok(BuildShops(rows));
        forall j | 0 <= j < |rows|
          ensures Normalised(BuildShops(rows)[j])
        {
          MakeFields(RowParams(rows[j]));
        }
      }
    }
  }

  /** `new ShopModel(shop)`: a shop re-wrapped from its own properties. */
  function Rewrap(s: Shop): Shop
  {
    Make(ToParams(s))
  }

  /** Re-wrapping normalised shops, and so every loaded list, changes
      nothing. */
  lemma {:induction false} RewrapNormalised(shops: seq<Shop>)
    requires forall j :: 0 <= j < |shops| ==> Normalised(shops[j])
    ensures MapSeq(shops, Rewrap) == shops
  {
    forall j | 0 <= j < |shops|
      ensures Rewrap(shops[j]) == shops[j]
    {
      RebuildFixesNormalised(shops[j]);
    }
  }

  /** The `shops.map` of `initData`: each loaded shop is re-wrapped in a
      new `ShopModel`, which is set in the index under its id and kept in
      the new list. */
  method Remodel(shops: seq<Shop>) returns (models: seq<Shop>, index: map<Value, Shop>)
    ensures models == MapSeq(shops, Rewrap)
    ensures index == Index(models)
  {
    models, index := [], map[];
    var i := 0;
    while i < |shops|
      invariant 0 <= i <= |shops|
      invariant models == MapSeq(shops[..i], Rewrap)
      invariant index == Index(models)
    {
      var model := Make(ToParams(shops[i]));
      MapSeqSnoc(shops[..i], shops[i], Rewrap);
      assert shops[..i + 1] == shops[..i] + [shops[i]];
      index := index[model.id := model];
      models := models + [model];
      assert models[..|models| - 1] == MapSeq(shops[..i], Rewrap);
      i := i + 1;
    }
    assert shops[..i] == shops;
  }

  /** The loop of `parseCSVFile` over the lines: each line is split into
      columns, a line without exactly five aborts the load, and every other
      line adds its shop. */
  method ParseLines(lines: seq<string>) returns (r: Result<seq<Shop>, DaoError>)
    ensures r == LoadLines(lines)
  {
    var shops: seq<Shop> := [];
    ghost var rows: seq<seq<string>> := [];
    var i := 0;
    PrependNothing(SplitRows(lines));
    assert lines[i..] == lines;
    while i < |lines|
      invariant 0 <= i <= |lines|
      invariant forall j :: 0 <= j < |rows| ==> |rows[j]| == 5
      invariant Prepend(rows, SplitRows(lines[i..])) == SplitRows(lines)
      invariant shops == BuildShops(rows)
    {
      var columns := Split(lines[i], ',');
      SplitRowsStep(lines, i);
      if |columns| != 5 {
        return Err(Malformed(lines[i]));
      }
      var shop := ReadShop(columns);
      PrependSnoc(rows, columns, SplitRows(lines[i + 1..]));
      MapSeqSnoc(rows, columns, RowShop);
      shops := shops + [shop];
      rows := rows + [columns];
      i := i + 1;
    }
    assert lines[i..] == [];
    assert rows + [] == rows;
    r := Ok(shops);
  }

  /** A failed load reports the first malformed line. */
  lemma {:induction false} SplitRowsReportsFirstMalformed(lines: seq<string>)
    requires SplitRows(lines).Err?
    ensures exists k :: (0 <= k < |lines| && SplitRows(lines).error == Malformed(lines[k])
      && !WellFormedLine(lines[k]) && forall j :: 0 <= j < k ==> WellFormedLine(lines[j]))
  {
    if WellFormedLine(lines[0]) {
      var tail := lines[1..];
      SplitRowsReportsFirstMalformed(tail);
      var k :| 0 <= k < |tail| && SplitRows(tail).error == Malformed(tail[k])
        && !WellFormedLine(tail[k]) && (forall j :: 0 <= j < k ==> WellFormedLine(tail[j]));
      assert SplitRows(lines).error == Malformed(lines[k + 1]);
      forall j | 0 <= j < k + 1
        ensures WellFormedLine(lines[j])
      {
        if j > 0 { assert lines[j] == tail[j - 1]; }
      }
    }
  }

  /** A file that ends with a newline has an empty last line, which has one
      column, so the whole load fails. */
  lemma TrailingNewlineRejected(text: string)
    requires text != [] && text[|text| - 1] == '\n'
    ensures ParseCsv(Some(text)).Err?
  {
    var lines := Split(text, '\n');
    ParseCsvShape(Some(text));
    SplitEndsWithSep(text, '\n');
    assert Split(lines[|lines| - 1], ',') == [""];
    assert !WellFormedLine(lines[|lines| - 1]);
  }

  /** The CSV text for rows of five fields. */
  function RenderCsv(rows: seq<seq<string>>): string
    requires |rows| >= 1
    requires forall j :: 0 <= j < |rows| ==> |rows[j]| == 5
  {
    Join(seq(|rows|, j requires 0 <= j < |rows| => Join(rows[j], ',')), '\n')
  }

  /** A character absent from every part and different from the separator
      is absent from the join. */
  lemma {:induction false} JoinAvoids(parts: seq<string>, sep: char, c: char)
    requires |parts| >= 1 && c != sep
    requires forall k :: 0 <= k < |parts| ==> c !in parts[k]
    ensures c !in Join(parts, sep)
  {
    if |parts| > 1 {
      JoinAvoids(parts[1..], sep, c);
    }
  }

  /** Round trip: rendering rows whose fields hold neither ',' nor '\n' and
      loading the text gives one shop per row, built from that row. */
  lemma LoadRoundTrip(rows: seq<seq<string>>)
    requires |rows| >= 1
    requires forall j :: 0 <= j < |rows| ==> |rows[j]| == 5
    requires forall j, k :: 0 <= j < |rows| && 0 <= k < 5 ==> ',' !in rows[j][k] && '\n' !in rows[j][k]
    ensures ParseCsv(Some(RenderCsv(rows))) == Ok(BuildShops(rows))
  {
    var lines := seq(|rows|, j requires 0 <= j < |rows| => Join(rows[j], ','));
    forall j | 0 <= j < |rows|
      ensures '\n' !in lines[j] && Split(lines[j], ',') == rows[j]
    {
      JoinAvoids(rows[j], ',', '\n');
      SplitOfJoin(rows[j], ',');
    }
    SplitOfJoin(lines, '\n');
    SplitRowsShape(lines);
    var r := SplitRows(lines);
    assert r.Ok? && r.value == rows;
  }

  // ---------------------------------------------------------------------
  // The id index

  /** The index `idmap` that setting each shop under its id, in list order,
      produces: a later shop overwrites an earlier one with the same id. */
  function Index(shops: seq<Shop>): (r: map<Value, Shop>)
    ensures forall k :: k in r ==> r[k].id == k
  {
    if shops == [] then map[]
    else
      var last := shops[|shops| - 1];
      Index(shops[..|shops| - 1])[last.id := last]
  }

  /** The index has exactly the ids of the list as keys, and each key maps
      to a shop of the list carrying that id. */
  lemma {:induction false} IndexKeysAndValues(shops: seq<Shop>)
    ensures forall k :: k in Index(shops) <==> exists j :: 0 <= j < |shops| && shops[j].id == k
    ensures forall k :: k in Index(shops) ==> Index(shops)[k].id == k && Index(shops)[k] in shops
  {
    if shops != [] {
      var init := shops[..|shops| - 1];
      IndexKeysAndValues(init);
      assert shops == init + [shops[|shops| - 1]];
      assert Index(shops) == Index(init)[shops[|shops| - 1].id := shops[|shops| - 1]];
      forall k | k in Index(shops)
        ensures exists j :: 0 <= j < |shops| && shops[j].id == k
      {
        if k != shops[|shops| - 1].id {
          var j :| 0 <= j < |init| && init[j].id == k;
          assert shops[j] == init[j];
        }
      }
    }
  }

  /** The index entry for a shop's id is the LAST shop in the list with
      that id. */
  lemma {:induction false} IndexLastWins(shops: seq<Shop>, i: nat)
    requires i < |shops|
    requires forall j :: i < j < |shops| ==> shops[j].id != shops[i].id
    ensures shops[i].id in Index(shops) && Index(shops)[shops[i].id] == shops[i]
  {
    var init := shops[..|shops| - 1];
    if i < |shops| - 1 {
      IndexLastWins(init, i);
    }
  }

  /** All ids pairwise distinct. */
  predicate DistinctIds(shops: seq<Shop>)
  {
    forall i, j :: 0 <= i < j < |shops| ==> shops[i].id != shops[j].id
  }

  /** The index has one entry per shop exactly when the ids are distinct;
      with a repeated id it is smaller than the list. */
  lemma {:induction false} IndexSize(shops: seq<Shop>)
    ensures |Index(shops)| <= |shops|
    ensures |Index(shops)| == |shops| <==> DistinctIds(shops)
  {
    if shops != [] {
      var init := shops[..|shops| - 1];
      var last := shops[|shops| - 1];
      IndexSize(init);
      IndexKeysAndValues(init);
      if DistinctIds(shops) {
        assert DistinctIds(init);
      } else if DistinctIds(init) {
        var i, j :| 0 <= i < j < |shops| && shops[i].id == shops[j].id;
        assert j == |shops| - 1;
        assert init[i].id == last.id;
      }
    }
  }

  // ---------------------------------------------------------------------
  // The geo query

  /** `s` occurs in `t` in order, not necessarily contiguously. */
  predicate IsSubsequence(s: seq<Shop>, t: seq<Shop>)
  {
    if s == [] then true
    else if t == [] then false
    else (s[0] == t[0] && IsSubsequence(s[1..], t[1..])) || IsSubsequence(s, t[1..])
  }

  /** The location a query compares with the target: the shop's own
      `[lat, lng]`. */
  function ShopLoc(s: Shop): Value
  {
    Arr([Num(s.lat), Num(s.lng)])
  }

  /** The location the original hands to the distance check, `item.loc`:
      a property `ShopModel` never sets, so it reads undefined. */
  function AsWrittenLoc(s: Shop): Value
  {
    Undefined
  }

  /** `shops.filter(item => within(MaxKm, locOf(item), target))`: the shops
      within the radius, in list order, each as many times as it occurs in
      `shops`. */
  function GeoFilter(shops: seq<Shop>, within: (real, Value, Value) -> bool, locOf: Shop -> Value, target: Value)
    : (r: seq<Shop>)
    ensures IsSubsequence(r, shops)
    ensures forall s :: multiset(r)[s] == if within(MaxKm, locOf(s), target) then multiset(shops)[s] else 0
    ensures forall j :: 0 <= j < |r| ==> within(MaxKm, locOf(r[j]), target)
    ensures forall j :: 0 <= j < |shops| && within(MaxKm, locOf(shops[j]), target) ==> shops[j] in r
    ensures forall j :: 0 <= j < |r| ==> r[j] in shops
  {
    if shops == [] then []
    else
      var rest := GeoFilter(shops[1..], within, locOf, target);
      assert shops == [shops[0]] + shops[1..];
      if within(MaxKm, locOf(shops[0]), target) then [shops[0]] + rest else rest
  }

  /** With the original's `item.loc`, every shop is checked at the same
      (undefined) location, so the query returns all shops or none. */
  lemma {:induction false} AsWrittenQueryIsAllOrNothing(shops: seq<Shop>, within: (real, Value, Value) -> bool, target: Value)
    ensures GeoFilter(shops, within, AsWrittenLoc, target) == if within(MaxKm, Undefined, target) then shops else []
  {
    if shops != [] {
      AsWrittenQueryIsAllOrNothing(shops[1..], within, target);
      assert [shops[0]] + shops[1..] == shops;
    }
  }

  // ---------------------------------------------------------------------
  // Location conversion

  /** A `{ latitude, longitude }` object. */
  datatype Geo = Geo(latitude: Value, longitude: Value)

  /** `locToGeo([lat, long])`: the first two elements of the array, labelled;
      a missing element reads undefined. */
  function LocToGeo(loc: seq<Value>): (g: Geo)
    ensures |loc| >= 1 ==> g.latitude == loc[0]
    ensures |loc| >= 2 ==> g.longitude == loc[1]
    ensures |loc| < 2 ==> g.longitude == Undefined
    ensures loc == [] ==> g.latitude == Undefined
  {
    Geo(if |loc| > 0 then loc[0] else Undefined, if |loc| > 1 then loc[1] else Undefined)
  }

  // ---------------------------------------------------------------------
  // The store

  /** The store: `db` is null until `InitData` succeeds, `idmap` the index
      by id. */
  class Dao {
    var db: Option<seq<Shop>>
    var idmap: map<Value, Shop>

    /** Before loading the index is empty; afterwards it is the index of `db`. */
    ghost predicate Valid()
      reads this
    {
      if db.None? then idmap == map[] else idmap == Index(db.value)
    }

    constructor ()
      ensures Valid() && db == None && idmap == map[]
    {
      db := None;
      idmap := map[];
    }

    /** `parseCSVFile`: split the text into lines, each line into columns,
        and build a shop from the five trimmed columns of each line; the
        first line without exactly five columns aborts the whole load. */
    method ParseCSVFile(file: Option<string>) returns (r: Result<seq<Shop>, DaoError>)
      ensures r == ParseCsv(file)
    {
      if file.None? {
        return Err(Unreadable);
      }
      r := ParseLines(Split(file.value, '\n'));
    }

    /** `initData`: on the first successful call, load the file and fill
        `db` and `idmap`, re-wrapping each parsed shop in a new `ShopModel`;
        once `db` is set, return it and the index unchanged. */
    method InitData(file: Option<string>) returns (r: Result<(seq<Shop>, map<Value, Shop>), DaoError>)
      requires Valid()
      modifies this
      ensures Valid()
      ensures old(db).Some? ==> db == old(db) && idmap == old(idmap)
      ensures old(db).None? && ParseCsv(file).Err? ==> db == None && idmap == map[]
      ensures old(db).None? && ParseCsv(file).Ok? ==> db == Some(ParseCsv(file).value)
      ensures r.Err? <==> old(db).None? && ParseCsv(file).Err?
      ensures r.Err? ==> r.error == ParseCsv(file).error
      ensures r.Ok? ==> db.Some? && r.value == (db.value, idmap)
    {
      if db.None? {
        var parsed := ParseCSVFile(file);
        if parsed.Err? {
          return Err(parsed.error);
        }
        var shops := parsed.value;
        var models, index := Remodel(shops);
        ParsedShopsNormalised(file);
        RewrapNormalised(shops);
        db := Some(models);
        idmap := index;
      }
      r := Ok((db.value, idmap));
    }

    /** `findById`: the shop stored under exactly this key, whatever its
        status; otherwise "model not found". */
    method FindById(id: Value) returns (r: Result<Shop, DaoError>)
      requires Valid()
      ensures r.Ok? <==> id in idmap
      ensures r.Ok? ==> r.value == idmap[id] && r.value.id == id && db.Some? && r.value in db.value
      ensures r.Err? ==> r.error == NotFound(id)
    {
      if id in idmap {
        IndexKeysAndValues(db.value);
        r := Ok(idmap[id]);
      } else {
        r := Err(NotFound(id));
      }
    }

    /** `queryByGeo`: the shops of `db`, in order, that the distance check
        places within 50 miles of `target`; fails only when nothing has
        been loaded. */
    method QueryByGeo(target: Value, within: (real, Value, Value) -> bool) returns (r: Result<seq<Shop>, DaoError>)
      ensures db.None? <==> r == Err(Uninitialized)
      ensures r.Ok? ==> r.value == GeoFilter(db.value, within, ShopLoc, target)
      ensures r.Ok? ==> forall j :: 0 <= j < |r.value| ==> r.value[j] in db.value && within(MaxKm, ShopLoc(r.value[j]), target)
      ensures r.Ok? ==> forall j :: 0 <= j < |db.value| && within(MaxKm, ShopLoc(db.value[j]), target) ==> db.value[j] in r.value
      ensures r.Ok? ==> forall s :: multiset(r.value)[s] == if within(MaxKm, ShopLoc(s), target) then multiset(db.value)[s] else 0
    {
      if db.None? {
        return Err(Uninitialized);
      }
      r := Ok(GeoFilter(db.value, within, ShopLoc, target));
    }
  }
}
