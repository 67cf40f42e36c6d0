/** The country district layer: how the border lines of a country are split by their
    `type` code, styled, and handed to the scene, and which loads the nesting depth
    triggers (packages/district/src/layer/country.ts). */
module District {
  import opened Wrappers

  // ---------------------------------------------------------------------------
  // Data model
  // ---------------------------------------------------------------------------

  /** A data-source configuration entry; the composer passes it to the fetcher unchanged. */
  datatype DataSource = DataSource(url: string)

  /** A line feature: its `properties.type` classification code and its geometry.
      A missing or non-string `type` compares unequal to every code, exactly like
      a string code outside "0".."4", so it is represented by such a string. */
  datatype Feature = Feature(code: string, geometry: seq<(int, int)>)

  datatype FeatureCollection = FeatureCollection(features: seq<Feature>)

  /** One depth entry of `DataConfig.country.CHN`; every field may be absent. */
  datatype CountryConfig = CountryConfig(
    fill: Option<DataSource>,
    labelSource: Option<DataSource>,
    provinceLine: Option<DataSource>,
    cityLine: Option<DataSource>,
    countryLine: Option<DataSource>)

  /** `DataConfig.country.CHN`, keyed by depth. */
  type DataConfig = map<int, CountryConfig>

  /** `fetchData`: the collection a configuration entry resolves to, or None when the
      load is rejected. An absent entry is passed on as None, as the source passes
      `undefined`. */
  type Fetcher = Option<DataSource> -> Option<FeatureCollection>

  datatype LabelOption = LabelOption(enable: bool)

  /** The option block of the district layer. */
  datatype LayerOptions = LayerOptions(
    depth: int,
    labelOption: Option<LabelOption>,
    nationalStroke: string, nationalWidth: real,
    coastlineStroke: string, coastlineWidth: real,
    stroke: string, strokeWidth: real,
    cityStroke: string, cityStrokeWidth: real,
    countyStroke: string, countyStrokeWidth: real,
    zIndex: real)

  /** A value handed to the renderer for a size or a colour: a number or a string. */
  datatype StyleValue = Num(n: real) | Str(s: string)

  /** A size or colour mapping of a line layer: one constant for every feature, or the
      per-`type` callback of the national border, recorded by the values it captures. */
  datatype Channel =
    | Fixed(value: StyleValue)
    | ByType(emphasized: StyleValue, coastline: StyleValue, national: StyleValue, fallback: StyleValue)

  /** The `style(...)` block of a line layer; None where the layer sets nothing. */
  datatype LineStyle = LineStyle(lineType: Option<string>, dashArray: Option<seq<nat>>, opacity: Option<real>)

  const NoStyle := LineStyle(None, None, None)

  /** A layer handed to the scene: a line layer with all the settings the composer gives
      it, or the fill and label layers built by the base layer from their data. */
  datatype Layer =
    | Line(source: FeatureCollection, zIndex: real, size: Channel, color: Channel,
           shape: Option<string>, style: LineStyle)
    | Fill(fillData: FeatureCollection)
    | Label(labelData: FeatureCollection)

  datatype Purpose = FillData | LabelData | ProvinceLine | CityLine | CountyLine

  /** One call of `fetchData`: what the data is for and the configuration entry passed. */
  datatype Load = Load(purpose: Purpose, src: Option<DataSource>)

  // ---------------------------------------------------------------------------
  // Border partition
  // ---------------------------------------------------------------------------

  /** The predicate of the dashed "undetermined/province" filter. */
  predicate Undetermined(f: Feature) {
    f.code == "1" || f.code == "4"
  }

  /** The predicate of the national filter, as the source writes it. */
  predicate National(f: Feature) {
    f.code != "1" && f.code != "4"
  }

  /** `features.filter(keep)`: the features that satisfy `keep`, in their order. */
  function Filter(fs: seq<Feature>, keep: Feature -> bool): (r: seq<Feature>)
    ensures |r| <= |fs|
    ensures forall i :: 0 <= i < |r| ==> keep(r[i])
    decreases |fs|
  {
    if fs == [] then []
    else (if keep(fs[0]) then [fs[0]] else []) + Filter(fs[1..], keep)
  }

  /** A feature is kept exactly when it is in the input and satisfies the predicate. */
  lemma {:induction false} FilterMembers(fs: seq<Feature>, keep: Feature -> bool)
    ensures forall f :: f in Filter(fs, keep) <==> f in fs && keep(f)
    decreases |fs|
  {
    if fs != [] {
      FilterMembers(fs[1..], keep);
      assert fs == [fs[0]] + fs[1..];
    }
  }

  lemma FilterCons(f: Feature, rest: seq<Feature>, keep: Feature -> bool)
    ensures Filter([f] + rest, keep) == (if keep(f) then [f] else []) + Filter(rest, keep)
  {
    assert ([f] + rest)[1..] == rest;
  }

  datatype BorderSplit = BorderSplit(national: FeatureCollection, undetermined: FeatureCollection)

  /** The split of a border collection into the national set and the dashed set. */
  function SplitBorders(lineData: FeatureCollection): BorderSplit {
    BorderSplit(FeatureCollection(Filter(lineData.features, National)),
                FeatureCollection(Filter(lineData.features, Undetermined)))
  }

  /** `a` is `b` with some elements left out, the rest kept in order. */
  predicate IsSubsequence(a: seq<Feature>, b: seq<Feature>)
    decreases |b|
  {
    a == [] || (b != [] && ((a[0] == b[0] && IsSubsequence(a[1..], b[1..])) || IsSubsequence(a, b[1..])))
  }

  lemma {:induction false} FilterIsSubsequence(fs: seq<Feature>, keep: Feature -> bool)
    ensures IsSubsequence(Filter(fs, keep), fs)
    decreases |fs|
  {
    if fs != [] {
      FilterIsSubsequence(fs[1..], keep);
      assert Filter(fs, keep) == (if keep(fs[0]) then [fs[0]] else []) + Filter(fs[1..], keep);
      var r := Filter(fs, keep);
      if keep(fs[0]) {
        assert r[0] == fs[0] && r[1..] == Filter(fs[1..], keep);
      } else {
        assert r == Filter(fs[1..], keep);
      }
    }
  }

  /** A filter neither duplicates nor drops: every kept feature keeps its multiplicity. */
  lemma {:induction false} FilterMultiplicity(fs: seq<Feature>, keep: Feature -> bool, f: Feature)
    ensures multiset(Filter(fs, keep))[f] == if keep(f) then multiset(fs)[f] else 0
    decreases |fs|
  {
    if fs != [] {
      FilterMultiplicity(fs[1..], keep, f);
      assert fs == [fs[0]] + fs[1..];
      assert multiset(fs) == multiset{fs[0]} + multiset(fs[1..]);
    }
  }

  /** Two complementary filters split a sequence: sizes add up and the multisets sum. */
  lemma {:induction false} ComplementaryFilters(fs: seq<Feature>, p: Feature -> bool, q: Feature -> bool)
    requires forall f :: q(f) == !p(f)
    ensures |Filter(fs, p)| + |Filter(fs, q)| == |fs|
    ensures multiset(Filter(fs, p)) + multiset(Filter(fs, q)) == multiset(fs)
    decreases |fs|
  {
    if fs != [] {
      ComplementaryFilters(fs[1..], p, q);
      assert fs == [fs[0]] + fs[1..];
      assert multiset(fs) == multiset{fs[0]} + multiset(fs[1..]);
    }
  }

  /** The border partition: every feature lands in exactly one of the two sets, the
      national set holds no code "1"/"4" and the dashed set only those, nothing is added,
      dropped or duplicated, and each set keeps the input order. */
  lemma SplitPartition(lineData: FeatureCollection)
    ensures var s := SplitBorders(lineData);
      && (forall f :: f in lineData.features ==>
            (f in s.national.features <==> !(f in s.undetermined.features)))
      && (forall f :: f in s.national.features ==> f in lineData.features && f.code != "1" && f.code != "4")
      && (forall f :: f in s.undetermined.features ==> f in lineData.features && (f.code == "1" || f.code == "4"))
      && |s.national.features| + |s.undetermined.features| == |lineData.features|
      && multiset(s.national.features) + multiset(s.undetermined.features) == multiset(lineData.features)
      && IsSubsequence(s.national.features, lineData.features)
      && IsSubsequence(s.undetermined.features, lineData.features)
  {
    var fs := lineData.features;
    FilterMembers(fs, National);
    FilterMembers(fs, Undetermined);
    ComplementaryFilters(fs, National, Undetermined);
    FilterIsSubsequence(fs, National);
    FilterIsSubsequence(fs, Undetermined);
  }

  /** Each set holds every input feature of its class exactly as often as the input does. */
  lemma SplitMultiplicity(lineData: FeatureCollection, f: Feature)
    ensures var s := SplitBorders(lineData);
      && multiset(s.national.features)[f] == (if National(f) then multiset(lineData.features)[f] else 0)
      && multiset(s.undetermined.features)[f] == (if Undetermined(f) then multiset(lineData.features)[f] else 0)
  {
    FilterMultiplicity(lineData.features, National, f);
    FilterMultiplicity(lineData.features, Undetermined, f);
  }

  // ---------------------------------------------------------------------------
  // Style dispatch
  // ---------------------------------------------------------------------------

  /** What a channel yields for a feature with the given code: the constant, or the
      callback's if/else chain on "3", "2", "0" with its final fallback. */
  function Paint(ch: Channel, code: string): StyleValue {
    match ch
    case Fixed(v) => v
    case ByType(emphasized, coastline, national, fallback) =>
      if code == "3" then emphasized
      else if code == "2" then coastline
      else if code == "0" then national
      else fallback
  }

  /** The size callback of the national border. */
  function NationalSize(o: LayerOptions): Channel {
    ByType(Num(o.strokeWidth), Num(o.coastlineWidth), Num(o.nationalWidth), Str("#fff"))
  }

  /** The colour callback of the national border. */
  function NationalColor(o: LayerOptions): Channel {
    ByType(Str(o.stroke), Str(o.coastlineStroke), Str(o.nationalStroke), Str("#fff"))
  }

  /** The code-to-width dispatch: a number for "3", "2" and "0", and the string "#fff"
      (not a width) for every other code. */
  lemma NationalSizeDispatch(o: LayerOptions, code: string)
    ensures var r := Paint(NationalSize(o), code);
      && (code == "3" ==> r == Num(o.strokeWidth))
      && (code == "2" ==> r == Num(o.coastlineWidth))
      && (code == "0" ==> r == Num(o.nationalWidth))
      && (r.Str? <==> code != "3" && code != "2" && code != "0")
      && (r.Str? ==> r.s == "#fff")
  {
  }

  /** The code-to-colour dispatch: "3", "2", "0" pick their option, anything else "#fff". */
  lemma NationalColorDispatch(o: LayerOptions, code: string)
    ensures var r := Paint(NationalColor(o), code);
      && r.Str?
      && (code == "3" ==> r.s == o.stroke)
      && (code == "2" ==> r.s == o.coastlineStroke)
      && (code == "0" ==> r.s == o.nationalStroke)
      && (code != "3" && code != "2" && code != "0" ==> r.s == "#fff")
  {
  }

  /** The fallback is reachable: a national-set feature whose code is outside "0".."4". */
  lemma FallbackReachable(o: LayerOptions)
    ensures var fc := FeatureCollection([Feature("5", [])]);
      && SplitBorders(fc).national.features == fc.features
      && Paint(NationalSize(o), "5") == Str("#fff")
      && Paint(NationalColor(o), "5") == Str("#fff")
  {
    var fc := FeatureCollection([Feature("5", [])]);
    assert Filter(fc.features[1..], National) == [];
  }

  // ---------------------------------------------------------------------------
  // Layers
  // ---------------------------------------------------------------------------

  /** `addNationBorder`: the national layer, styled per code, then the dashed gray layer
      of undetermined borders; both one z-index step above the option's. */
  function NationBorderLayers(o: LayerOptions, national: FeatureCollection, undetermined: FeatureCollection): seq<Layer> {
    [ Line(national, o.zIndex + 1.0, NationalSize(o), NationalColor(o), Some("line"), NoStyle),
      Line(undetermined, o.zIndex + 1.0, Fixed(Num(o.nationalWidth)), Fixed(Str("gray")), Some("line"),
           LineStyle(Some("dash"), Some([2, 2]), None)) ]
  }

  /** The two layers of a split border collection. */
  function SplitLayers(o: LayerOptions, lineData: FeatureCollection): seq<Layer> {
    var s := SplitBorders(lineData);
    NationBorderLayers(o, s.national, s.undetermined)
  }

  /** What the border layers of a split promise: two line layers at `zIndex + 1`; the first
      draws exactly the national features, undashed, with the per-code width and colour
      callbacks ("#fff" for codes other than 3, 2, 0); the second draws exactly the "1"/"4"
      features, gray, `nationalWidth` wide, dashed [2, 2]. */
  lemma SplitLayerSettings(o: LayerOptions, lineData: FeatureCollection)
    ensures var ls := SplitLayers(o, lineData);
      && |ls| == 2 && ls[0].Line? && ls[1].Line?
      && ls[0].zIndex == o.zIndex + 1.0 && ls[1].zIndex == o.zIndex + 1.0
      && (forall f :: f in ls[0].source.features <==> f in lineData.features && National(f))
      && (forall f :: f in ls[0].source.features ==>
            && (f.code == "3" ==> Paint(ls[0].size, f.code) == Num(o.strokeWidth) && Paint(ls[0].color, f.code) == Str(o.stroke))
            && (f.code == "2" ==> Paint(ls[0].size, f.code) == Num(o.coastlineWidth) && Paint(ls[0].color, f.code) == Str(o.coastlineStroke))
            && (f.code == "0" ==> Paint(ls[0].size, f.code) == Num(o.nationalWidth) && Paint(ls[0].color, f.code) == Str(o.nationalStroke))
            && (f.code != "3" && f.code != "2" && f.code != "0" ==>
                  Paint(ls[0].size, f.code) == Str("#fff") && Paint(ls[0].color, f.code) == Str("#fff")))
      && ls[0].size == NationalSize(o) && ls[0].color == NationalColor(o)
      && ls[0].shape == Some("line") && ls[0].style == NoStyle
      && (forall f :: f in ls[1].source.features <==> f in lineData.features && Undetermined(f))
      && (forall f :: f in ls[1].source.features ==>
            Paint(ls[1].size, f.code) == Num(o.nationalWidth) && Paint(ls[1].color, f.code) == Str("gray"))
      && ls[1].shape == Some("line")
      && ls[1].style == LineStyle(Some("dash"), Some([2, 2]), None)
  {
    FilterMembers(lineData.features, National);
    FilterMembers(lineData.features, Undetermined);
  }

  lemma FiveCodeNational(f1: Feature, f2: Feature, f3: Feature, f4: Feature, f0: Feature)
    requires f1.code == "1" && f2.code == "2" && f3.code == "3" && f4.code == "4" && f0.code == "0"
    ensures Filter([f1, f2, f3, f4, f0], National) == [f2, f3, f0]
  {
    assert !National(f1) && National(f2) && National(f3) && !National(f4) && National(f0);
    assert Filter([f4, f0], National) == [f0] by {
      FilterCons(f0, [], National);
      FilterCons(f4, [f0], National);
      assert [f0] + [] == [f0] && [f4] + [f0] == [f4, f0];
    }
    assert Filter([f2, f3, f4, f0], National) == [f2, f3, f0] by {
      FilterCons(f3, [f4, f0], National);
      FilterCons(f2, [f3, f4, f0], National);
      assert [f3] + [f4, f0] == [f3, f4, f0] && [f2] + [f3, f4, f0] == [f2, f3, f4, f0];
    }
    assert Filter([f1, f2, f3, f4, f0], National) == [f2, f3, f0] by {
      FilterCons(f1, [f2, f3, f4, f0], National);
      assert [f1] + [f2, f3, f4, f0] == [f1, f2, f3, f4, f0];
    }
  }

  lemma FiveCodeUndetermined(f1: Feature, f2: Feature, f3: Feature, f4: Feature, f0: Feature)
    requires f1.code == "1" && f2.code == "2" && f3.code == "3" && f4.code == "4" && f0.code == "0"
    ensures Filter([f1, f2, f3, f4, f0], Undetermined) == [f1, f4]
  {
    assert Undetermined(f1) && !Undetermined(f2) && !Undetermined(f3) && Undetermined(f4) && !Undetermined(f0);
    assert Filter([f4, f0], Undetermined) == [f4] by {
      FilterCons(f0, [], Undetermined);
      FilterCons(f4, [f0], Undetermined);
      assert [f0] + [] == [f0] && [f4] + [f0] == [f4, f0];
    }
    assert Filter([f2, f3, f4, f0], Undetermined) == [f4] by {
      FilterCons(f3, [f4, f0], Undetermined);
      FilterCons(f2, [f3, f4, f0], Undetermined);
      assert [f3] + [f4, f0] == [f3, f4, f0] && [f2] + [f3, f4, f0] == [f2, f3, f4, f0];
    }
    assert Filter([f1, f2, f3, f4, f0], Undetermined) == [f1, f4] by {
      FilterCons(f1, [f2, f3, f4, f0], Undetermined);
      assert [f1] + [f2, f3, f4, f0] == [f1, f2, f3, f4, f0];
    }
  }

  /** The worked scenario: features coded 1, 2, 3, 4, 0 split into the dashed pair {1, 4}
      and the national triple {2, 3, 0}, and the national layer strokes 2, 3 and 0 with the
      coastline, emphasized and national colours. */
  lemma FiveCodeScenario(o: LayerOptions, f1: Feature, f2: Feature, f3: Feature, f4: Feature, f0: Feature)
    requires f1.code == "1" && f2.code == "2" && f3.code == "3" && f4.code == "4" && f0.code == "0"
    ensures var s := SplitBorders(FeatureCollection([f1, f2, f3, f4, f0]));
      && s.undetermined.features == [f1, f4]
      && s.national.features == [f2, f3, f0]
      && Paint(NationalColor(o), f2.code) == Str(o.coastlineStroke)
      && Paint(NationalColor(o), f3.code) == Str(o.stroke)
      && Paint(NationalColor(o), f0.code) == Str(o.nationalStroke)
  {
    FiveCodeNational(f1, f2, f3, f4, f0);
    FiveCodeUndetermined(f1, f2, f3, f4, f0);
  }

  /** `addCityBorder`'s layer: city stroke and width, z-index 2, opacity 0.5. */
  function CityBorderLayer(o: LayerOptions, border: FeatureCollection): Layer {
    Line(border, 2.0, Fixed(Num(o.cityStrokeWidth)), Fixed(Str(o.cityStroke)), None, LineStyle(None, None, Some(0.5)))
  }

  /** `addCountryBorder`'s layer (a county border): county stroke and width, z-index 2, opacity 0.5. */
  function CountyBorderLayer(o: LayerOptions, border: FeatureCollection): Layer {
    Line(border, 2.0, Fixed(Num(o.countyStrokeWidth)), Fixed(Str(o.countyStroke)), None, LineStyle(None, None, Some(0.5)))
  }

  /** The city and county layers share every setting but stroke and width: z-index 2,
      opacity 0.5, no dash, every feature drawn alike. */
  lemma SubBorderSettings(o: LayerOptions, border: FeatureCollection, code: string)
    ensures var city := CityBorderLayer(o, border);
      var county := CountyBorderLayer(o, border);
      && city.zIndex == 2.0 && county.zIndex == 2.0
      && city.style == county.style == LineStyle(None, None, Some(0.5))
      && city.source == county.source == border
      && Paint(city.color, code) == Str(o.cityStroke) && Paint(city.size, code) == Num(o.cityStrokeWidth)
      && Paint(county.color, code) == Str(o.countyStroke) && Paint(county.size, code) == Num(o.countyStrokeWidth)
  {
  }

  // ---------------------------------------------------------------------------
  // Composition: what the constructor loads and adds
  // ---------------------------------------------------------------------------

  /** `this.options.label?.enable`. */
  predicate LabelEnabled(o: LayerOptions) {
    o.labelOption.Some? && o.labelOption.value.enable
  }

  /** `loadData`: the fill data and, when the entry has a label, the label data; None
      when either load is rejected. The label is requested only after the fill resolved. */
  function LoadResult(cfg: CountryConfig, fetch: Fetcher): Option<(FeatureCollection, Option<FeatureCollection>)> {
    match fetch(cfg.fill)
    case None => None
    case Some(fill) =>
      if cfg.labelSource.None? then Some((fill, None))
      else
        match fetch(cfg.labelSource)
        case None => None
        case Some(labelData) => Some((fill, Some(labelData)))
  }

  /** The loads `loadData` issues. */
  function FillLoads(cfg: CountryConfig, fetch: Fetcher): seq<Load> {
    [Load(FillData, cfg.fill)]
    + if fetch(cfg.fill).Some? && cfg.labelSource.Some? then [Load(LabelData, cfg.labelSource)] else []
  }

  /** The layers the continuation of `loadData` adds: the fill, then the label when there is
      label data and labels are enabled. */
  function FillLayers(o: LayerOptions, cfg: CountryConfig, fetch: Fetcher): seq<Layer> {
    match LoadResult(cfg, fetch)
    case None => []
    case Some((fill, labelData)) =>
      [Fill(fill)] + if labelData.Some? && LabelEnabled(o) then [Label(labelData.value)] else []
  }

  /** The border loads the constructor starts for a depth. */
  function BorderLoads(depth: int, cfg: CountryConfig): seq<Load> {
    [Load(ProvinceLine, cfg.provinceLine)]
    + (if depth == 2 then [Load(CityLine, cfg.cityLine)] else [])
    + (if depth == 3 then [Load(CountyLine, cfg.countryLine)] else [])
  }

  /** The number of loads for a purpose. */
  function CountLoads(loads: seq<Load>, p: Purpose): nat {
    if loads == [] then 0
    else (if loads[0].purpose == p then 1 else 0) + CountLoads(loads[1..], p)
  }

  lemma {:induction false} CountLoadsAppend(a: seq<Load>, b: seq<Load>, p: Purpose)
    ensures CountLoads(a + b, p) == CountLoads(a, p) + CountLoads(b, p)
    decreases |a|
  {
    if a != [] {
      assert (a + b)[0] == a[0] && (a + b)[1..] == a[1..] + b;
      CountLoadsAppend(a[1..], b, p);
    } else {
      assert a + b == b;
    }
  }

  /** Depth dispatch: one province-line load always comes first; one city-line load iff the
      depth is 2; one county-line load iff the depth is 3; never both. */
  lemma DepthDispatch(depth: int, cfg: CountryConfig)
    ensures var loads := BorderLoads(depth, cfg);
      && loads[0] == Load(ProvinceLine, cfg.provinceLine)
      && CountLoads(loads, ProvinceLine) == 1
      && CountLoads(loads, CityLine) == (if depth == 2 then 1 else 0)
      && CountLoads(loads, CountyLine) == (if depth == 3 then 1 else 0)
      && CountLoads(loads, CityLine) + CountLoads(loads, CountyLine) <= 1
      && |loads| == (if depth == 2 || depth == 3 then 2 else 1)
  {
    var city := if depth == 2 then [Load(CityLine, cfg.cityLine)] else [];
    var county := if depth == 3 then [Load(CountyLine, cfg.countryLine)] else [];
    var head := [Load(ProvinceLine, cfg.provinceLine)];
    CountLoadsAppend(head + city, county, ProvinceLine);
    CountLoadsAppend(head, city, ProvinceLine);
    CountLoadsAppend(head + city, county, CityLine);
    CountLoadsAppend(head, city, CityLine);
    CountLoadsAppend(head + city, county, CountyLine);
    CountLoadsAppend(head, city, CountyLine);
  }

  /** Every load the constructor issues. */
  function Requests(o: LayerOptions, cfg: CountryConfig, fetch: Fetcher): seq<Load> {
    FillLoads(cfg, fetch) + BorderLoads(o.depth, cfg)
  }

  /** The label is fetched only if the entry has one, and only once the fill resolved. */
  lemma LabelFetchCondition(o: LayerOptions, cfg: CountryConfig, fetch: Fetcher)
    ensures CountLoads(Requests(o, cfg, fetch), LabelData) == (if cfg.labelSource.Some? && fetch(cfg.fill).Some? then 1 else 0)
    ensures CountLoads(Requests(o, cfg, fetch), FillData) == 1
  {
    var fl := FillLoads(cfg, fetch);
    CountLoadsAppend(fl, BorderLoads(o.depth, cfg), LabelData);
    CountLoadsAppend(fl, BorderLoads(o.depth, cfg), FillData);
    CountLoadsAppend([Load(FillData, cfg.fill)], fl[1..], LabelData);
    CountLoadsAppend([Load(FillData, cfg.fill)], fl[1..], FillData);
    assert fl == [Load(FillData, cfg.fill)] + fl[1..];
    var b := BorderLoads(o.depth, cfg);
    var city := if o.depth == 2 then [Load(CityLine, cfg.cityLine)] else [];
    var county := if o.depth == 3 then [Load(CountyLine, cfg.countryLine)] else [];
    var head := [Load(ProvinceLine, cfg.provinceLine)];
    CountLoadsAppend(head + city, county, LabelData);
    CountLoadsAppend(head, city, LabelData);
    CountLoadsAppend(head + city, county, FillData);
    CountLoadsAppend(head, city, FillData);
  }

  /** The layers a border load resolving to `data` adds: the split pair, or nothing when
      the load is rejected. */
  function ProvinceLayers(o: LayerOptions, data: Option<FeatureCollection>): seq<Layer> {
    if data.Some? then SplitLayers(o, data.value) else []
  }

  function CityLayers(o: LayerOptions, data: Option<FeatureCollection>): seq<Layer> {
    if data.Some? then [CityBorderLayer(o, data.value)] else []
  }

  function CountyLayers(o: LayerOptions, data: Option<FeatureCollection>): seq<Layer> {
    if data.Some? then [CountyBorderLayer(o, data.value)] else []
  }

  /** The line layers the constructor adds (and pushes onto `layers`). */
  function BorderLayers(o: LayerOptions, cfg: CountryConfig, fetch: Fetcher): seq<Layer> {
    ProvinceLayers(o, fetch(cfg.provinceLine))
    + (if o.depth == 2 then CityLayers(o, fetch(cfg.cityLine)) else [])
    + (if o.depth == 3 then CountyLayers(o, fetch(cfg.countryLine)) else [])
  }

  /** Every layer the constructor hands to the scene. */
  function Composition(o: LayerOptions, cfg: CountryConfig, fetch: Fetcher): seq<Layer> {
    FillLayers(o, cfg, fetch) + BorderLayers(o, cfg, fetch)
  }

  /** Fill and label: a fill layer is added iff the fill and (if configured) the label load
      both resolve; a label layer iff, in addition, there is label data and labels are
      enabled, and then it comes right after the fill layer. */
  lemma FillAndLabel(o: LayerOptions, cfg: CountryConfig, fetch: Fetcher)
    ensures var ls := FillLayers(o, cfg, fetch);
      var loaded := fetch(cfg.fill).Some? && (cfg.labelSource.Some? ==> fetch(cfg.labelSource).Some?);
      && (loaded <==> |ls| > 0)
      && (|ls| > 0 ==> ls[0] == Fill(fetch(cfg.fill).value))
      && ((exists i :: 0 <= i < |ls| && ls[i].Label?) <==> loaded && cfg.labelSource.Some? && LabelEnabled(o))
      && (forall i :: 0 <= i < |ls| && ls[i].Label? ==> i == 1 && ls[0].Fill? && ls[i] == Label(fetch(cfg.labelSource).value))
  {
    var loaded := fetch(cfg.fill).Some? && (cfg.labelSource.Some? ==> fetch(cfg.labelSource).Some?);
    var ls := FillLayers(o, cfg, fetch);
    if loaded && cfg.labelSource.Some? && LabelEnabled(o) {
      assert ls[1].Label?;
    }
  }

  /** The scene gains the fill part, then exactly the line layers pushed onto `layers`:
      two for the province line when it loads, plus one city or one county layer. */
  lemma CompositionCount(o: LayerOptions, cfg: CountryConfig, fetch: Fetcher)
    ensures var bs := BorderLayers(o, cfg, fetch);
      && Composition(o, cfg, fetch) == FillLayers(o, cfg, fetch) + bs
      && |bs| == (if fetch(cfg.provinceLine).Some? then 2 else 0)
                 + (if o.depth == 2 && fetch(cfg.cityLine).Some? then 1 else 0)
                 + (if o.depth == 3 && fetch(cfg.countryLine).Some? then 1 else 0)
      && (forall i :: 0 <= i < |bs| ==> bs[i].Line?)
  {
  }

  // ---------------------------------------------------------------------------
  // The scene and the layer composer
  // ---------------------------------------------------------------------------

  /** The rendering host, reduced to the layers added to it, in order. */
  class Scene {
    var layers: seq<Layer>

    constructor ()
      ensures layers == []
    {
      layers := [];
    }

    method AddLayer(layer: Layer)
      modifies this
      ensures layers == old(layers) + [layer]
    {
      layers := layers + [layer];
    }
  }

  /** `CountryLayer`: composes the fill, label and border layers of a country. Every load
      resolves when it is requested; `requested` records the loads in the order issued. */
  class CountryLayer {
    const scene: Scene
    const options: LayerOptions
    const config: DataConfig
    const fetch: Fetcher
    /** The layers this composer owns (`this.layers`). */
    var layers: seq<Layer>
    /** The `fetchData` calls made so far. */
    var requested: seq<Load>

    /** The constructor: load fill and label, add the province line, then the city border
        at depth 2 or the county border at depth 3. The depth must have a configuration
        entry; the source reads its fields unguarded. */
    constructor (scene: Scene, options: LayerOptions, config: DataConfig, fetch: Fetcher)
      requires options.depth in config
      modifies scene
      ensures this.scene == scene && this.options == options && this.config == config && this.fetch == fetch
      ensures scene.layers == old(scene.layers) + Composition(options, config[options.depth], fetch)
      ensures layers == BorderLayers(options, config[options.depth], fetch)
      ensures requested == Requests(options, config[options.depth], fetch)
    {
      this.scene := scene;
      this.options := options;
      this.config := config;
      this.fetch := fetch;
      layers := [];
      requested := [];
      new;
      LoadFillAndLabel();
      AddBorders();
    }

    /** The `loadData().then(...)` continuation: add the fill layer, then the label layer
        when there is label data and labels are enabled. */
    method LoadFillAndLabel()
      requires options.depth in config
      modifies this`requested, scene
      ensures scene.layers == old(scene.layers) + FillLayers(options, config[options.depth], fetch)
      ensures requested == old(requested) + FillLoads(config[options.depth], fetch)
    {
      var loaded := LoadData();
      if loaded.Some? {
        AddFillLayer(loaded.value.0);
        if loaded.value.1.Some? && LabelEnabled(options) {
          AddLabelLayer(loaded.value.1.value);
        }
      }
    }

    /** The border part of the constructor: the province line always, the city border at
        depth 2, the county border at depth 3. */
    method AddBorders()
      requires options.depth in config
      modifies this`requested, this`layers, scene
      ensures scene.layers == old(scene.layers) + BorderLayers(options, config[options.depth], fetch)
      ensures layers == old(layers) + BorderLayers(options, config[options.depth], fetch)
      ensures requested == old(requested) + BorderLoads(options.depth, config[options.depth])
    {
      var countryConfig := config[options.depth];
      AddProvinceLine(countryConfig.provinceLine);
      if options.depth == 2 {
        AddCityBorder(countryConfig.cityLine);
      }
      if options.depth == 3 {
        AddCountryBorder(countryConfig.countryLine);
      }
    }

    /** `fetchData`: records the call and returns what the load resolves to. */
    method FetchData(purpose: Purpose, cfg: Option<DataSource>) returns (r: Option<FeatureCollection>)
      modifies this`requested
      ensures requested == old(requested) + [Load(purpose, cfg)]
      ensures r == fetch(cfg)
    {
      requested := requested + [Load(purpose, cfg)];
      r := fetch(cfg);
    }

    /** `loadData`: the fill data, then the label data when the entry has a label. */
    method LoadData() returns (r: Option<(FeatureCollection, Option<FeatureCollection>)>)
      requires options.depth in config
      modifies this`requested
      ensures r == LoadResult(config[options.depth], fetch)
      ensures requested == old(requested) + FillLoads(config[options.depth], fetch)
    {
      var countryConfig := config[options.depth];
      var fillData := FetchData(FillData, countryConfig.fill);
      if fillData.None? {
        return None;
      }
      if countryConfig.labelSource.None? {
        return Some((fillData.value, None));
      }
      var fillLabel := FetchData(LabelData, countryConfig.labelSource);
      if fillLabel.None? {
        return None;
      }
      r := Some((fillData.value, Some(fillLabel.value)));
    }

    /** The base layer's fill layer, recorded by its data. */
    method AddFillLayer(fillData: FeatureCollection)
      modifies scene
      ensures scene.layers == old(scene.layers) + [Fill(fillData)]
    {
      scene.AddLayer(Fill(fillData));
    }

    /** The base layer's label layer, recorded by its data. */
    method AddLabelLayer(labelData: FeatureCollection)
      modifies scene
      ensures scene.layers == old(scene.layers) + [Label(labelData)]
    {
      scene.AddLayer(Label(labelData));
    }

    /** `addProvinceLine`: load the border lines, split them and add both border layers. */
    method AddProvinceLine(cfg: Option<DataSource>)
      modifies this`requested, this`layers, scene
      ensures requested == old(requested) + [Load(ProvinceLine, cfg)]
      ensures scene.layers == old(scene.layers) + ProvinceLayers(options, fetch(cfg))
      ensures layers == old(layers) + ProvinceLayers(options, fetch(cfg))
    {
      var lineData := FetchData(ProvinceLine, cfg);
      if lineData.Some? {
        var split := SplitBorders(lineData.value);
        AddNationBorder(split.national, split.undetermined);
      }
    }

    /** `addFillLine`: the same split and the same two layers, for data already loaded. */
    method AddFillLine(lineData: FeatureCollection)
      modifies this`layers, scene
      ensures scene.layers == old(scene.layers) + SplitLayers(options, lineData)
      ensures layers == old(layers) + SplitLayers(options, lineData)
    {
      var split := SplitBorders(lineData);
      AddNationBorder(split.national, split.undetermined);
    }

    /** `addNationBorder`: hand the national and the dashed layer to the scene and keep both. */
    method AddNationBorder(boundaries: FeatureCollection, boundaries2: FeatureCollection)
      modifies this`layers, scene
      ensures scene.layers == old(scene.layers) + NationBorderLayers(options, boundaries, boundaries2)
      ensures layers == old(layers) + NationBorderLayers(options, boundaries, boundaries2)
    {
      var added := NationBorderLayers(options, boundaries, boundaries2);
      scene.AddLayer(added[0]);
      scene.AddLayer(added[1]);
      layers := layers + [added[0], added[1]];
    }

    /** `addCityBorder`: load the city lines and add their layer. */
    method AddCityBorder(cfg: Option<DataSource>)
      modifies this`requested, this`layers, scene
      ensures requested == old(requested) + [Load(CityLine, cfg)]
      ensures scene.layers == old(scene.layers) + CityLayers(options, fetch(cfg))
      ensures layers == old(layers) + CityLayers(options, fetch(cfg))
    {
      var border := FetchData(CityLine, cfg);
      if border.Some? {
        var cityline := CityBorderLayer(options, border.value);
        scene.AddLayer(cityline);
        layers := layers + [cityline];
      }
    }

    /** `addCountryBorder`: load the county lines and add their layer. */
    method AddCountryBorder(cfg: Option<DataSource>)
      modifies this`requested, this`layers, scene
      ensures requested == old(requested) + [Load(CountyLine, cfg)]
      ensures scene.layers == old(scene.layers) + CountyLayers(options, fetch(cfg))
      ensures layers == old(layers) + CountyLayers(options, fetch(cfg))
    {
      var border := FetchData(CountyLine, cfg);
      if border.Some? {
        var countyline := CountyBorderLayer(options, border.value);
        scene.AddLayer(countyline);
        layers := layers + [countyline];
      }
    }
  }
}
