# Country border composition and the earth atmosphere model, in Dafny

This project models two small pieces of the L7 geospatial rendering toolkit and proves
what they promise.

**The country district layer** (`CountryLayer`, module `District`, `district.dfy`) builds
the layers for one country. When it is constructed, it does these things:

- It loads the fill data, plus the label data when the depth's configuration entry has a
  label.
- It adds a fill layer. It adds a label layer only when label data came back and
  `label.enable` is set.
- It always loads the province/national border lines. It splits them by their `type` code:
  `"1"` and `"4"` go to a dashed gray "undetermined" layer, every other code goes to the
  national layer.
- The national layer takes its width and colour from the code: `"3"` gives the emphasized
  stroke, `"2"` the coastline stroke, `"0"` the national stroke, and any other code gives
  `"#fff"`. Both border layers sit at `zIndex + 1`.
- At depth 2 it also adds a city border. At depth 3 it adds a county border (the source
  calls this method `addCountryBorder`). Each is a single-style line layer at z-index 2 with
  opacity 0.5.

The filter, the style callbacks and the layer settings are pure functions. The composer is
a class. It holds the layers it owns (`layers`) and a log of its `fetchData` calls
(`requested`). It appends to a `Scene` whose state is the sequence of layers handed to
it. Its methods are proved against the specification functions `Composition`,
`BorderLayers`, `FillLayers`, `Requests` and `BorderLoads`. The properties are lemmas about
those functions. `fetchData` is a parameter: a total function from a configuration entry
to the collection it resolves to, or `None` for a rejected load.

**The earth atmosphere model** (`EarthAtomSphereModel`, module `Atmosphere`,
`atmosphere.dfy`) does four things:

- It computes the `u_opacity` uniform. The value is the layer's opacity when that is a
  number. It is 1 when the opacity is absent or not a number.
- It registers three style attributes: `size` (1 component), `normal` (3) and `uv` (2).
  Each has an update function.
- `clearModels` does nothing and returns `""`.
- `buildModels` sets the layer's z-index to -997 and returns exactly one model, built with
  depth testing off.

A read past the end of a JavaScript array gives `undefined`, and the model keeps that
behaviour (`Elem.Undefined`). So the `size` and `uv` updates return a vector of their
declared length for every input. The `normal` update does so whenever the triangulation
supplies a three-component normal.

Three behaviours of the code are worth stating outright:

- The `"#fff"` fallback of the national style callbacks is reachable for any code outside
  `"0"`–`"4"`, including a missing `type` (`District.FallbackReachable`). The width
  callback then returns a colour string as a width. The model keeps that value as
  `Str("#fff")`.
- The `"1"`/`"4"` layer is gray and dashed: line type `dash`, dash array `[2, 2]`.
- The city and county layers each use one stroke and one width for the whole layer, taken
  from the options `cityStroke`/`cityStrokeWidth` and `countyStroke`/`countyStrokeWidth`.

## Model

| member | source | states |
|---|---|---|
| `District.Filter` | packages/district/src/layer/country.ts:37-40 | the filtered collection is no longer than the input and every feature in it satisfies the filter predicate |
| `District.FilterMembers` | packages/district/src/layer/country.ts:45-48 | a feature is in the filtered collection exactly when it is in the input and satisfies the predicate |
| `District.FilterIsSubsequence` | packages/district/src/layer/country.ts:37-48 | a filter keeps the input order: its result is a subsequence of the input |
| `District.FilterMultiplicity` | packages/district/src/layer/country.ts:37-48 | a filter adds no duplicates and drops no copies: each kept feature occurs as often as in the input, and each rejected one not at all |
| `District.ComplementaryFilters` | packages/district/src/layer/country.ts:37-48 | two filters with complementary predicates have sizes that sum to the input length and multisets that sum to the input's multiset |
| `District.SplitPartition` | packages/district/src/layer/country.ts:37-48 | every feature of the line data lands in exactly one of the national set and the `"1"`/`"4"` set; the national set holds no `"1"`/`"4"` and the other set only those; the sizes add up; the multisets sum to the input; both keep the input order |
| `District.SplitMultiplicity` | packages/district/src/layer/country.ts:37-48 | each set holds every input feature of its class exactly as often as the input does, and none of the other class |
| `District.NationalSizeDispatch` | packages/district/src/layer/country.ts:102-112 | `"3"` gives `strokeWidth`, `"2"` `coastlineWidth`, `"0"` `nationalWidth`; the result is a string, `"#fff"`, exactly when the code is none of these |
| `District.NationalColorDispatch` | packages/district/src/layer/country.ts:114-124 | `"3"` gives `stroke`, `"2"` `coastlineStroke`, `"0"` `nationalStroke`, and any other code `"#fff"` |
| `District.FallbackReachable` | packages/district/src/layer/country.ts:45-48 | a feature with code `"5"` lands in the national set and gets `"#fff"` as both its width and its colour |
| `District.SplitLayerSettings` | packages/district/src/layer/country.ts:98-136 | splitting yields two line layers at `zIndex + 1`, both with shape `line`: the first draws exactly the national features with the per-code width and colour callbacks, undashed, so codes 3, 2 and 0 get their option values and every other code `"#fff"` for both; the second draws exactly the `"1"`/`"4"` features, gray, `nationalWidth` wide, line type `dash` with dash array `[2, 2]` |
| `District.FiveCodeScenario` | packages/district/src/layer/country.ts:37-53 | features coded 1, 2, 3, 4, 0 split into `[1, 4]` and `[2, 3, 0]`, in that order; the national colours of 2, 3 and 0 are the coastline, emphasized and national strokes |
| `District.SubBorderSettings` | packages/district/src/layer/country.ts:146-172 | the city and county layers draw their whole data at z-index 2, opacity 0.5, without dash, with their own stroke and width for every feature |
| `District.DepthDispatch` | packages/district/src/layer/country.ts:25-32 | one province-line load always comes first; one city-line load iff the depth is 2; one county-line load iff the depth is 3; never both |
| `District.LabelFetchCondition` | packages/district/src/layer/country.ts:77-85 | the fill is fetched once; the label is fetched once if the configuration entry has a label and the fill load resolved, and otherwise never |
| `District.FillAndLabel` | packages/district/src/layer/country.ts:17-22 | a fill layer is added iff the fill load, and the label load when configured, resolve; a label layer iff in addition label data exists and `label.enable` holds, and then it comes right after the fill layer |
| `District.CompositionCount` | packages/district/src/layer/country.ts:25-32 | the scene gains the fill part followed by the border layers; the border part is two layers when the province line loads, plus one city layer at depth 2 or one county layer at depth 3, all line layers |
| `District.CountryLayer.constructor` | packages/district/src/layer/country.ts:14-33 | the scene gains exactly `Composition(...)`, `layers` holds exactly the border layers, and the loads issued are exactly `Requests(...)` |
| `District.CountryLayer.LoadFillAndLabel` | packages/district/src/layer/country.ts:17-22 | the scene gains exactly the fill and label layers of the loaded data; the loads are those of `loadData` |
| `District.CountryLayer.AddBorders` | packages/district/src/layer/country.ts:23-32 | the scene and `layers` both gain exactly the border layers of the depth; the loads are `BorderLoads(depth, ...)` |
| `District.CountryLayer.LoadData` | packages/district/src/layer/country.ts:77-85 | returns the fill data and the label data, or nothing when a load is rejected; fetches the label only for a configured label after the fill resolved |
| `District.CountryLayer.AddFillLayer` | packages/district/src/layer/country.ts:18 | the scene gains one fill layer over the fill data |
| `District.CountryLayer.AddLabelLayer` | packages/district/src/layer/country.ts:20 | the scene gains one label layer over the label data |
| `District.CountryLayer.AddProvinceLine` | packages/district/src/layer/country.ts:35-54 | one province-line load; when it resolves, the scene and `layers` both gain exactly the two layers of the split |
| `District.CountryLayer.AddFillLine` | packages/district/src/layer/country.ts:57-75 | the scene and `layers` gain the same two split layers that `AddProvinceLine` adds for the same data |
| `District.CountryLayer.AddNationBorder` | packages/district/src/layer/country.ts:87-141 | the scene gains the national layer then the undetermined layer, and `layers` grows by exactly those two |
| `District.CountryLayer.AddCityBorder` | packages/district/src/layer/country.ts:143-157 | one city-line load; when it resolves, the scene and `layers` both gain exactly the city layer |
| `District.CountryLayer.AddCountryBorder` | packages/district/src/layer/country.ts:160-175 | one county-line load; when it resolves, the scene and `layers` both gain exactly the county layer |
| `Atmosphere.UniformsOf` | packages/layers/src/earth/models/atmosphere.ts:19-25 | `u_opacity` is the opacity when it is a number, and 1 when the opacity is absent or not a number |
| `Atmosphere.UniformsDefault` | packages/layers/src/earth/models/atmosphere.ts:20-23 | every configuration whose opacity is absent or not a number gives the same uniforms, `u_opacity` = 1 |
| `Atmosphere.SizeUpdate` | packages/layers/src/earth/models/atmosphere.ts:61-65 | the size vector has length 1, the declared size: the first array element (undefined for an empty array), the scalar, or 1 when absent |
| `Atmosphere.NormalUpdate` | packages/layers/src/earth/models/atmosphere.ts:79-88 | the normal update returns the triangulation's normal unchanged |
| `Atmosphere.UvUpdate` | packages/layers/src/earth/models/atmosphere.ts:102-109 | the uv vector has length 2, the declared size; entry k is the vertex's component 3 + k when it exists and undefined past a shorter vertex's end, so it is `[vertex[3], vertex[4]]` for a vertex of at least 5 components |
| `Atmosphere.UpdatesMatchDeclaredSize` | packages/layers/src/earth/models/atmosphere.ts:49-112 | every registered attribute's update returns a vector whose length is its declared size, given a three-component normal |
| `Atmosphere.BuiltinNamesDistinct` | packages/layers/src/earth/models/atmosphere.ts:51-97 | the three registered attributes have distinct names and distinct shader attribute names |
| `Atmosphere.EarthAtmosphereModel.GetUninforms` | packages/layers/src/earth/models/atmosphere.ts:19-25 | reading only the layer, `u_opacity` is the layer configuration's opacity when it is a number, and 1 otherwise, absent included |
| `Atmosphere.EarthAtmosphereModel.ClearModels` | packages/layers/src/earth/models/atmosphere.ts:31-33 | returns `""` and changes no state, so repeated calls are harmless |
| `Atmosphere.EarthAtmosphereModel.BuildModels` | packages/layers/src/earth/models/atmosphere.ts:35-47 | the layer's z-index becomes -997 and exactly one model is returned: the atmosphere shaders, the earth triangulation, depth testing off, the layer's blend |
| `Atmosphere.EarthAtmosphereModel.InitModels` | packages/layers/src/earth/models/atmosphere.ts:27-29 | pins the z-index to -997 and returns exactly `buildModels`'s single model: the atmosphere shaders, the earth triangulation, depth testing off, the layer's blend |
| `Atmosphere.EarthAtmosphereModel.RegisterBuiltinAttributes` | packages/layers/src/earth/models/atmosphere.ts:49-112 | the registrations grow by exactly size, normal and uv, in that order, with their declared usage and component count |

## Left out

- Asynchronous ordering. Every load resolves at the moment it is requested, and the
  constructor's continuations run in the order the constructor starts them: fill/label,
  then the borders. The lemmas state what is loaded and added, not the interleaving of
  the independent tasks.
- `fetchData`, the `BaseLayer` constructor, option defaults, `addFillLayer` and
  `addLabelLayer` belong to `BaseLayer`, which is not part of this model. Fetching is a
  parameter. Options are taken as given. The fill and label layers are recorded only by
  the data handed to them, and are not pushed onto `layers`.
- District.CountryLayer.constructor: requires the depth to have a configuration entry. The
  source reads the entry's fields unguarded and throws a TypeError otherwise.
- An absent configuration entry (for example `cityLine` at depth 2) is passed to the
  fetcher as `None`, just as the source passes `undefined`. What `fetchData` does with it
  is the fetcher's choice.
- Feature properties other than `type`, and geometry contents: geometry is carried
  unchanged. A missing or non-string `type` behaves like any string outside `"0"`–`"4"`,
  and the model represents it that way.
- The internals of the `LineLayer`/`PolygonLayer` builders, `scene.addLayer`,
  `buildLayerModel`, `getBlend`, `earthTriangulation` and the style attribute service are
  library code. The model records only the arguments passed. The service's replace-by-name
  behaviour is not modelled: registrations are an ordered log.
- Shader sources, GPU buffers, buffer data and blend state are recorded as tags only.
- Floating point: widths, opacities and z-indices are `real` values. They are passed through,
  and the border z-index is offset by one. NaN and infinities are not represented.
- Atmosphere.SizeUpdate: a `size` that is neither a number nor an array is not represented.
  The TypeScript type admits only those two.
- The demo script packages/site/examples/tile/vector/demo/farmland.ts: it is declarative
  builder calls and holds no logic of its own.
