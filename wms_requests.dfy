/**
  The request strings the checker sends to the ADAGUC WMS server and to the
  background-map services, the `source=` parameter naming the file, and the
  selection of checks from the `--checks` option.
 */
module WmsRequests {
  import opened Wrappers
  import opened Strings

  const BASE_URL := "http://adaguc-checker:8080/adaguc-services/adagucserver?"
  const BASE_URL_BGMAP := "http://geoservices.knmi.nl/cgi-bin/bgmaps.cgi?"
  const BASE_URL_COUNTRIES := "http://geoservices.knmi.nl/cgi-bin/worldmaps.cgi?"

  const CAP_PARAMS: seq<string> := ["SERVICE=WMS", "VERSION=1.3.0", "REQUEST=GetCapabilities"]
  const MAP_PARAMS: seq<string> := ["SERVICE=WMS", "REQUEST=GetMap", "WIDTH=1000", "HEIGHT=900",
                                    "FORMAT=image/png", "TRANSPARENT=TRUE"]
  /** GetMap on the ADAGUC server: WMS 1.3.0, axis order of EPSG:4326 as the CRS defines it. */
  const LAYER_PARAMS: seq<string> := ["CRS=EPSG:4326", "STYLES=auto/nearest", "VERSION=1.3.0"]
  /** GetMap on the background services: WMS 1.1.1, longitude first. */
  const BASELAYER_PARAMS: seq<string> := ["SRS=EPSG:4326", "VERSION=1.1.1"]

  const BACKGROUND_LAYER_PARAM := "LAYERS=naturalearth2"
  const COUNTRIES_LAYER_PARAM := "LAYERS=ne_10m_admin_0_countries_simplified"

  /** The `EPSG:4326` bounding box of a layer, as the attribute strings of the capabilities document. */
  datatype BBox = BBox(minx: string, miny: string, maxx: string, maxy: string)

  /** A layer of the capabilities document: its name and bounding box. */
  datatype Layer = Layer(name: string, bbox: BBox)

  /** The server to ask: the `--baseurl` option when it is given and not empty, else the default. */
  function ServerUrl(baseUrlOption: Option<string>): string {
    if baseUrlOption.Some? && baseUrlOption.value != "" then baseUrlOption.value else BASE_URL
  }

  // ---------------------------------------------------------------------------
  // Request strings.
  // ---------------------------------------------------------------------------

  function GetCapabilitiesQuery(source: string): string {
    Join("&", [source, Join("&", CAP_PARAMS)])
  }

  function GetCapabilitiesRequest(server: string, source: string): string {
    server + GetCapabilitiesQuery(source)
  }

  /** The `BBOX` value of the WMS 1.3.0 GetMap request: minx,miny,maxx,maxy. */
  function GetMapBBox(bbox: BBox): string {
    Join(",", [bbox.minx, bbox.miny, bbox.maxx, bbox.maxy])
  }

  function GetMapQuery(source: string, layer: Layer): string {
    Join("&", [source, Join("=", ["LAYERS", layer.name]), Join("&", MAP_PARAMS), Join("&", LAYER_PARAMS),
               Join("=", ["BBOX", GetMapBBox(layer.bbox)])])
  }

  function GetMapRequest(server: string, source: string, layer: Layer): string {
    server + GetMapQuery(source, layer)
  }

  /** The `BBOX` value of the WMS 1.1.1 background requests: miny,minx,maxy,maxx. */
  function BaseLayerBBox(bbox: BBox): string {
    Join(",", [bbox.miny, bbox.minx, bbox.maxy, bbox.maxx])
  }

  function BaseLayerQuery(layerParam: string, bbox: BBox): string {
    Join("&", [layerParam, Join("&", MAP_PARAMS), Join("&", BASELAYER_PARAMS),
               Join("=", ["BBOX", BaseLayerBBox(bbox)])])
  }

  function BackgroundRequest(bbox: BBox): string {
    BASE_URL_BGMAP + BaseLayerQuery(BACKGROUND_LAYER_PARAM, bbox)
  }

  function CountriesRequest(bbox: BBox): string {
    BASE_URL_COUNTRIES + BaseLayerQuery(COUNTRIES_LAYER_PARAM, bbox)
  }

  /** The `source=` parameter: the file, under its temporary sub-directory when it has one. */
  function SourceParam(dirname: string, fname: string): string {
    if dirname == "" then Join("=", ["source", "/" + fname])
    else Join("=", ["source", "/" + dirname + "/" + fname])
  }

  // ---------------------------------------------------------------------------
  // Check selection.
  // ---------------------------------------------------------------------------

  /** The `--checks` option split at its commas. */
  function SelectedChecks(checksOption: string): seq<string> {
    Split(checksOption, ',')
  }

  predicate RunsStandard(checks: seq<string>) {
    "all" in checks || "standard" in checks
  }

  predicate RunsAdaguc(checks: seq<string>) {
    "all" in checks || "adaguc" in checks
  }

  // ---------------------------------------------------------------------------
  // Properties.
  // ---------------------------------------------------------------------------

  predicate NoneContains(parts: seq<string>, c: char) {
    forall p | p in parts :: c !in p
  }

  /**
    Both bounding boxes hold the same four coordinates; the background
    requests swap each (x, y) pair, the axis order WMS 1.1.1 uses for
    EPSG:4326 where WMS 1.3.0 puts latitude first.
   */
  lemma BBoxAxisOrder(bbox: BBox)
    requires NoneContains([bbox.minx, bbox.miny, bbox.maxx, bbox.maxy], ',')
    ensures Split(GetMapBBox(bbox), ',') == [bbox.minx, bbox.miny, bbox.maxx, bbox.maxy]
    ensures var g, b := Split(GetMapBBox(bbox), ','), Split(BaseLayerBBox(bbox), ',');
      |b| == |g| == 4 && b[0] == g[1] && b[1] == g[0] && b[2] == g[3] && b[3] == g[2]
  {
    SplitJoin([bbox.minx, bbox.miny, bbox.maxx, bbox.maxy], ',');
    SplitJoin([bbox.miny, bbox.minx, bbox.maxy, bbox.maxx], ',');
  }

  /** None of the given strings holds `&`. */
  lemma NoAmpersandIn(params: seq<string>)
    requires forall k, i | 0 <= k < |params| && 0 <= i < |params[k]| :: params[k][i] != '&'
    ensures NoneContains(params, '&')
  {
    forall p | p in params
      ensures '&' !in p
    {
      var k :| 0 <= k < |params| && params[k] == p;
      assert forall i | 0 <= i < |p| :: p[i] == params[k][i];
    }
  }

  lemma ConstantsHaveNoAmpersand()
    ensures NoneContains(CAP_PARAMS, '&') && NoneContains(MAP_PARAMS, '&')
    ensures NoneContains(LAYER_PARAMS, '&') && NoneContains(BASELAYER_PARAMS, '&')
  {
    NoAmpersandIn(CAP_PARAMS);
    NoAmpersandIn(MAP_PARAMS);
    NoAmpersandIn(LAYER_PARAMS);
    NoAmpersandIn(BASELAYER_PARAMS);
  }

  /** The GetCapabilities query is the source followed by the three fixed parameters. */
  lemma GetCapabilitiesParameters(source: string)
    requires '&' !in source
    ensures Split(GetCapabilitiesQuery(source), '&') == [source] + CAP_PARAMS
  {
    ConstantsHaveNoAmpersand();
    JoinFlatten("&", [source], CAP_PARAMS, []);
    assert [source] + [Join("&", CAP_PARAMS)] + [] == [source, Join("&", CAP_PARAMS)];
    assert [source] + CAP_PARAMS + [] == [source] + CAP_PARAMS;
    SplitJoin([source] + CAP_PARAMS, '&');
  }

  /**
    The GetMap query carries exactly: the source, the layer, the fixed map
    parameters, the WMS 1.3.0 parameters and the minx,miny,maxx,maxy box.
   */
  lemma GetMapParameters(source: string, layer: Layer)
    requires '&' !in source && '&' !in layer.name
    requires NoneContains([layer.bbox.minx, layer.bbox.miny, layer.bbox.maxx, layer.bbox.maxy], '&')
    ensures Split(GetMapQuery(source, layer), '&')
         == [source, "LAYERS=" + layer.name] + MAP_PARAMS + LAYER_PARAMS + ["BBOX=" + GetMapBBox(layer.bbox)]
  {
    ConstantsHaveNoAmpersand();
    var head := [source, "LAYERS=" + layer.name];
    var tail := ["BBOX=" + GetMapBBox(layer.bbox)];
    assert Join("=", ["LAYERS", layer.name]) == "LAYERS=" + layer.name;
    assert Join("=", ["BBOX", GetMapBBox(layer.bbox)]) == tail[0];
    JoinFlatten("&", head, MAP_PARAMS, [Join("&", LAYER_PARAMS)] + tail);
    assert head + [Join("&", MAP_PARAMS)] + ([Join("&", LAYER_PARAMS)] + tail)
        == [source, Join("=", ["LAYERS", layer.name]), Join("&", MAP_PARAMS), Join("&", LAYER_PARAMS),
            Join("=", ["BBOX", GetMapBBox(layer.bbox)])];
    JoinFlatten("&", head + MAP_PARAMS, LAYER_PARAMS, tail);
    assert head + MAP_PARAMS + ([Join("&", LAYER_PARAMS)] + tail) == head + MAP_PARAMS + [Join("&", LAYER_PARAMS)] + tail;
    var all := head + MAP_PARAMS + LAYER_PARAMS + tail;
    assert '&' !in GetMapBBox(layer.bbox) by {
      JoinNoChar(",", [layer.bbox.minx, layer.bbox.miny, layer.bbox.maxx, layer.bbox.maxy], '&');
    }
    assert forall p | p in all :: p in head || p in MAP_PARAMS || p in LAYER_PARAMS || p in tail;
    SplitJoin(all, '&');
  }

  /**
    The background queries carry exactly: the layer, the fixed map
    parameters, the WMS 1.1.1 parameters and the miny,minx,maxy,maxx box.
   */
  lemma BaseLayerParameters(layerParam: string, bbox: BBox)
    requires '&' !in layerParam
    requires NoneContains([bbox.minx, bbox.miny, bbox.maxx, bbox.maxy], '&')
    ensures Split(BaseLayerQuery(layerParam, bbox), '&')
         == [layerParam] + MAP_PARAMS + BASELAYER_PARAMS + ["BBOX=" + BaseLayerBBox(bbox)]
  {
    ConstantsHaveNoAmpersand();
    var tail := ["BBOX=" + BaseLayerBBox(bbox)];
    assert Join("=", ["BBOX", BaseLayerBBox(bbox)]) == tail[0];
    JoinFlatten("&", [layerParam], MAP_PARAMS, [Join("&", BASELAYER_PARAMS)] + tail);
    assert [layerParam] + [Join("&", MAP_PARAMS)] + ([Join("&", BASELAYER_PARAMS)] + tail)
        == [layerParam, Join("&", MAP_PARAMS), Join("&", BASELAYER_PARAMS), Join("=", ["BBOX", BaseLayerBBox(bbox)])];
    JoinFlatten("&", [layerParam] + MAP_PARAMS, BASELAYER_PARAMS, tail);
    assert [layerParam] + MAP_PARAMS + ([Join("&", BASELAYER_PARAMS)] + tail)
        == [layerParam] + MAP_PARAMS + [Join("&", BASELAYER_PARAMS)] + tail;
    var all := [layerParam] + MAP_PARAMS + BASELAYER_PARAMS + tail;
    assert '&' !in BaseLayerBBox(bbox) by {
      JoinNoChar(",", [bbox.miny, bbox.minx, bbox.maxy, bbox.maxx], '&');
    }
    assert forall p | p in all :: p == layerParam || p in MAP_PARAMS || p in BASELAYER_PARAMS || p in tail;
    SplitJoin(all, '&');
  }

  /** `request` is `server` followed by a query whose `&`-separated parameters are `params`. */
  predicate SentTo(request: string, server: string, params: seq<string>) {
    StartsWith(request, server) && Split(request[|server|..], '&') == params
  }

  lemma SentToQuery(server: string, query: string, params: seq<string>)
    requires Split(query, '&') == params
    ensures SentTo(server + query, server, params)
  {
    assert (server + query)[..|server|] == server;
    assert (server + query)[|server|..] == query;
  }

  /**
    The GetCapabilities and GetMap requests go to the `--baseurl` server when
    that option is given and not empty, and to the default ADAGUC server
    otherwise; after the server come exactly the parameters of the query.
   */
  lemma ServerRequests(baseUrlOption: Option<string>, source: string, layer: Layer)
    requires '&' !in source && '&' !in layer.name
    requires NoneContains([layer.bbox.minx, layer.bbox.miny, layer.bbox.maxx, layer.bbox.maxy], '&')
    ensures var server := ServerUrl(baseUrlOption);
      (baseUrlOption.Some? && baseUrlOption.value != "" ==> server == baseUrlOption.value) &&
      (baseUrlOption.None? || baseUrlOption.value == "" ==> server == BASE_URL) &&
      SentTo(GetCapabilitiesRequest(server, source), server, [source] + CAP_PARAMS) &&
      SentTo(GetMapRequest(server, source, layer), server,
             [source, "LAYERS=" + layer.name] + MAP_PARAMS + LAYER_PARAMS + ["BBOX=" + GetMapBBox(layer.bbox)])
  {
    var server := ServerUrl(baseUrlOption);
    GetCapabilitiesParameters(source);
    SentToQuery(server, GetCapabilitiesQuery(source), [source] + CAP_PARAMS);
    GetMapParameters(source, layer);
    SentToQuery(server, GetMapQuery(source, layer),
                [source, "LAYERS=" + layer.name] + MAP_PARAMS + LAYER_PARAMS + ["BBOX=" + GetMapBBox(layer.bbox)]);
  }

  /**
    The background request goes to the background-map service and the
    countries request to the world-map service, each with its own layer, the
    fixed map parameters, the WMS 1.1.1 parameters and the swapped box.
   */
  lemma BaseLayerRequests(bbox: BBox)
    requires NoneContains([bbox.minx, bbox.miny, bbox.maxx, bbox.maxy], '&')
    ensures SentTo(BackgroundRequest(bbox), BASE_URL_BGMAP,
                   [BACKGROUND_LAYER_PARAM] + MAP_PARAMS + BASELAYER_PARAMS + ["BBOX=" + BaseLayerBBox(bbox)])
    ensures SentTo(CountriesRequest(bbox), BASE_URL_COUNTRIES,
                   [COUNTRIES_LAYER_PARAM] + MAP_PARAMS + BASELAYER_PARAMS + ["BBOX=" + BaseLayerBBox(bbox)])
  {
    NoAmpersandIn([BACKGROUND_LAYER_PARAM, COUNTRIES_LAYER_PARAM]);
    assert BACKGROUND_LAYER_PARAM in [BACKGROUND_LAYER_PARAM, COUNTRIES_LAYER_PARAM];
    assert COUNTRIES_LAYER_PARAM in [BACKGROUND_LAYER_PARAM, COUNTRIES_LAYER_PARAM];
    BaseLayerParameters(BACKGROUND_LAYER_PARAM, bbox);
    SentToQuery(BASE_URL_BGMAP, BaseLayerQuery(BACKGROUND_LAYER_PARAM, bbox),
                [BACKGROUND_LAYER_PARAM] + MAP_PARAMS + BASELAYER_PARAMS + ["BBOX=" + BaseLayerBBox(bbox)]);
    BaseLayerParameters(COUNTRIES_LAYER_PARAM, bbox);
    SentToQuery(BASE_URL_COUNTRIES, BaseLayerQuery(COUNTRIES_LAYER_PARAM, bbox),
                [COUNTRIES_LAYER_PARAM] + MAP_PARAMS + BASELAYER_PARAMS + ["BBOX=" + BaseLayerBBox(bbox)]);
  }

  /** A join holds a character only if a part or the separator does. */
  lemma {:induction false} JoinNoChar(sep: string, parts: seq<string>, c: char)
    requires c !in sep && NoneContains(parts, c)
    ensures c !in Join(sep, parts)
  {
    if |parts| > 1 {
      JoinNoChar(sep, parts[1..], c);
      assert parts[0] in parts;
    } else if |parts| == 1 {
      assert parts[0] in parts;
    }
  }

  /**
    The path in the `source=` parameter names the file alone when there is no
    sub-directory, and the sub-directory and then the file otherwise.
   */
  lemma SourceParamPath(dirname: string, fname: string)
    requires '/' !in dirname && '/' !in fname
    ensures var p := SourceParam(dirname, fname);
      StartsWith(p, "source=/") &&
      Split(p[|"source=/"|..], '/') == if dirname == "" then [fname] else [dirname, fname]
  {
    var p := SourceParam(dirname, fname);
    if dirname == "" {
      JoinPair("=", "source", "/" + fname);
      assert p == "source=/" + fname;
      assert p[|"source=/"|..] == fname;
      SplitJoin([fname], '/');
    } else {
      JoinPair("=", "source", "/" + dirname + "/" + fname);
      JoinPair("/", dirname, fname);
      assert p == "source=/" + (dirname + "/" + fname);
      assert p[|"source=/"|..] == Join("/", [dirname, fname]);
      SplitJoin([dirname, fname], '/');
    }
  }

  /**
    The standard CF block runs exactly when "all" or "standard" is one of the
    comma-separated names, and the ADAGUC block exactly when "all" or "adaguc" is.
   */
  lemma CheckSelection(names: seq<string>)
    requires |names| > 0 && NoneContains(names, ',')
    ensures RunsStandard(SelectedChecks(Join(",", names))) <==> "all" in names || "standard" in names
    ensures RunsAdaguc(SelectedChecks(Join(",", names))) <==> "all" in names || "adaguc" in names
  {
    SplitJoin(names, ',');
  }

  /** An option without a comma names a single check. */
  lemma SingleCheck(name: string)
    requires ',' !in name
    ensures SelectedChecks(name) == [name]
  {
  }

  /** The default `--checks all` runs both blocks; `standard` alone skips the ADAGUC block. */
  lemma CheckSelectionExamples()
    ensures RunsStandard(SelectedChecks("all")) && RunsAdaguc(SelectedChecks("all"))
    ensures RunsStandard(SelectedChecks("standard")) && !RunsAdaguc(SelectedChecks("standard"))
    ensures !RunsStandard(SelectedChecks("adaguc")) && RunsAdaguc(SelectedChecks("adaguc"))
  {
    SingleCheck("all");
    SingleCheck("standard");
    SingleCheck("adaguc");
    assert "standard" != "all" && "standard" != "adaguc" && "adaguc" != "all";
  }
}
