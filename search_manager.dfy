/** Hacienda search: the name a feature is shown under, the text search
    that filters out blocked haciendas and ranks the rest by a match
    score, and the proximity search around a point. */
module SearchManager {
  import opened Common
  import opened Geo
  import opened Sorting

  // ---------------------------------------------------------------------
  // Names

  const NoFeatureName := "Sin nombre"
  const UnnamedName := "Ubicaci\U{f3}n sin nombre"

  /** A property value that is truthy: present and not the empty string. */
  predicate Truthy(o: Option<string>) {
    o.Some? && o.value != []
  }

  /** The first truthy value of a chain `a || b || ...`. */
  function FirstTruthy(cands: seq<Option<string>>): (r: Option<string>)
    ensures r.Some? ==> r.value != []
  {
    if cands == [] then None
    else if Truthy(cands[0]) then cands[0]
    else FirstTruthy(cands[1..])
  }

  /** `FirstTruthy` picks the first truthy candidate, and finds nothing
      exactly when there is none. */
  lemma {:induction false} FirstTruthySpec(cands: seq<Option<string>>)
    ensures FirstTruthy(cands).None? <==> forall i :: 0 <= i < |cands| ==> !Truthy(cands[i])
    ensures FirstTruthy(cands).Some? ==>
      exists i :: 0 <= i < |cands| && cands[i] == FirstTruthy(cands)
        && forall k :: 0 <= k < i ==> !Truthy(cands[k])
  {
    if cands != [] && !Truthy(cands[0]) {
      FirstTruthySpec(cands[1..]);
      if FirstTruthy(cands).Some? {
        var i :| 0 <= i < |cands[1..]| && cands[1..][i] == FirstTruthy(cands[1..])
          && forall k :: 0 <= k < i ==> !Truthy(cands[1..][k]);
        assert cands[i + 1] == FirstTruthy(cands);
        assert forall k :: 0 <= k < i + 1 ==> !Truthy(cands[k]) by {
          forall k | 0 <= k < i + 1 ensures !Truthy(cands[k]) {
            if k > 0 { assert cands[k] == cands[1..][k - 1]; }
          }
        }
      } else {
        forall i | 0 <= i < |cands| ensures !Truthy(cands[i]) {
          if i > 0 { assert cands[i] == cands[1..][i - 1]; }
        }
      }
    }
  }

  /** A layer's `feature` field replaces the value passed in when set. */
  function Unwrap(f: Feature): Feature {
    if f.feature.Some? then f.feature.value else f
  }

  /** The properties consulted for a name, in order. */
  function NameCandidates(f: Feature): seq<Option<string>> {
    match f.properties
    case None => [None, None, None, None]
    case Some(p) => [p.nombre, p.name, p.nombreUpper, p.hacienda]
  }

  /** The name of a feature: "Sin nombre" with no feature, otherwise the
      first truthy name property of the (unwrapped) feature, otherwise
      "Ubicación sin nombre". */
  function GetNombre(f: Option<Feature>): (r: string)
    ensures r != []
    ensures f.None? ==> r == NoFeatureName
    ensures f.Some? && FirstTruthy(NameCandidates(Unwrap(f.value))).None? ==> r == UnnamedName
    ensures f.Some? && FirstTruthy(NameCandidates(Unwrap(f.value))).Some? ==>
      Some(r) in NameCandidates(Unwrap(f.value))
      && r == FirstTruthy(NameCandidates(Unwrap(f.value))).value
  {
    if f.None? then NoFeatureName
    else
      var c := NameCandidates(Unwrap(f.value));
      FirstTruthySpec(c);
      match FirstTruthy(c)
      case Some(n) => n
      case None => UnnamedName
  }

  /** The `Nombre` property, when truthy, always wins. */
  lemma GetNombrePrefersNombre(f: Feature)
    requires Unwrap(f).properties.Some? && Truthy(Unwrap(f).properties.value.nombre)
    ensures GetNombre(Some(f)) == Unwrap(f).properties.value.nombre.value
  {
  }

  // ---------------------------------------------------------------------
  // Text search

  /** The query actually searched for: trimmed and lower-cased. */
  function Query(raw: string): string {
    Lower(Trim(raw))
  }

  /** 100 for a prefix match, 50 for a whole-word match, 30 for any match. */
  function Score(nombreLower: string, txt: string): (score: int)
    ensures score >= 0
  {
    (if StartsWith(nombreLower, txt) then 100 else 0)
    + (if Contains(nombreLower, " " + txt + " ") then 50 else 0)
    + (if Contains(nombreLower, txt) then 30 else 0)
  }

  /** A name scores at all exactly when it contains the query. */
  lemma ScorePositiveIff(nombreLower: string, txt: string)
    ensures Score(nombreLower, txt) > 0 <==> Contains(nombreLower, txt)
  {
    if Contains(nombreLower, " " + txt + " ") {
      ContainsMiddle(nombreLower, " ", txt, " ");
    }
  }

  datatype Scored = Scored(hacienda: Feature, nombre: string, score: int)

  function ScoreOf(h: Feature, txt: string): int {
    Score(Lower(GetNombre(Some(h))), txt)
  }

  /** A feature the text search keeps: not blocked and scoring at all. */
  predicate Matches(h: Feature, blocked: seq<string>, txt: string) {
    GetNombre(Some(h)) !in blocked && ScoreOf(h, txt) > 0
  }

  /** Kept exactly when the name is not blocked and contains the query. */
  lemma MatchesIff(h: Feature, blocked: seq<string>, txt: string)
    ensures Matches(h, blocked, txt) <==>
      GetNombre(Some(h)) !in blocked && Contains(Lower(GetNombre(Some(h))), txt)
  {
    ScorePositiveIff(Lower(GetNombre(Some(h))), txt);
  }

  /** The unblocked features, scored, keeping those with a positive score. */
  function Candidates(data: seq<Feature>, blocked: seq<string>, txt: string): (r: seq<Scored>)
    ensures |r| <= |data|
    ensures forall c :: c in r ==>
      c.hacienda in data && c.score == ScoreOf(c.hacienda, txt) && Matches(c.hacienda, blocked, txt)
  {
    if data == [] then []
    else
      var h := data[0];
      var rest := Candidates(data[1..], blocked, txt);
      if Matches(h, blocked, txt)
      then [Scored(h, GetNombre(Some(h)), ScoreOf(h, txt))] + rest
      else rest
  }

  /** Every feature the search keeps is a candidate. */
  lemma {:induction false} CandidatesComplete(data: seq<Feature>, blocked: seq<string>, txt: string, h: Feature)
    requires h in data && Matches(h, blocked, txt)
    ensures exists c :: c in Candidates(data, blocked, txt) && c.hacienda == h
  {
    if data[0] == h {
      assert Candidates(data, blocked, txt)[0].hacienda == h;
    } else {
      CandidatesComplete(data[1..], blocked, txt, h);
      var c :| c in Candidates(data[1..], blocked, txt) && c.hacienda == h;
      assert c in Candidates(data, blocked, txt);
    }
  }

  function NegScore(c: Scored): real {
    -(c.score as real)
  }

  function Min(a: nat, b: nat): nat {
    if a < b then a else b
  }

  /** Ties in data order: among the ranked candidates, those whose key is
      `v` (score `-v`) are the first of all the candidates with that
      score, in the candidates' order. */
  lemma RankedTies(data: seq<Feature>, blocked: seq<string>, txt: string, maxResults: nat, v: real)
    ensures var cands := Candidates(data, blocked, txt);
      var top := Best(cands, NegScore, maxResults);
      |WithKey(top, NegScore, v)| <= |WithKey(cands, NegScore, v)|
      && WithKey(top, NegScore, v) == WithKey(cands, NegScore, v)[..|WithKey(top, NegScore, v)|]
  {
    BestStable(Candidates(data, blocked, txt), NegScore, maxResults, v);
  }

  function Haciendas(s: seq<Scored>): (r: seq<Feature>)
    ensures |r| == |s| && forall i :: 0 <= i < |s| ==> r[i] == s[i].hacienda
  {
    seq(|s|, i requires 0 <= i < |s| => s[i].hacienda)
  }

  /** The ranked results for an already normalised query `txt`: the
      features of the `maxResults` best-scoring candidates (`Best` by
      `NegScore`: no candidate left out scores more than one listed), by
      non-increasing score, or nothing when `txt` is shorter than
      `minChars`. */
  function Ranked(data: seq<Feature>, blocked: seq<string>, txt: string,
                  minChars: nat, maxResults: nat): (r: seq<Feature>)
    ensures |txt| < minChars ==> r == []
    ensures |r| <= maxResults
    ensures |txt| >= minChars ==> r == Haciendas(Best(Candidates(data, blocked, txt), NegScore, maxResults))
    ensures |txt| >= minChars ==> |r| == Min(maxResults, |Candidates(data, blocked, txt)|)
    ensures forall i :: 0 <= i < |r| ==> r[i] in data && Matches(r[i], blocked, txt)
    ensures forall i, j :: 0 <= i < j < |r| ==> ScoreOf(r[i], txt) >= ScoreOf(r[j], txt)
  {
    if |txt| < minChars then []
    else
      var cands := Candidates(data, blocked, txt);
      var top := Best(cands, NegScore, maxResults);
      RankedFeatures(data, blocked, txt, cands, top);
      Haciendas(top)
  }

  /** The features of candidates sorted by `NegScore` are kept features,
      by non-increasing score. */
  lemma RankedFeatures(data: seq<Feature>, blocked: seq<string>, txt: string, cands: seq<Scored>, top: seq<Scored>)
    requires forall c :: c in cands ==>
      c.hacienda in data && c.score == ScoreOf(c.hacienda, txt) && Matches(c.hacienda, blocked, txt)
    requires forall i :: 0 <= i < |top| ==> top[i] in cands
    requires SortedBy(top, NegScore)
    ensures forall i :: 0 <= i < |top| ==> Haciendas(top)[i] in data && Matches(Haciendas(top)[i], blocked, txt)
    ensures forall i, j :: 0 <= i < j < |top| ==> ScoreOf(Haciendas(top)[i], txt) >= ScoreOf(Haciendas(top)[j], txt)
  {
    var r := Haciendas(top);
    forall i | 0 <= i < |r|
      ensures r[i] in data && Matches(r[i], blocked, txt) && ScoreOf(r[i], txt) == top[i].score
    {
      assert top[i] in cands;
    }
    forall i, j | 0 <= i < j < |top| ensures ScoreOf(r[i], txt) >= ScoreOf(r[j], txt) {
      assert NegScore(top[i]) <= NegScore(top[j]);
    }
  }

  /** The search box: the raw input is trimmed and lower-cased first. */
  function Buscar(data: seq<Feature>, blocked: seq<string>, raw: string,
                  minChars: nat, maxResults: nat): (r: seq<Feature>)
    ensures |r| <= maxResults
  {
    Ranked(data, blocked, Query(raw), minChars, maxResults)
  }

  /** When the candidates fit in `maxResults`, every feature the search
      keeps is listed. */
  lemma BuscarComplete(data: seq<Feature>, blocked: seq<string>, raw: string,
                       minChars: nat, maxResults: nat, h: Feature)
    requires |Query(raw)| >= minChars
    requires |Candidates(data, blocked, Query(raw))| <= maxResults
    requires h in data && Matches(h, blocked, Query(raw))
    ensures h in Buscar(data, blocked, raw, minChars, maxResults)
  {
    RankedComplete(data, blocked, Query(raw), minChars, maxResults, h);
  }

  /** `BuscarComplete` for an already normalised query. */
  lemma RankedComplete(data: seq<Feature>, blocked: seq<string>, txt: string,
                       minChars: nat, maxResults: nat, h: Feature)
    requires |txt| >= minChars
    requires |Candidates(data, blocked, txt)| <= maxResults
    requires h in data && Matches(h, blocked, txt)
    ensures h in Ranked(data, blocked, txt, minChars, maxResults)
  {
    var cands := Candidates(data, blocked, txt);
    CandidatesComplete(data, blocked, txt, h);
    var c :| c in cands && c.hacienda == h;
    AllFit(cands, maxResults, c);
  }

  /** When every candidate fits, each one's feature is listed. */
  lemma AllFit(cands: seq<Scored>, n: nat, c: Scored)
    requires |cands| <= n && c in cands
    ensures c.hacienda in Haciendas(Best(cands, NegScore, n))
  {
    var top := Best(cands, NegScore, n);
    assert c in multiset(top);
    var k :| 0 <= k < |top| && top[k] == c;
    assert Haciendas(top)[k] == c.hacienda;
  }

  // ---------------------------------------------------------------------
  // Proximity search

  datatype Near = Near(hacienda: Feature, nombre: string, distancia: real, centro: Point)

  function NearOf(h: Feature, p: Point, center: Feature -> Point, dist: Distance): Near {
    Near(h, GetNombre(Some(h)), dist(center(h), p) / 1000.0, center(h))
  }

  /** Every feature within `radioKm` kilometres of `p`, measured from the
      centre of its bounds. */
  function Within(data: seq<Feature>, p: Point, radioKm: real,
                  center: Feature -> Point, dist: Distance): (r: seq<Near>)
    ensures |r| <= |data|
    ensures forall n :: n in r ==>
      n.hacienda in data && n == NearOf(n.hacienda, p, center, dist) && n.distancia <= radioKm
  {
    if data == [] then []
    else
      var n := NearOf(data[0], p, center, dist);
      var rest := Within(data[1..], p, radioKm, center, dist);
      if n.distancia <= radioKm then [n] + rest else rest
  }

  lemma {:induction false} WithinComplete(data: seq<Feature>, p: Point, radioKm: real,
                                          center: Feature -> Point, dist: Distance, h: Feature)
    requires h in data && NearOf(h, p, center, dist).distancia <= radioKm
    ensures NearOf(h, p, center, dist) in Within(data, p, radioKm, center, dist)
  {
    if data[0] != h {
      WithinComplete(data[1..], p, radioKm, center, dist, h);
    }
  }

  function Distancia(n: Near): real {
    n.distancia
  }

  const ProximityLimit: nat := 5

  /** The at most five nearest features within the radius (`Best` by
      distance: nothing left out is nearer than anything listed), nearest
      first; nothing without data or without a point. */
  function BuscarPorProximidad(data: seq<Feature>, latlng: Option<Point>, radioKm: real,
                               center: Feature -> Point, dist: Distance): (r: seq<Near>)
    ensures (data == [] || latlng.None?) ==> r == []
    ensures latlng.Some? && data != [] ==>
      r == Best(Within(data, latlng.value, radioKm, center, dist), Distancia, ProximityLimit)
    ensures |r| <= ProximityLimit
    ensures latlng.Some? && data != [] ==>
      |r| == Min(ProximityLimit, |Within(data, latlng.value, radioKm, center, dist)|)
    ensures forall i :: 0 <= i < |r| ==>
      r[i].hacienda in data && r[i].distancia <= radioKm
      && r[i] == NearOf(r[i].hacienda, latlng.value, center, dist)
    ensures forall i, j :: 0 <= i < j < |r| ==> r[i].distancia <= r[j].distancia
  {
    if data == [] || latlng.None? then []
    else
      var within := Within(data, latlng.value, radioKm, center, dist);
      var r := Best(within, Distancia, ProximityLimit);
      assert forall i, j :: 0 <= i < j < |r| ==> Distancia(r[i]) <= Distancia(r[j]);
      r
  }

  /** The radius used when the caller gives none, in kilometres. */
  const DefaultRadioKm: real := 10.0

  /** The proximity search with the default radius of 10 km. */
  function BuscarPorProximidadDefault(data: seq<Feature>, latlng: Option<Point>,
                                      center: Feature -> Point, dist: Distance): (r: seq<Near>)
    ensures |r| <= ProximityLimit
    ensures forall i :: 0 <= i < |r| ==> r[i].distancia <= DefaultRadioKm
  {
    BuscarPorProximidad(data, latlng, DefaultRadioKm, center, dist)
  }

  /** Equal distances keep the data order: the listed features at
      distance `v` are the first of those in range at that distance. */
  lemma BuscarPorProximidadTies(data: seq<Feature>, p: Point, radioKm: real,
                                center: Feature -> Point, dist: Distance, v: real)
    requires data != []
    ensures var r := BuscarPorProximidad(data, Some(p), radioKm, center, dist);
      var w := Within(data, p, radioKm, center, dist);
      |WithKey(r, Distancia, v)| <= |WithKey(w, Distancia, v)|
      && WithKey(r, Distancia, v) == WithKey(w, Distancia, v)[..|WithKey(r, Distancia, v)|]
  {
    BestStable(Within(data, p, radioKm, center, dist), Distancia, ProximityLimit, v);
  }

  /** With at most five features in range, every one of them is listed. */
  lemma BuscarPorProximidadComplete(data: seq<Feature>, p: Point, radioKm: real,
                                    center: Feature -> Point, dist: Distance, h: Feature)
    requires |Within(data, p, radioKm, center, dist)| <= ProximityLimit
    requires h in data && NearOf(h, p, center, dist).distancia <= radioKm
    ensures NearOf(h, p, center, dist) in BuscarPorProximidad(data, Some(p), radioKm, center, dist)
  {
    var within := Within(data, p, radioKm, center, dist);
    WithinComplete(data, p, radioKm, center, dist, h);
    assert NearOf(h, p, center, dist) in multiset(Best(within, Distancia, ProximityLimit));
  }

  // ---------------------------------------------------------------------
  // The module's data

  /** The hacienda features the searches run over. */
  class SearchIndex {
    var haciendasData: seq<Feature>

    constructor()
      ensures haciendasData == []
    {
      haciendasData := [];
    }

    /** A missing collection is stored as the empty one. */
    method SetHaciendasData(data: Option<seq<Feature>>)
      modifies this
      ensures data.Some? ==> haciendasData == data.value
      ensures data.None? ==> haciendasData == []
    {
      haciendasData := if data.Some? then data.value else [];
    }
  }
}
