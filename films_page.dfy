/**
 * The films page's filtering and lookup helpers. The page holds the catalogue lists it fetched;
 * a list that has not arrived yet is `None`.
 */
module FilmsPage {
  import opened Wrappers
  import opened Seqs
  import opened Strings
  import opened Schema

  datatype FilmCategory = BlackAndWhite | ColorFilm | SlideFilm {
    /** The film `type` text this category selects. */
    function Label(): string {
      match this
      case BlackAndWhite => "B&W"
      case ColorFilm => "Color"
      case SlideFilm => "Slide"
    }
  }

  /** The search: the lower-cased query occurs in a lower-cased name, maker or brand, or in the ISO numeral. */
  function MatchesSearch(film: Film, query: string): (r: bool)
    ensures r <==> SearchHit(film, ToLower(query))
  {
    var terms := ToLower(query);
    IncludesIff(ToLower(film.fields.nameEn), terms);
    IncludesIff(ToLower(film.fields.nameZh), terms);
    IncludesIff(ToLower(film.fields.manufacturer), terms);
    IncludesIff(ToLower(film.fields.brand), terms);
    IncludesIff(IntToString(film.fields.iso), terms);
    || Includes(ToLower(film.fields.nameEn), terms)
    || Includes(ToLower(film.fields.nameZh), terms)
    || Includes(ToLower(film.fields.manufacturer), terms)
    || Includes(ToLower(film.fields.brand), terms)
    || Includes(IntToString(film.fields.iso), terms)
  }

  /** The predicate handed to `films.filter`. */
  function KeepFilm(category: FilmCategory, query: string, film: Film): (r: bool)
    ensures r ==> film.fields.filmType == category.Label()
    ensures query == "" ==> (r <==> film.fields.filmType == category.Label())
    ensures query != "" ==> (r <==> film.fields.filmType == category.Label() && SearchHit(film, ToLower(query)))
  {
    if category.Label() != film.fields.filmType then false
    else if query == "" then true
    else MatchesSearch(film, query)
  }

  /** `films?.filter(...)`: no list while the films are loading. */
  function FilteredFilms(films: Option<seq<Film>>, category: FilmCategory, query: string): (r: Option<seq<Film>>)
    ensures r.Some? <==> films.Some?
    ensures r.Some? ==> forall i :: 0 <= i < |r.value| ==>
      r.value[i] in films.value && r.value[i].fields.filmType == category.Label()
  {
    match films
    case None => None
    case Some(fs) => Some(Filter((f: Film) => KeepFilm(category, query, f), fs))
  }

  /** Independent statement of the search: `t` occurs in one of the searched texts. */
  ghost predicate SearchHit(film: Film, t: string) {
    || (exists i :: OccursAt(ToLower(film.fields.nameEn), t, i))
    || (exists i :: OccursAt(ToLower(film.fields.nameZh), t, i))
    || (exists i :: OccursAt(ToLower(film.fields.manufacturer), t, i))
    || (exists i :: OccursAt(ToLower(film.fields.brand), t, i))
    || (exists i :: OccursAt(IntToString(film.fields.iso), t, i))
  }

  /** With an empty query the page shows exactly the films of the category, in list order. */
  lemma EmptyQueryShowsCategory(films: seq<Film>, category: FilmCategory)
    ensures FilteredFilms(Some(films), category, "") ==
      Some(Filter((f: Film) => f.fields.filmType == category.Label(), films))
  {
    FilterSameCondition((f: Film) => KeepFilm(category, "", f), (f: Film) => f.fields.filmType == category.Label(), films);
  }

  /** With a non-empty query a film is shown iff it is of the category and the query hits one of its texts. */
  lemma NonEmptyQueryIff(films: seq<Film>, category: FilmCategory, query: string, film: Film)
    requires query != ""
    ensures film in FilteredFilms(Some(films), category, query).value <==>
      film in films && film.fields.filmType == category.Label() && SearchHit(film, ToLower(query))
  {
    var keep := (f: Film) => KeepFilm(category, query, f);
    var r := Filter(keep, films);
    if film in films && keep(film) {
      var j :| 0 <= j < |films| && films[j] == film;
      assert film in r;
    }
    if film in r {
      var j :| 0 <= j < |r| && r[j] == film;
    }
  }

  /** The shown films keep the list's order, and searching only ever narrows the category's films. */
  lemma FilteredFilmsSubsequence(films: seq<Film>, category: FilmCategory, query: string)
    ensures IsSubsequence(FilteredFilms(Some(films), category, query).value, films)
    ensures IsSubsequence(FilteredFilms(Some(films), category, query).value,
                          FilteredFilms(Some(films), category, "").value)
  {
    FilterStrongerIsSubsequence((f: Film) => KeepFilm(category, query, f), (f: Film) => KeepFilm(category, "", f), films);
  }

  /** `processes?.filter(p => p.filmId === filmId) || []`. */
  function GetFilmProcesses(processes: Option<seq<DevelopmentProcess>>, filmId: int): (r: seq<DevelopmentProcess>)
    ensures processes.None? ==> r == []
    ensures processes.Some? ==>
      && (forall i :: 0 <= i < |r| ==> r[i] in processes.value && r[i].fields.filmId == filmId)
      && (forall i :: 0 <= i < |processes.value| && processes.value[i].fields.filmId == filmId ==> processes.value[i] in r)
      && IsSubsequence(r, processes.value)
      && forall p :: multiset(r)[p] == if p.fields.filmId == filmId then multiset(processes.value)[p] else 0
  {
    match processes
    case None => []
    case Some(ps) =>
      var forFilm := (p: DevelopmentProcess) => p.fields.filmId == filmId;
      FilterMultiplicity(forFilm, ps);
      Filter(forFilm, ps)
  }

  /** The label of a chemical: its English name with the Chinese name in parentheses. */
  function ChemicalLabel(c: Chemical): (r: string)
    ensures |r| == |c.fields.nameEn| + |c.fields.nameZh| + 3
    ensures r[..|c.fields.nameEn|] == c.fields.nameEn
    ensures r[|c.fields.nameEn|..|c.fields.nameEn| + 2] == " ("
    ensures r[|c.fields.nameEn| + 2..|r| - 1] == c.fields.nameZh
    ensures r[|r| - 1] == ')'
  {
    c.fields.nameEn + " (" + c.fields.nameZh + ")"
  }

  /** `getChemicalName`: the label of the first loaded chemical with this id, or the empty string. */
  function GetChemicalName(chemicals: Option<seq<Chemical>>, chemicalId: int): (r: string)
    ensures r == "" <==> chemicals.None? || forall i :: 0 <= i < |chemicals.value| ==> chemicals.value[i].id != chemicalId
    ensures chemicals.Some? && r != "" ==>
      exists i :: 0 <= i < |chemicals.value| && chemicals.value[i].id == chemicalId
        && r == ChemicalLabel(chemicals.value[i])
        && forall j :: 0 <= j < i ==> chemicals.value[j].id != chemicalId
  {
    match chemicals
    case None => ""
    case Some(cs) =>
      match Find((c: Chemical) => c.id == chemicalId, cs)
      case Some(c) =>
        ChemicalLabel(c)
      case None => ""
  }

  datatype Region = Global | China

  /** The purchase-link table of the global store: film name to URL. */
  const GlobalLinks: map<string, string> := map[
    "Delta 100" := "https://www.ilfordphoto.com/delta-100-professional-35mm",
    "Delta 400" := "https://www.ilfordphoto.com/delta-400-professional-35mm",
    "HP5+" := "https://www.ilfordphoto.com/hp5-plus-35mm",
    "FP4+" := "https://www.ilfordphoto.com/fp4-plus-35mm",
    "Tri-X 400" := "https://imaging.kodak.com/global/en/professional/products/films/tri-x-400/",
    "T-Max 100" := "https://imaging.kodak.com/global/en/professional/products/films/t-max-100/"]

  /** The purchase-link table of the China store. */
  const ChinaLinks: map<string, string> := map[
    "Delta 100" := "https://item.taobao.com/item.htm?id=xxx",
    "Delta 400" := "https://item.taobao.com/item.htm?id=xxx",
    "HP5+" := "https://item.taobao.com/item.htm?id=xxx",
    "FP4+" := "https://item.taobao.com/item.htm?id=xxx"]

  /** `links[region]`: the table of a region. Every stored link is a URL, longer than the `#` fallback. */
  function Links(region: Region): (r: map<string, string>)
    ensures forall name :: name in r ==> |r[name]| > 1
  {
    match region
    case Global =>
      assert GlobalLinks.Keys == {"Delta 100", "Delta 400", "HP5+", "FP4+", "Tri-X 400", "T-Max 100"};
      GlobalLinks
    case China =>
      assert ChinaLinks.Keys == {"Delta 100", "Delta 400", "HP5+", "FP4+"};
      ChinaLinks
  }

  /** `links[region]?.[filmName] || '#'`: an empty link falls back as well. */
  function GetPurchaseLink(filmName: string, region: Region): (r: string)
    ensures r == "#" <==> filmName !in Links(region)
    ensures filmName in Links(region) ==> r == Links(region)[filmName]
  {
    var links := Links(region);
    if filmName in links && links[filmName] != "" then links[filmName] else "#"
  }

  /** Tri-X 400 has a global link but none in China, and the China table names only films the global one has. */
  lemma PurchaseLinkTable()
    ensures GetPurchaseLink("Tri-X 400", China) == "#"
    ensures GetPurchaseLink("Tri-X 400", Global) != "#"
    ensures forall name :: name in Links(China) ==> name in Links(Global)
  {
    assert ChinaLinks.Keys == {"Delta 100", "Delta 400", "HP5+", "FP4+"};
  }
}
