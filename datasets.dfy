/** The datasets page: the list the fetch leaves behind and the search and language
    filters over it. */
module Datasets {
  import opened Base
  import opened Text
  import Lists

  /** A dataset as `/datasets` lists it; `slug` and `languages` may be missing. */
  datatype Dataset = Dataset(id: string, slug: Option<string>, kind: string, languages: Option<seq<string>>)

  /** The two datasets shown when the request fails. */
  const DemoDatasets: seq<Dataset> := [
    Dataset("1", Some("indic-subtitle-corpus"), "subtitle", Some(["hi", "ta", "te"])),
    Dataset("2", Some("speech-alignment-dataset"), "speech", Some(["hi", "en"]))
  ]

  /** `fetchDatasets`: the body when it is an array (`Some`), an empty list otherwise,
      and the demo datasets when the request throws (`Err`). */
  function FetchDatasets(answer: Result<Option<seq<Dataset>>, string>): (ds: seq<Dataset>)
    ensures answer.Err? ==> ds == DemoDatasets
    ensures answer.Ok? && answer.value.None? ==> ds == []
    ensures answer.Ok? && answer.value.Some? ==> ds == answer.value.value
  {
    match answer
    case Err(_) => DemoDatasets
    case Ok(body) => body.GetOr([])
  }

  /** `dataset.slug?.toLowerCase().includes(searchTerm.toLowerCase())`: a missing slug
      never matches. */
  predicate MatchesSearch(d: Dataset, term: string)
  {
    d.slug.Some? && Contains(Lower(d.slug.value), Lower(term))
  }

  /** `filterLanguage === 'all' || dataset.languages?.includes(filterLanguage)`. */
  predicate MatchesLanguage(d: Dataset, language: string)
  {
    language == "all" || (d.languages.Some? && language in d.languages.value)
  }

  predicate Shown(d: Dataset, term: string, language: string)
  {
    MatchesSearch(d, term) && MatchesLanguage(d, language)
  }

  /** `filteredDatasets`: the datasets that pass both filters, in their order. */
  function FilteredDatasets(ds: seq<Dataset>, term: string, language: string): (r: seq<Dataset>)
    ensures forall d :: d in r <==> d in ds && MatchesSearch(d, term) && MatchesLanguage(d, language)
    ensures Lists.IsSubsequence(r, ds)
    ensures forall d :: d in r ==> d.slug.Some?
  {
    Lists.Filter(ds, d => Shown(d, term, language))
  }

  /** 'No datasets found' is shown exactly when no dataset passes the filters. */
  predicate ShowsNoDatasets(ds: seq<Dataset>, term: string, language: string)
  {
    |FilteredDatasets(ds, term, language)| == 0
  }

  lemma NoDatasetsIff(ds: seq<Dataset>, term: string, language: string)
    ensures ShowsNoDatasets(ds, term, language) <==> forall i :: 0 <= i < |ds| ==> !Shown(ds[i], term, language)
  {
    var r := FilteredDatasets(ds, term, language);
    if r != [] {
      assert r[0] in r;
    }
    if exists i :: 0 <= i < |ds| && Shown(ds[i], term, language) {
      var i :| 0 <= i < |ds| && Shown(ds[i], term, language);
      assert ds[i] in r;
    }
  }

  predicate HasSlug(d: Dataset)
  {
    d.slug.Some?
  }

  /** With an empty search and every language, the page lists exactly the datasets that
      have a slug, in order; a dataset without one is never listed. */
  lemma EmptySearchListsSlugged(ds: seq<Dataset>)
    ensures FilteredDatasets(ds, "", "all") == Lists.Filter(ds, HasSlug)
  {
    assert Lower("") == "";
    forall d: Dataset
      ensures Shown(d, "", "all") == HasSlug(d)
    {
      if d.slug.Some? {
        ContainsEmpty(Lower(d.slug.value));
      }
    }
    Lists.FilterSame(ds, d => Shown(d, "", "all"), HasSlug);
  }

  /** The search ignores the case of the term. */
  lemma SearchIgnoresCase(ds: seq<Dataset>, term: string, language: string)
    ensures FilteredDatasets(ds, Lower(term), language) == FilteredDatasets(ds, term, language)
  {
    LowerIdempotent(term);
    Lists.FilterSame(ds, d => Shown(d, Lower(term), language), d => Shown(d, term, language));
  }
}
