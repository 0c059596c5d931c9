/** The models page: the list the fetch leaves behind and the search and type filters
    over it. */
module Models {
  import opened Base
  import opened Text
  import Lists

  /** A model as `/models` lists it; `slug` and `type` may be missing. */
  datatype Model = Model(id: string, slug: Option<string>, kind: Option<string>, defaultVersion: string, updatedAt: string)

  /** The two models shown when the request fails; `now` is `new Date().toISOString()`. */
  function DemoModels(now: string): (ms: seq<Model>)
    ensures |ms| == 2 && forall i :: 0 <= i < 2 ==> ms[i].slug.Some? && ms[i].updatedAt == now
  {
    [ Model("1", Some("whisper-large-v3"), Some("ASR"), "v3.0", now),
      Model("2", Some("subtitle-align-bert"), Some("NLP"), "v1.2", now) ]
  }

  /** `fetchModels`: the body when it is an array (`Some`), an empty list otherwise, and
      the demo models when the request throws (`Err`). */
  function FetchModels(answer: Result<Option<seq<Model>>, string>, now: string): (ms: seq<Model>)
    ensures answer.Err? ==> ms == DemoModels(now)
    ensures answer.Ok? && answer.value.None? ==> ms == []
    ensures answer.Ok? && answer.value.Some? ==> ms == answer.value.value
  {
    match answer
    case Err(_) => DemoModels(now)
    case Ok(body) => body.GetOr([])
  }

  /** `model.slug?.toLowerCase().includes(searchTerm.toLowerCase())`. */
  predicate MatchesSearch(m: Model, term: string)
  {
    m.slug.Some? && Contains(Lower(m.slug.value), Lower(term))
  }

  /** `filterType === 'all' || model.type === filterType`: exact, case-sensitive. */
  predicate MatchesType(m: Model, kind: string)
  {
    kind == "all" || m.kind == Some(kind)
  }

  predicate Shown(m: Model, term: string, kind: string)
  {
    MatchesSearch(m, term) && MatchesType(m, kind)
  }

  /** `filteredModels`: the models that pass both filters, in their order. */
  function FilteredModels(ms: seq<Model>, term: string, kind: string): (r: seq<Model>)
    ensures forall m :: m in r <==> m in ms && MatchesSearch(m, term) && MatchesType(m, kind)
    ensures Lists.IsSubsequence(r, ms)
    ensures forall m :: m in r ==> m.slug.Some?
  {
    Lists.Filter(ms, m => Shown(m, term, kind))
  }

  /** 'No models found' is shown exactly when no model passes the filters. */
  predicate ShowsNoModels(ms: seq<Model>, term: string, kind: string)
  {
    |FilteredModels(ms, term, kind)| == 0
  }

  lemma NoModelsIff(ms: seq<Model>, term: string, kind: string)
    ensures ShowsNoModels(ms, term, kind) <==> forall i :: 0 <= i < |ms| ==> !Shown(ms[i], term, kind)
  {
    var r := FilteredModels(ms, term, kind);
    if r != [] {
      assert r[0] in r;
    }
    if exists i :: 0 <= i < |ms| && Shown(ms[i], term, kind) {
      var i :| 0 <= i < |ms| && Shown(ms[i], term, kind);
      assert ms[i] in r;
    }
  }

  predicate HasSlug(m: Model)
  {
    m.slug.Some?
  }

  /** With an empty search and every type, the page lists exactly the models that have a
      slug, in order. */
  lemma EmptySearchListsSlugged(ms: seq<Model>)
    ensures FilteredModels(ms, "", "all") == Lists.Filter(ms, HasSlug)
  {
    assert Lower("") == "";
    forall m: Model
      ensures Shown(m, "", "all") == HasSlug(m)
    {
      if m.slug.Some? {
        ContainsEmpty(Lower(m.slug.value));
      }
    }
    Lists.FilterSame(ms, m => Shown(m, "", "all"), HasSlug);
  }

  /** The search ignores the case of the term. */
  lemma SearchIgnoresCase(ms: seq<Model>, term: string, kind: string)
    ensures FilteredModels(ms, Lower(term), kind) == FilteredModels(ms, term, kind)
  {
    LowerIdempotent(term);
    Lists.FilterSame(ms, m => Shown(m, Lower(term), kind), m => Shown(m, term, kind));
  }
}
