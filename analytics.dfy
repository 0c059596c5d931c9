/** The aggregations the dataset and model performance APIs share: the reporting window
    of a period, the per-language group-by (a `Map` filled by a `forEach` loop, then
    sorted by volume and cut to eight), the date pivot of trend rows (one `Map` entry per
    date label, one column per known dataset or model) and the relative-time wording.
    The dates are inputs: a row carries the label `toLocaleDateString` gave it and the
    relative time is computed from the elapsed milliseconds. */
module Analytics {
  import opened Base
  import opened Text
  import Lists

  /** `period === '24h' ? 1 : period === '7d' ? 7 : period === '30d' ? 30 : 90`. */
  function PeriodDays(period: string): (days: nat)
    ensures days == 1 <==> period == "24h"
    ensures days == 7 <==> period == "7d"
    ensures days == 30 <==> period == "30d"
    ensures days == 90 <==> period !in {"24h", "7d", "30d"}
  {
    if period == "24h" then 1 else if period == "7d" then 7 else if period == "30d" then 30 else 90
  }

  // ---------------------------------------------------------------------------------
  // Per-language group-by

  /** One row of a per-language table: its language, a volume (samples or requests) and
      a score (quality or accuracy). */
  datatype LanguageRow = LanguageRow(language: string, amount: int, score: real)

  /** The accumulator kept per language: summed volume, summed score, number of rows. */
  datatype Tally = Tally(amount: int, scoreSum: real, count: nat)

  /** A line of the result: the language, its summed volume and its mean score. */
  datatype LanguageSummary = LanguageSummary(language: string, amount: int, meanScore: real)

  /** The languages of `rows` in order of first appearance (the `Map`'s key order). */
  function Languages(rows: seq<LanguageRow>): seq<string>
  {
    if rows == [] then []
    else
      var ks := Languages(rows[..|rows| - 1]);
      if rows[|rows| - 1].language in ks then ks else ks + [rows[|rows| - 1].language]
  }

  /** Sum of the volumes of the rows in language `lang`. */
  function AmountFor(rows: seq<LanguageRow>, lang: string): int
  {
    if rows == [] then 0
    else AmountFor(rows[..|rows| - 1], lang) + (if rows[|rows| - 1].language == lang then rows[|rows| - 1].amount else 0)
  }

  /** Sum of the scores of the rows in language `lang`. */
  function ScoreSumFor(rows: seq<LanguageRow>, lang: string): real
  {
    if rows == [] then 0.0
    else ScoreSumFor(rows[..|rows| - 1], lang) + (if rows[|rows| - 1].language == lang then rows[|rows| - 1].score else 0.0)
  }

  /** Number of rows in language `lang`. */
  function RowsFor(rows: seq<LanguageRow>, lang: string): nat
  {
    if rows == [] then 0
    else RowsFor(rows[..|rows| - 1], lang) + (if rows[|rows| - 1].language == lang then 1 else 0)
  }

  /** What the group-by should hold for `lang` once every row is seen. */
  function TallyFor(rows: seq<LanguageRow>, lang: string): Tally
  {
    Tally(AmountFor(rows, lang), ScoreSumFor(rows, lang), RowsFor(rows, lang))
  }

  /** Every language is listed once, and exactly the languages some row has are listed. */
  lemma {:induction false} LanguagesExact(rows: seq<LanguageRow>)
    ensures forall i, j :: 0 <= i < j < |Languages(rows)| ==> Languages(rows)[i] != Languages(rows)[j]
    ensures forall l :: l in Languages(rows) <==> exists i :: 0 <= i < |rows| && rows[i].language == l
  {
    if rows != [] {
      var init := rows[..|rows| - 1];
      LanguagesExact(init);
      forall l | l in Languages(rows)
        ensures exists i :: 0 <= i < |rows| && rows[i].language == l
      {
        if l in Languages(init) {
          var i :| 0 <= i < |init| && init[i].language == l;
          assert rows[i] == init[i];
        } else {
          assert rows[|rows| - 1].language == l;
        }
      }
      forall l | exists i :: 0 <= i < |rows| && rows[i].language == l
        ensures l in Languages(rows)
      {
        var i :| 0 <= i < |rows| && rows[i].language == l;
        if i < |rows| - 1 {
          assert init[i] == rows[i];
        }
      }
    }
  }

  /** A language no row has is not in the tally. */
  lemma {:induction false} TallyAbsent(rows: seq<LanguageRow>, lang: string)
    requires lang !in Languages(rows)
    ensures TallyFor(rows, lang) == Tally(0, 0.0, 0)
  {
    if rows != [] {
      var init := rows[..|rows| - 1];
      assert lang !in Languages(init);
      TallyAbsent(init, lang);
    }
  }

  /** A listed language has at least one row, so its mean is defined. */
  lemma {:induction false} TallyPresent(rows: seq<LanguageRow>, lang: string)
    requires lang in Languages(rows)
    ensures RowsFor(rows, lang) > 0
  {
    var init := rows[..|rows| - 1];
    if lang in Languages(init) {
      TallyPresent(init, lang);
    }
  }

  /** The `forEach` over the rows: the first row of a language creates its entry (volume,
      score, count 1), every later one adds to it. The map's keys, in insertion order,
      are `order`. */
  method TallyLanguages(rows: seq<LanguageRow>) returns (order: seq<string>, tallies: map<string, Tally>)
    ensures order == Languages(rows)
    ensures forall l :: l in tallies <==> l in order
    ensures forall l :: l in tallies ==> tallies[l] == TallyFor(rows, l) && tallies[l].count > 0
  {
    order := [];
    tallies := map[];
    var i := 0;
    while i < |rows|
      invariant 0 <= i <= |rows|
      invariant order == Languages(rows[..i])
      invariant forall l :: l in tallies <==> l in order
      invariant forall l :: l in tallies ==> tallies[l] == TallyFor(rows[..i], l)
    {
      var item := rows[i];
      assert rows[..i + 1][..i] == rows[..i];
      if item.language in tallies {
        var existing := tallies[item.language];
        tallies := tallies[item.language := Tally(existing.amount + item.amount, existing.scoreSum + item.score, existing.count + 1)];
      } else {
        TallyAbsent(rows[..i], item.language);
        tallies := tallies[item.language := Tally(item.amount, item.score, 1)];
        order := order + [item.language];
      }
      i := i + 1;
    }
    assert rows[..|rows|] == rows;
    forall l | l in tallies
      ensures tallies[l].count > 0
    {
      TallyPresent(rows, l);
    }
  }

  /** The mean score of a tally with at least one row. */
  function Mean(t: Tally): (m: real)
    requires t.count > 0
    ensures m * t.count as real == t.scoreSum
  {
    t.scoreSum / t.count as real
  }

  /** The summary line of one language. */
  function SummaryFor(rows: seq<LanguageRow>, lang: string): LanguageSummary
  {
    var t := TallyFor(rows, lang);
    LanguageSummary(lang, t.amount, if t.count > 0 then Mean(t) else 0.0)
  }

  /** `Array.from(languageMap.entries()).map(...)`, specified from the rows: one summary
      per language of `langs`, in that order. */
  function SummariesOf(rows: seq<LanguageRow>, langs: seq<string>): (r: seq<LanguageSummary>)
    ensures |r| == |langs|
    ensures forall k :: 0 <= k < |r| ==> r[k] == SummaryFor(rows, langs[k])
  {
    if langs == [] then [] else [SummaryFor(rows, langs[0])] + SummariesOf(rows, langs[1..])
  }

  /** The same `.map`, read from the accumulated map. */
  function SummariesFrom(order: seq<string>, tallies: map<string, Tally>): (r: seq<LanguageSummary>)
    requires forall l :: l in order ==> l in tallies && tallies[l].count > 0
    ensures |r| == |order|
    ensures forall k :: 0 <= k < |r| ==> r[k] == LanguageSummary(order[k], tallies[order[k]].amount, Mean(tallies[order[k]]))
  {
    if order == [] then []
    else [LanguageSummary(order[0], tallies[order[0]].amount, Mean(tallies[order[0]]))] + SummariesFrom(order[1..], tallies)
  }

  /** Volumes never increase along the list. */
  predicate SortedByAmount(s: seq<LanguageSummary>)
  {
    forall i, j :: 0 <= i < j < |s| ==> s[i].amount >= s[j].amount
  }

  /** No language appears twice. */
  predicate DistinctLanguages(s: seq<LanguageSummary>)
  {
    forall i, j :: 0 <= i < j < |s| ==> s[i].language != s[j].language
  }

  /** Inserts `x` before the first line whose volume is not larger, so that lines of
      equal volume keep their order (the `sort` is stable). */
  function InsertByAmount(x: LanguageSummary, s: seq<LanguageSummary>): (r: seq<LanguageSummary>)
    ensures multiset(r) == multiset(s) + multiset{x}
    ensures |r| == |s| + 1
  {
    if s == [] then [x]
    else if s[0].amount <= x.amount then [x] + s
    else
      assert s == [s[0]] + s[1..];
      [s[0]] + InsertByAmount(x, s[1..])
  }

  /** Inserting into a list sorted by volume keeps it sorted. */
  lemma {:induction false} InsertSorted(x: LanguageSummary, s: seq<LanguageSummary>)
    requires SortedByAmount(s)
    ensures SortedByAmount(InsertByAmount(x, s))
  {
    if s != [] && s[0].amount > x.amount {
      var rest := InsertByAmount(x, s[1..]);
      InsertSorted(x, s[1..]);
      forall k | 0 <= k < |rest|
        ensures rest[k].amount <= s[0].amount
      {
        assert rest[k] in multiset(rest);
        if rest[k] != x {
          assert rest[k] in multiset(s[1..]);
          var m :| 0 <= m < |s[1..]| && s[1..][m] == rest[k];
          assert s[m + 1] == rest[k];
        }
      }
      assert InsertByAmount(x, s) == [s[0]] + rest;
    }
  }

  /** `.sort((a, b) => b.amount - a.amount)`: a sort by volume, largest first. Like
      `Array.prototype.sort` it is stable: `InsertByAmount` puts each line before the
      lines of equal volume inserted before it, and lines are inserted from last to
      first, so among equal volumes the language seen first comes first, and that is
      the one the cut at eight keeps. */
  function SortByAmount(s: seq<LanguageSummary>): (r: seq<LanguageSummary>)
    ensures multiset(r) == multiset(s)
    ensures |r| == |s|
    ensures SortedByAmount(r)
  {
    if s == [] then [] else
      assert s == [s[0]] + s[1..];
      InsertSorted(s[0], SortByAmount(s[1..]));
      InsertByAmount(s[0], SortByAmount(s[1..]))
  }

  /** The result of the group-by: the summaries sorted by volume, the first eight. */
  function TopLanguages(rows: seq<LanguageRow>): seq<LanguageSummary>
  {
    Lists.Take(SortByAmount(SummariesOf(rows, Languages(rows))), 8)
  }

  /** The whole aggregation: the loop, then `.map`, `.sort` and `.slice(0, 8)`. */
  method AggregateLanguages(rows: seq<LanguageRow>) returns (r: seq<LanguageSummary>)
    ensures r == TopLanguages(rows)
  {
    var order, tallies := TallyLanguages(rows);
    var summaries := SummariesFrom(order, tallies);
    assert summaries == SummariesOf(rows, Languages(rows));
    r := Lists.Take(SortByAmount(summaries), 8);
  }

  /** A summary line that occurs in a list of distinct-language summaries occurs once. */
  lemma {:induction false} DistinctOnce(s: seq<LanguageSummary>, x: LanguageSummary)
    requires DistinctLanguages(s)
    ensures multiset(s)[x] <= 1
  {
    if s != [] {
      assert s == [s[0]] + s[1..];
      DistinctOnce(s[1..], x);
      if s[0] == x {
        assert x !in s[1..];
      }
    }
  }

  /** A line that occurs twice in a list is counted twice by its multiset. */
  lemma Twice(s: seq<LanguageSummary>, i: int, j: int)
    requires 0 <= i < j < |s| && s[i] == s[j]
    ensures multiset(s)[s[i]] >= 2
  {
    assert s == s[..i] + [s[i]] + s[i + 1..j] + [s[j]] + s[j + 1..];
  }

  /** Sorting a list whose lines are determined by their language keeps the languages distinct. */
  lemma SortKeepsDistinct(s: seq<LanguageSummary>)
    requires DistinctLanguages(s)
    ensures DistinctLanguages(SortByAmount(s))
  {
    var sorted := SortByAmount(s);
    forall i, j | 0 <= i < j < |sorted|
      ensures sorted[i].language != sorted[j].language
    {
      if sorted[i].language == sorted[j].language {
        assert sorted[i] in multiset(s) && sorted[j] in multiset(s);
        var p :| 0 <= p < |s| && s[p] == sorted[i];
        var q :| 0 <= q < |s| && s[q] == sorted[j];
        assert p == q;
        Twice(sorted, i, j);
        DistinctOnce(s, sorted[i]);
        assert false;
      }
    }
  }

  /** The summaries list each language of the rows once. */
  lemma SummariesDistinct(rows: seq<LanguageRow>)
    ensures DistinctLanguages(SummariesOf(rows, Languages(rows)))
  {
    LanguagesExact(rows);
  }

  /** `line` is the summary of a language some row has: its volume is the sum over that
      language's rows, and its mean times the row count is their summed score. */
  predicate Describes(rows: seq<LanguageRow>, line: LanguageSummary)
  {
    && (exists i :: 0 <= i < |rows| && rows[i].language == line.language)
    && line.amount == AmountFor(rows, line.language)
    && line.meanScore * RowsFor(rows, line.language) as real == ScoreSumFor(rows, line.language)
  }

  /** The summary of a language of the rows describes it. */
  lemma SummaryDescribes(rows: seq<LanguageRow>, lang: string)
    requires lang in Languages(rows)
    ensures Describes(rows, SummaryFor(rows, lang))
  {
    LanguagesExact(rows);
    TallyPresent(rows, lang);
  }

  /** Every line of the sorted summaries describes its language. */
  lemma SortedLine(rows: seq<LanguageRow>, k: int)
    requires 0 <= k < |SortByAmount(SummariesOf(rows, Languages(rows)))|
    ensures Describes(rows, SortByAmount(SummariesOf(rows, Languages(rows)))[k])
  {
    var langs := Languages(rows);
    var summaries := SummariesOf(rows, langs);
    var line := SortByAmount(summaries)[k];
    assert line in multiset(SortByAmount(summaries));
    var p :| 0 <= p < |summaries| && summaries[p] == line;
    assert langs[p] in langs;
    SummaryDescribes(rows, langs[p]);
  }

  /** The result of the group-by: at most eight lines, largest volume first, each
      language once, each line describing a language of the rows. */
  lemma TopLanguagesSpec(rows: seq<LanguageRow>)
    ensures |TopLanguages(rows)| <= 8
    ensures SortedByAmount(TopLanguages(rows))
    ensures DistinctLanguages(TopLanguages(rows))
    ensures forall k :: 0 <= k < |TopLanguages(rows)| ==> Describes(rows, TopLanguages(rows)[k])
  {
    var sorted := SortByAmount(SummariesOf(rows, Languages(rows)));
    var r := TopLanguages(rows);
    assert r == sorted[..|r|];
    SummariesDistinct(rows);
    SortKeepsDistinct(SummariesOf(rows, Languages(rows)));
    forall k | 0 <= k < |r|
      ensures Describes(rows, r[k])
    {
      assert r[k] == sorted[k];
      SortedLine(rows, k);
    }
  }

  /** The summary line of a language of the rows has a place in the sorted summaries. */
  lemma PlaceInSorted(rows: seq<LanguageRow>, lang: string) returns (q: int)
    requires lang in Languages(rows)
    ensures 0 <= q < |SortByAmount(SummariesOf(rows, Languages(rows)))|
    ensures SortByAmount(SummariesOf(rows, Languages(rows)))[q] == SummaryFor(rows, lang)
  {
    var langs := Languages(rows);
    var summaries := SummariesOf(rows, langs);
    var sorted := SortByAmount(summaries);
    var p :| 0 <= p < |langs| && langs[p] == lang;
    assert summaries[p] in multiset(summaries);
    assert summaries[p] in multiset(sorted);
    q :| 0 <= q < |sorted| && sorted[q] == summaries[p];
  }

  /** The cut keeps the largest: every language of the rows is either listed, or has a
      volume no larger than any listed line; with at most eight languages all are listed. */
  lemma TopLanguagesKeepsLargest(rows: seq<LanguageRow>, lang: string)
    requires exists i :: 0 <= i < |rows| && rows[i].language == lang
    ensures (exists k :: 0 <= k < |TopLanguages(rows)| && TopLanguages(rows)[k].language == lang)
      || forall k :: 0 <= k < |TopLanguages(rows)| ==> TopLanguages(rows)[k].amount >= AmountFor(rows, lang)
    ensures |Languages(rows)| <= 8 ==> exists k :: 0 <= k < |TopLanguages(rows)| && TopLanguages(rows)[k].language == lang
  {
    LanguagesExact(rows);
    var sorted := SortByAmount(SummariesOf(rows, Languages(rows)));
    var r := TopLanguages(rows);
    assert r == sorted[..|r|];
    var q := PlaceInSorted(rows, lang);
    if q < |r| {
      assert r[q].language == lang;
    } else {
      assert |r| == 8;
      forall k | 0 <= k < |r|
        ensures r[k].amount >= AmountFor(rows, lang)
      {
        assert r[k] == sorted[k];
      }
    }
  }

  // ---------------------------------------------------------------------------------
  // Date pivot of trend rows

  /** A dataset or model as the trend queries list it. */
  datatype Entity = Entity(id: string, name: string)

  /** One trend row: whose it is, the date label of its timestamp, and the plotted value. */
  datatype Point<V> = Point(id: string, dateLabel: string, value: V)

  /** A cell of a pivoted entry: the `date` label, or an entity's value. */
  datatype Cell<V> = DateLabel(day: string) | Reading(value: V)

  /** `datasets.find(d => d.id === id)?.name`: the name of the first entity with that id. */
  function FindName(known: seq<Entity>, id: string): (r: Option<string>)
    ensures r.None? <==> forall k :: 0 <= k < |known| ==> known[k].id != id
    ensures r.Some? ==> exists k :: 0 <= k < |known| && known[k].id == id && known[k].name == r.value
  {
    if known == [] then None
    else if known[0].id == id then Some(known[0].name)
    else FindName(known[1..], id)
  }

  /** The name found is the one of the first entity with the id, as `find` returns it. */
  lemma {:induction false} FindNameFirst(known: seq<Entity>, id: string, k: nat)
    requires k < |known| && known[k].id == id
    requires forall j :: 0 <= j < k ==> known[j].id != id
    ensures FindName(known, id) == Some(known[k].name)
  {
    if k > 0 {
      assert known[0].id != id;
      FindNameFirst(known[1..], id, k - 1);
    }
  }

  /** The point is for a known entity and carries the date label `d`. */
  predicate OnDate<V>(known: seq<Entity>, p: Point<V>, d: string)
  {
    FindName(known, p.id).Some? && p.dateLabel == d
  }

  /** The date labels of the points of known entities, in order of first appearance. */
  function Dates<V>(known: seq<Entity>, points: seq<Point<V>>): seq<string>
  {
    if points == [] then []
    else
      var ds := Dates(known, points[..|points| - 1]);
      var p := points[|points| - 1];
      if FindName(known, p.id).None? || p.dateLabel in ds then ds else ds + [p.dateLabel]
  }

  /** The entry for date `d` after the points: `{date: d}`, then each point of a known
      entity on that date writing its value under the entity's name, in order. */
  function EntryFor<V>(known: seq<Entity>, points: seq<Point<V>>, d: string): map<string, Cell<V>>
  {
    if points == [] then map["date" := DateLabel(d)]
    else
      var e := EntryFor(known, points[..|points| - 1], d);
      var p := points[|points| - 1];
      if OnDate(known, p, d) then e[FindName(known, p.id).value := Reading(p.value)] else e
  }

  /** The `forEach` over the points followed by `Array.from(dateMap.values())`. */
  method Pivot<V>(known: seq<Entity>, points: seq<Point<V>>) returns (entries: seq<map<string, Cell<V>>>)
    ensures |entries| == |Dates(known, points)|
    ensures forall j :: 0 <= j < |entries| ==> entries[j] == EntryFor(known, points, Dates(known, points)[j])
  {
    var dates: seq<string> := [];
    var dateMap: map<string, map<string, Cell<V>>> := map[];
    var i := 0;
    while i < |points|
      invariant 0 <= i <= |points|
      invariant dates == Dates(known, points[..i])
      invariant forall d :: d in dateMap <==> d in dates
      invariant forall d :: d in dateMap ==> dateMap[d] == EntryFor(known, points[..i], d)
    {
      var p := points[i];
      assert points[..i + 1][..i] == points[..i];
      var found := FindName(known, p.id);
      if found.Some? {
        if p.dateLabel !in dateMap {
          EntryUntouched(known, points[..i], p.dateLabel);
          dateMap := dateMap[p.dateLabel := map["date" := DateLabel(p.dateLabel)]];
          dates := dates + [p.dateLabel];
        }
        dateMap := dateMap[p.dateLabel := dateMap[p.dateLabel][found.value := Reading(p.value)]];
      }
      i := i + 1;
    }
    assert points[..|points|] == points;
    entries := [];
    var j := 0;
    while j < |dates|
      invariant 0 <= j <= |dates|
      invariant |entries| == j
      invariant forall k :: 0 <= k < j ==> entries[k] == dateMap[dates[k]]
    {
      entries := entries + [dateMap[dates[j]]];
      j := j + 1;
    }
  }

  /** Before the first point of a known entity on date `d`, its entry is just `{date: d}`. */
  lemma {:induction false} EntryUntouched<V>(known: seq<Entity>, points: seq<Point<V>>, d: string)
    requires d !in Dates(known, points)
    ensures EntryFor(known, points, d) == map["date" := DateLabel(d)]
  {
    if points != [] {
      var init := points[..|points| - 1];
      assert d !in Dates(known, init);
      EntryUntouched(known, init, d);
    }
  }

  /** One entry per date: the labels are distinct, and a label is listed exactly when
      some point of a known entity carries it (points of unknown entities are dropped). */
  lemma {:induction false} DatesExact<V>(known: seq<Entity>, points: seq<Point<V>>)
    ensures forall i, j :: 0 <= i < j < |Dates(known, points)| ==> Dates(known, points)[i] != Dates(known, points)[j]
    ensures forall d :: d in Dates(known, points) <==> exists i :: 0 <= i < |points| && OnDate(known, points[i], d)
  {
    if points != [] {
      var init := points[..|points| - 1];
      DatesExact(known, init);
      forall d | d in Dates(known, points)
        ensures exists i :: 0 <= i < |points| && OnDate(known, points[i], d)
      {
        if d in Dates(known, init) {
          var i :| 0 <= i < |init| && OnDate(known, init[i], d);
          assert points[i] == init[i];
        } else {
          assert OnDate(known, points[|points| - 1], d);
        }
      }
      forall d | exists i :: 0 <= i < |points| && OnDate(known, points[i], d)
        ensures d in Dates(known, points)
      {
        var i :| 0 <= i < |points| && OnDate(known, points[i], d);
        if i < |points| - 1 {
          assert init[i] == points[i];
        }
      }
    }
  }

  /** Later rows overwrite earlier ones: the cell of an entity on date `d` holds the value
      of the last point of that entity on that date. */
  lemma {:induction false} EntryLast<V>(known: seq<Entity>, points: seq<Point<V>>, d: string, i: int)
    requires 0 <= i < |points| && OnDate(known, points[i], d)
    requires forall j :: i < j < |points| && OnDate(known, points[j], d) ==>
      FindName(known, points[j].id) != FindName(known, points[i].id)
    ensures FindName(known, points[i].id).value in EntryFor(known, points, d)
    ensures EntryFor(known, points, d)[FindName(known, points[i].id).value] == Reading(points[i].value)
  {
    var init := points[..|points| - 1];
    if i < |points| - 1 {
      assert init[i] == points[i];
      forall j | i < j < |init| && OnDate(known, init[j], d)
        ensures FindName(known, init[j].id) != FindName(known, init[i].id)
      {
        assert init[j] == points[j];
      }
      EntryLast(known, init, d, i);
    }
  }

  /** An entry's keys are `date` and the names of entities with a point on that date. */
  lemma {:induction false} EntryKeys<V>(known: seq<Entity>, points: seq<Point<V>>, d: string, key: string)
    requires key in EntryFor(known, points, d) && key != "date"
    ensures exists i :: 0 <= i < |points| && OnDate(known, points[i], d) && FindName(known, points[i].id) == Some(key)
  {
    var init := points[..|points| - 1];
    var p := points[|points| - 1];
    if !(OnDate(known, p, d) && FindName(known, p.id) == Some(key)) {
      EntryKeys(known, init, d, key);
      var i :| 0 <= i < |init| && OnDate(known, init[i], d) && FindName(known, init[i].id) == Some(key);
      assert points[i] == init[i];
    }
  }

  /** The `date` cell keeps its label unless an entity is itself named "date". */
  lemma {:induction false} EntryDate<V>(known: seq<Entity>, points: seq<Point<V>>, d: string)
    requires forall k :: 0 <= k < |known| ==> known[k].name != "date"
    ensures "date" in EntryFor(known, points, d) && EntryFor(known, points, d)["date"] == DateLabel(d)
  {
    if points != [] {
      EntryDate(known, points[..|points| - 1], d);
    }
  }

  // ---------------------------------------------------------------------------------
  // Relative time

  datatype TimeUnit = Minute | Hour | Day

  /** The bucket `getRelativeTime` puts an age in. */
  datatype Age = JustNow | Ago(count: nat, unit: TimeUnit) | AsDate

  const MinuteMs: int := 60000
  const HourMs: int := 3600000
  const DayMs: int := 86400000

  /** `getRelativeTime` on the milliseconds elapsed (`Math.floor` of a division by a
      positive constant is Dafny's `/`): under a minute, whole minutes under an hour,
      whole hours under a day, whole days under a week, else the date. */
  function AgeOf(diffMs: int): (a: Age)
    ensures a == JustNow <==> diffMs < MinuteMs
    ensures a == AsDate <==> diffMs >= 7 * DayMs
    ensures a.Ago? && a.unit == Minute ==> 1 <= a.count < 60 && a.count * MinuteMs <= diffMs < (a.count + 1) * MinuteMs
    ensures a.Ago? && a.unit == Hour ==> 1 <= a.count < 24 && a.count * HourMs <= diffMs < (a.count + 1) * HourMs
    ensures a.Ago? && a.unit == Day ==> 1 <= a.count < 7 && a.count * DayMs <= diffMs < (a.count + 1) * DayMs
    ensures a.Ago? ==> (a.unit == Minute <==> diffMs < HourMs) && (a.unit == Day <==> diffMs >= DayMs)
  {
    var diffMins := diffMs / MinuteMs;
    var diffHours := diffMs / HourMs;
    var diffDays := diffMs / DayMs;
    if diffMins < 1 then JustNow
    else if diffMins < 60 then Ago(diffMins, Minute)
    else if diffHours < 24 then Ago(diffHours, Hour)
    else if diffDays < 7 then Ago(diffDays, Day)
    else AsDate
  }

  function UnitWord(u: TimeUnit): string
  {
    match u
    case Minute => "minute"
    case Hour => "hour"
    case Day => "day"
  }

  /** The text: `${n} ${unit}${n > 1 ? 's' : ''} ago`, 'just now', or the locale date. */
  function RelativeTime(diffMs: int, localeDate: string): (text: string)
  {
    match AgeOf(diffMs)
    case JustNow => "just now"
    case Ago(n, u) => NatToString(n) + " " + UnitWord(u) + (if n > 1 then "s" else "") + " ago"
    case AsDate => localeDate
  }

  /** The unit takes the plural 's' exactly when the count is above one. */
  lemma RelativeTimePlural(diffMs: int, localeDate: string)
    requires AgeOf(diffMs).Ago?
    ensures var a := AgeOf(diffMs);
      var stem := NatToString(a.count) + " " + UnitWord(a.unit);
      RelativeTime(diffMs, localeDate) == stem + (if a.count > 1 then "s" else "") + " ago"
    ensures var a := AgeOf(diffMs);
      var text := RelativeTime(diffMs, localeDate);
      text[|text| - 5] == 's' <==> a.count > 1
  {
    var a := AgeOf(diffMs);
    var stem := NatToString(a.count) + " " + UnitWord(a.unit);
    assert stem[|stem| - 1] != 's';
  }
}
