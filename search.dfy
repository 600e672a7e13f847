/** `searchMedicines`: a case-insensitive substring query narrowed by word-prefix
    matching, over the preset catalogue and the fixed user's own (non-preset) medicines. */
module Search {
  import opened Wrappers
  import opened Text
  import opened JsValues
  import opened Sorting
  import opened Records
  import MedicineChecks

  const BAD_QUERY: string := "Search query must be at least 2 characters long"
  const SEARCH_FAILED: string := "Search failed"

  /** Some search word, lowercased, is a prefix of `word`. */
  function SomeSearchWordStarts(word: string, searchWords: seq<string>): (r: bool)
    ensures r <==> exists j :: 0 <= j < |searchWords| && StartsWith(word, LowerStr(searchWords[j]))
  {
    if |searchWords| == 0 then false
    else StartsWith(word, LowerStr(searchWords[0])) || SomeSearchWordStarts(word, searchWords[1..])
  }

  /** `words.some(word => searchWords.some(w => word.startsWith(w.toLowerCase())))`. */
  function SomeWordStarts(words: seq<string>, searchWords: seq<string>): (r: bool)
    ensures r <==> exists i, j :: (0 <= i < |words| && 0 <= j < |searchWords| &&
      StartsWith(words[i], LowerStr(searchWords[j])))
  {
    if |words| == 0 then false
    else SomeSearchWordStarts(words[0], searchWords) || SomeWordStarts(words[1..], searchWords)
  }

  /** `startsWithAnyWord(text, searchWords)`: the words are the pieces of the lowercased
      text between single spaces. */
  function StartsWithAnyWord(text: string, searchWords: seq<string>): bool {
    SomeWordStarts(Split(LowerStr(text), ' '), searchWords)
  }

  /** `query.trim().toLowerCase().split(/\s+/)`. */
  function SearchWords(query: string): seq<string> {
    SplitSpaces(LowerStr(Trim(query)))
  }

  /** The query's `{contains: query, mode: 'insensitive'}` on name or category. */
  predicate MatchesQuery(name: string, category: string, query: string) {
    Contains(LowerStr(name), LowerStr(query)) || Contains(LowerStr(category), LowerStr(query))
  }

  /** The word-prefix filter applied to the query's results. */
  predicate Kept(name: string, category: string, searchWords: seq<string>) {
    StartsWithAnyWord(name, searchWords) || StartsWithAnyWord(category, searchWords)
  }

  /** `filteredPreset`. */
  function FilteredPresets(presets: seq<Preset>, query: string): (r: seq<Preset>)
    ensures forall p :: p in r <==>
      p in presets && MatchesQuery(p.name, p.category, query) && Kept(p.name, p.category, SearchWords(query))
  {
    var words := SearchWords(query);
    var found := Filter(presets, (p: Preset) => MatchesQuery(p.name, p.category, query));
    Filter(found, (p: Preset) => Kept(p.name, p.category, words))
  }

  /** `filteredCustom`: only the fixed user's medicines that are not presets. */
  function FilteredCustom(ms: seq<Medicine>, query: string): (r: seq<Medicine>)
    ensures forall m :: m in r <==>
      m in ms && m.userId == MedicineChecks.LEGACY_USER_ID && !m.isPreset &&
      MatchesQuery(m.name, m.category, query) && Kept(m.name, m.category, SearchWords(query))
  {
    var words := SearchWords(query);
    var found := Filter(ms, (m: Medicine) =>
      m.userId == MedicineChecks.LEGACY_USER_ID && !m.isPreset && MatchesQuery(m.name, m.category, query));
    Filter(found, (m: Medicine) => Kept(m.name, m.category, words))
  }

  /** A result row with its `type` tag. */
  datatype Hit = PresetHit(preset: Preset) | CustomHit(medicine: Medicine)

  datatype Metadata = Metadata(searchWords: seq<string>, presetCount: int, customCount: int, totalResults: int)

  datatype SearchResult = SearchResult(data: seq<Hit>, metadata: Metadata)

  /** `[...presets tagged 'preset', ...customs tagged 'custom']`. */
  function Tagged(presets: seq<Preset>, customs: seq<Medicine>): (r: seq<Hit>)
    ensures |r| == |presets| + |customs|
    ensures forall i :: 0 <= i < |presets| ==> r[i] == PresetHit(presets[i])
    ensures forall i :: 0 <= i < |customs| ==> r[|presets| + i] == CustomHit(customs[i])
  {
    seq(|presets|, i requires 0 <= i < |presets| => PresetHit(presets[i])) +
    seq(|customs|, i requires 0 <= i < |customs| => CustomHit(customs[i]))
  }

  /** A tagged list holds a preset exactly when the preset list does, and a custom
      medicine exactly when the custom list does. */
  lemma TaggedMembership(presets: seq<Preset>, customs: seq<Medicine>, p: Preset, m: Medicine)
    ensures PresetHit(p) in Tagged(presets, customs) <==> p in presets
    ensures CustomHit(m) in Tagged(presets, customs) <==> m in customs
  {
    var r := Tagged(presets, customs);
    if PresetHit(p) in r {
      var i :| 0 <= i < |r| && r[i] == PresetHit(p);
      assert i < |presets| ==> presets[i] == p;
    }
    if p in presets {
      var i :| 0 <= i < |presets| && presets[i] == p;
      assert r[i] == PresetHit(p);
    }
    if CustomHit(m) in r {
      var i :| 0 <= i < |r| && r[i] == CustomHit(m);
      assert i >= |presets|;
      assert r[|presets| + (i - |presets|)] == CustomHit(customs[i - |presets|]);
    }
    if m in customs {
      var i :| 0 <= i < |customs| && customs[i] == m;
      assert r[|presets| + i] == CustomHit(m);
    }
  }

  /** `searchMedicines`. `query` is `req.query.query` (absent defaults to ''); each table is
      the rows its query reads, or the error it throws. */
  function SearchMedicines(presets: Result<seq<Preset>>, medicines: Result<seq<Medicine>>, query: Option<Json>)
    : (r: Reply<SearchResult>)
    ensures r.Failure? && r.status == 400 <==> query.Some? && !query.value.Str?
    ensures r.Failure? && r.status == 400 ==> r.error == BAD_QUERY
    ensures r.Failure? && r.status != 400 ==> r.status == 500 && r.error == SEARCH_FAILED
    ensures r.Success? <==> (query.None? || query.value.Str?) && presets.Ok? && medicines.Ok?
    ensures r.Success? ==>
      var q := if query.None? then "" else query.value.s;
      var m := r.value.metadata;
      && r.status == 200
      && m.searchWords == SearchWords(q)
      && m.totalResults == |r.value.data| == m.presetCount + m.customCount
      && 0 <= m.presetCount <= |r.value.data|
      && (forall i :: 0 <= i < m.presetCount ==> r.value.data[i].PresetHit?)
      && (forall i :: m.presetCount <= i < |r.value.data| ==> r.value.data[i].CustomHit?)
  {
    var q := if query.None? then "" else if query.value.Str? then query.value.s else "";
    if query.Some? && !query.value.Str? then Failure(400, BAD_QUERY)
    else if presets.Err? || medicines.Err? then Failure(500, SEARCH_FAILED)
    else
      var fp := FilteredPresets(presets.value, q);
      var fc := FilteredCustom(medicines.value, q);
      var data := Tagged(fp, fc);
      Success(200, SearchResult(data, Metadata(SearchWords(q), |fp|, |fc|, |data|)))
  }

  /** A preset is in the answer exactly when the database query finds it and one of its
      name's or category's words starts with a search word; likewise a custom medicine,
      which must also be the fixed user's and not a preset. */
  lemma SearchFindsExactly(presets: seq<Preset>, ms: seq<Medicine>, q: string, p: Preset, m: Medicine)
    ensures var r := SearchMedicines(Ok(presets), Ok(ms), Some(Str(q)));
      && (PresetHit(p) in r.value.data <==>
          p in presets && MatchesQuery(p.name, p.category, q) && Kept(p.name, p.category, SearchWords(q)))
      && (CustomHit(m) in r.value.data <==>
          m in ms && m.userId == MedicineChecks.LEGACY_USER_ID && !m.isPreset &&
          MatchesQuery(m.name, m.category, q) && Kept(m.name, m.category, SearchWords(q)))
  {
    TaggedMembership(FilteredPresets(presets, q), FilteredCustom(ms, q), p, m);
  }

  /** A blank query gives the single empty search word, which is a prefix of every word:
      the word filter keeps every candidate. */
  lemma BlankQueryKeepsAll(query: string, text: string)
    requires Trim(query) == ""
    ensures SearchWords(query) == [""]
    ensures StartsWithAnyWord(text, SearchWords(query))
  {
    assert LowerStr(Trim(query)) == "";
    SplitSpacesOfTrimmed("");
    var words := Split(LowerStr(text), ' ');
    assert StartsWith(words[0], LowerStr(SearchWords(query)[0]));
  }

  /** A query with anything but white space gives non-empty search words without white
      space in them. */
  lemma SearchWordsAreWords(query: string)
    requires Trim(query) != ""
    ensures forall i :: 0 <= i < |SearchWords(query)| ==>
      SearchWords(query)[i] != "" && NoSpace(SearchWords(query)[i])
  {
    var t := Trim(query);
    var l := LowerStr(t);
    assert |l| == |t| > 0;
    assert !IsSpace(l[0]) by {
      assert l[0] == Lower(t[0]);
    }
    assert !IsSpace(l[|l| - 1]) by {
      assert l[|l| - 1] == Lower(t[|t| - 1]);
    }
    SplitSpacesOfTrimmed(l);
    assert SearchWords(query) == SplitSpaces(l);
  }

  /** Matching ignores the case of the text. */
  lemma CaseInsensitive(text: string, searchWords: seq<string>)
    ensures StartsWithAnyWord(LowerStr(text), searchWords) == StartsWithAnyWord(text, searchWords)
  {
    LowerStrIdempotent(text);
  }
}
