/**
 * The grant explorer page: the five-step filter over the loaded grants and
 * the decision of the AI search between refusing, the demo listing and the
 * embedding search.
 */
module Explore {
  import opened Wrappers
  import opened Text
  import opened GrantRecord

  /** The value a dropdown holds when it imposes no constraint. */
  const Wildcard := "all"

  /** The TRL criterion, already read as an integer. */
  datatype TrlFilter = AnyTrl | TrlValue(value: int)

  datatype Criteria = Criteria(
    searchQuery: string,
    countryFilter: string,
    trlFilter: TrlFilter,
    industryFilter: string,
    fundingTypeFilter: string)

  /** The criteria the page starts with. */
  const InitialCriteria := Criteria("", Wildcard, AnyTrl, Wildcard, Wildcard)

  // ------------------------------------------------------------ predicates

  /** Some tag contains `needle`, ignoring case. */
  predicate AnyTagIncludes(tags: seq<string>, needle: string) {
    exists i :: 0 <= i < |tags| && Includes(Lower(tags[i]), Lower(needle))
  }

  /** Text search: title, else description (when present), else any tag (when present). */
  predicate MatchesSearch(g: Grant, query: string) {
    || Includes(Lower(g.title), Lower(query))
    || (g.description.Some? && Includes(Lower(g.description.value), Lower(query)))
    || (g.tags.Some? && AnyTagIncludes(g.tags.value, query))
  }

  /** Country filter: listed exactly (case-sensitive), or no country list at all. */
  predicate EligibleInCountry(g: Grant, country: string) {
    (g.eligibleCountries.Some? && country in g.eligibleCountries.value) || g.eligibleCountries.None?
  }

  /** TRL filter: an absent bound is no bound. */
  predicate WithinTrl(g: Grant, trl: int) {
    (g.minTrl.None? || g.minTrl.value <= trl) && (g.maxTrl.None? || g.maxTrl.value >= trl)
  }

  /** Industry and funding-type filters: some tag contains the choice, ignoring case. */
  predicate HasTagLike(g: Grant, needle: string) {
    g.tags.Some? && AnyTagIncludes(g.tags.value, needle)
  }

  // ------------------------------------------------------------ steps

  /** One `.filter` pass of the pipeline. */
  datatype Step =
    | SearchStep(query: string)
    | CountryStep(country: string)
    | TrlStep(trl: int)
    | IndustryStep(industry: string)
    | FundingTypeStep(fundingType: string)

  predicate Passes(g: Grant, st: Step) {
    match st
    case SearchStep(q) => MatchesSearch(g, q)
    case CountryStep(c) => EligibleInCountry(g, c)
    case TrlStep(v) => WithinTrl(g, v)
    case IndustryStep(t) => HasTagLike(g, t)
    case FundingTypeStep(t) => HasTagLike(g, t)
  }

  /** The one-step pass list of a predicate that is active, the empty one otherwise. */
  function Opt(active: bool, st: Step): seq<Step> {
    if active then [st] else []
  }

  /** The passes the pipeline runs for `c`, in the order it runs them. */
  function ActiveSteps(c: Criteria): seq<Step> {
    Opt(c.searchQuery != "", SearchStep(c.searchQuery))
    + Opt(c.countryFilter != Wildcard, CountryStep(c.countryFilter))
    + Opt(c.trlFilter.TrlValue?, TrlStep(if c.trlFilter.TrlValue? then c.trlFilter.value else 0))
    + Opt(c.industryFilter != Wildcard, IndustryStep(c.industryFilter))
    + Opt(c.fundingTypeFilter != Wildcard, FundingTypeStep(c.fundingTypeFilter))
  }

  predicate PassesAll(g: Grant, steps: seq<Step>) {
    forall i :: 0 <= i < |steps| ==> Passes(g, steps[i])
  }

  /** A grant is kept for `c` when it passes every active predicate. */
  predicate Eligible(g: Grant, c: Criteria) {
    PassesAll(g, ActiveSteps(c))
  }

  lemma PassesAllConcat(g: Grant, a: seq<Step>, b: seq<Step>)
    ensures PassesAll(g, a + b) <==> PassesAll(g, a) && PassesAll(g, b)
  {
    assert forall i :: 0 <= i < |a| ==> (a + b)[i] == a[i];
    assert forall i :: 0 <= i < |b| ==> (a + b)[|a| + i] == b[i];
  }

  lemma PassesAllOpt(g: Grant, active: bool, st: Step)
    ensures PassesAll(g, Opt(active, st)) <==> (active ==> Passes(g, st))
  {
    if active {
      assert Opt(active, st)[0] == st;
    }
  }

  /** Adding a guarded step adds its predicate when active, and nothing otherwise. */
  lemma PassesAllThenOpt(g: Grant, steps: seq<Step>, active: bool, st: Step)
    ensures PassesAll(g, steps + Opt(active, st)) <==> PassesAll(g, steps) && (active ==> Passes(g, st))
  {
    PassesAllConcat(g, steps, Opt(active, st));
    PassesAllOpt(g, active, st);
  }

  /** `Eligible` is the conjunction of the predicates whose criteria are set. */
  lemma EligibleIff(g: Grant, c: Criteria)
    ensures Eligible(g, c) <==>
      && (c.searchQuery != "" ==> MatchesSearch(g, c.searchQuery))
      && (c.countryFilter != Wildcard ==> EligibleInCountry(g, c.countryFilter))
      && (c.trlFilter.TrlValue? ==> WithinTrl(g, c.trlFilter.value))
      && (c.industryFilter != Wildcard ==> HasTagLike(g, c.industryFilter))
      && (c.fundingTypeFilter != Wildcard ==> HasTagLike(g, c.fundingTypeFilter))
  {
    var s1 := Opt(c.searchQuery != "", SearchStep(c.searchQuery));
    var s2 := Opt(c.countryFilter != Wildcard, CountryStep(c.countryFilter));
    var s3 := Opt(c.trlFilter.TrlValue?, TrlStep(if c.trlFilter.TrlValue? then c.trlFilter.value else 0));
    var s4 := Opt(c.industryFilter != Wildcard, IndustryStep(c.industryFilter));
    PassesAllOpt(g, c.searchQuery != "", SearchStep(c.searchQuery));
    PassesAllThenOpt(g, s1, c.countryFilter != Wildcard, CountryStep(c.countryFilter));
    PassesAllThenOpt(g, s1 + s2, c.trlFilter.TrlValue?,
                     TrlStep(if c.trlFilter.TrlValue? then c.trlFilter.value else 0));
    PassesAllThenOpt(g, s1 + s2 + s3, c.industryFilter != Wildcard, IndustryStep(c.industryFilter));
    PassesAllThenOpt(g, s1 + s2 + s3 + s4, c.fundingTypeFilter != Wildcard,
                     FundingTypeStep(c.fundingTypeFilter));
  }

  // ------------------------------------------------------------ subsequences

  /** `a` is `b` with some elements deleted, the rest in their order. */
  predicate Subseq<T(==)>(a: seq<T>, b: seq<T>)
    decreases |b|
  {
    a == [] || (|b| > 0 && ((a[0] == b[0] && Subseq(a[1..], b[1..])) || Subseq(a, b[1..])))
  }

  lemma {:induction false} SubseqLength<T>(a: seq<T>, b: seq<T>)
    requires Subseq(a, b)
    ensures |a| <= |b|
    decreases |b|
  {
    if a != [] {
      if a[0] == b[0] && Subseq(a[1..], b[1..]) {
        SubseqLength(a[1..], b[1..]);
      } else {
        SubseqLength(a, b[1..]);
      }
    }
  }

  lemma {:induction false} SubseqRefl<T>(a: seq<T>)
    ensures Subseq(a, a)
  {
    if a != [] {
      SubseqRefl(a[1..]);
    }
  }

  // ------------------------------------------------------------ filtering

  /** `gs.filter(g => Passes(g, st))` */
  function Keep(gs: seq<Grant>, st: Step): (r: seq<Grant>)
    ensures Subseq(r, gs)
    ensures forall g :: g in r <==> g in gs && Passes(g, st)
  {
    if gs == [] then []
    else if Passes(gs[0], st) then [gs[0]] + Keep(gs[1..], st)
    else Keep(gs[1..], st)
  }

  /** The grants of `gs` that pass every step of `steps`, in their order. */
  function KeepAll(gs: seq<Grant>, steps: seq<Step>): (r: seq<Grant>)
    ensures Subseq(r, gs)
    ensures forall g :: g in r <==> g in gs && PassesAll(g, steps)
  {
    if gs == [] then []
    else if PassesAll(gs[0], steps) then [gs[0]] + KeepAll(gs[1..], steps)
    else KeepAll(gs[1..], steps)
  }

  /** A pass keeps every copy of a grant that passes, and no copy of one that does not. */
  lemma {:induction false} KeepCounts(gs: seq<Grant>, st: Step)
    ensures forall g :: multiset(Keep(gs, st))[g] == if Passes(g, st) then multiset(gs)[g] else 0
  {
    if gs != [] {
      assert gs == [gs[0]] + gs[1..];
      KeepCounts(gs[1..], st);
    }
  }

  /** The combined filter keeps every copy of a grant that passes all steps, and no other. */
  lemma {:induction false} KeepAllCounts(gs: seq<Grant>, steps: seq<Step>)
    ensures forall g :: multiset(KeepAll(gs, steps))[g] == if PassesAll(g, steps) then multiset(gs)[g] else 0
  {
    if gs != [] {
      assert gs == [gs[0]] + gs[1..];
      KeepAllCounts(gs[1..], steps);
    }
  }

  /** The passes run one after the other, as the page runs them. */
  function Pipeline(gs: seq<Grant>, steps: seq<Step>): seq<Grant>
    decreases |steps|
  {
    if steps == [] then gs else Keep(Pipeline(gs, steps[..|steps| - 1]), steps[|steps| - 1])
  }

  /** What the page shows for `c`: one filter by the conjunction of the active predicates. */
  function Select(gs: seq<Grant>, c: Criteria): seq<Grant> {
    KeepAll(gs, ActiveSteps(c))
  }

  lemma {:induction false} KeepAllNoSteps(gs: seq<Grant>)
    ensures KeepAll(gs, []) == gs
  {
    if gs != [] {
      KeepAllNoSteps(gs[1..]);
    }
  }

  lemma PassesAllAppend(g: Grant, steps: seq<Step>, st: Step)
    ensures PassesAll(g, steps + [st]) <==> PassesAll(g, steps) && Passes(g, st)
  {
    assert forall i :: 0 <= i < |steps| ==> (steps + [st])[i] == steps[i];
    assert (steps + [st])[|steps|] == st;
  }

  /** One more pass after a combined filter is the combined filter with one more step. */
  lemma {:induction false} KeepAfterKeepAll(gs: seq<Grant>, steps: seq<Step>, st: Step)
    ensures Keep(KeepAll(gs, steps), st) == KeepAll(gs, steps + [st])
  {
    if gs != [] {
      PassesAllAppend(gs[0], steps, st);
      KeepAfterKeepAll(gs[1..], steps, st);
    }
  }

  /** A pass that runs only when its predicate is active. */
  lemma OptionalPass(gs: seq<Grant>, steps: seq<Step>, active: bool, st: Step)
    ensures (if active then Keep(KeepAll(gs, steps), st) else KeepAll(gs, steps))
         == KeepAll(gs, steps + Opt(active, st))
  {
    if active {
      KeepAfterKeepAll(gs, steps, st);
    } else {
      assert steps + Opt(active, st) == steps;
    }
  }

  /** Running the passes in sequence is one filter by their conjunction. */
  lemma {:induction false} PipelineIsKeepAll(gs: seq<Grant>, steps: seq<Step>)
    ensures Pipeline(gs, steps) == KeepAll(gs, steps)
    decreases |steps|
  {
    if steps == [] {
      KeepAllNoSteps(gs);
    } else {
      var init := steps[..|steps| - 1];
      PipelineIsKeepAll(gs, init);
      KeepAfterKeepAll(gs, init, steps[|steps| - 1]);
      assert init + [steps[|steps| - 1]] == steps;
    }
  }

  /** Only which steps are present matters, not their order or repetition. */
  lemma {:induction false} KeepAllSameSteps(gs: seq<Grant>, a: seq<Step>, b: seq<Step>)
    requires forall st :: st in a <==> st in b
    ensures KeepAll(gs, a) == KeepAll(gs, b)
  {
    if gs != [] {
      var g := gs[0];
      if PassesAll(g, a) {
        forall j | 0 <= j < |b| ensures Passes(g, b[j]) {
          assert b[j] in a;
          var i :| 0 <= i < |a| && a[i] == b[j];
        }
      } else if PassesAll(g, b) {
        forall i | 0 <= i < |a| ensures Passes(g, a[i]) {
          assert a[i] in b;
          var j :| 0 <= j < |b| && b[j] == a[i];
        }
      }
      KeepAllSameSteps(gs[1..], a, b);
    }
  }

  /** The five passes may run in any order: a reordering of the steps gives the same list. */
  lemma PipelineOrderIrrelevant(gs: seq<Grant>, a: seq<Step>, b: seq<Step>)
    requires multiset(a) == multiset(b)
    ensures Pipeline(gs, a) == Pipeline(gs, b)
  {
    forall st ensures st in a <==> st in b {
      assert st in a <==> st in multiset(a);
      assert st in b <==> st in multiset(b);
    }
    PipelineIsKeepAll(gs, a);
    PipelineIsKeepAll(gs, b);
    KeepAllSameSteps(gs, a, b);
  }

  lemma {:induction false} KeepAllIdempotent(gs: seq<Grant>, steps: seq<Step>)
    ensures KeepAll(KeepAll(gs, steps), steps) == KeepAll(gs, steps)
  {
    if gs != [] {
      KeepAllIdempotent(gs[1..], steps);
    }
  }

  /** Filtering an already filtered list with the same criteria changes nothing. */
  lemma SelectIdempotent(gs: seq<Grant>, c: Criteria)
    ensures Select(Select(gs, c), c) == Select(gs, c)
  {
    KeepAllIdempotent(gs, ActiveSteps(c));
  }

  /** The filter result is an order-preserving subsequence of the loaded grants, so never longer. */
  lemma SelectBounded(gs: seq<Grant>, c: Criteria)
    ensures Subseq(Select(gs, c), gs)
    ensures |Select(gs, c)| <= |gs|
  {
    SubseqLength(Select(gs, c), gs);
  }

  /** With an empty query and every dropdown at "all" the list is shown unchanged. */
  lemma SelectWildcard(gs: seq<Grant>, c: Criteria)
    requires c.searchQuery == "" && c.countryFilter == Wildcard && c.trlFilter == AnyTrl
    requires c.industryFilter == Wildcard && c.fundingTypeFilter == Wildcard
    ensures Select(gs, c) == gs
  {
    assert ActiveSteps(c) == [];
    KeepAllNoSteps(gs);
  }

  /** When no grant has a country list, the country dropdown never changes the result. */
  lemma {:induction false} CountryIrrelevantWithoutLists(gs: seq<Grant>, c: Criteria, country: string)
    requires forall g :: g in gs ==> g.eligibleCountries.None?
    ensures Select(gs, c) == Select(gs, c.(countryFilter := country))
  {
    if gs != [] {
      EligibleIff(gs[0], c);
      EligibleIff(gs[0], c.(countryFilter := country));
      CountryIrrelevantWithoutLists(gs[1..], c, country);
    }
  }

  /** When no grant has TRL bounds, the TRL criterion never changes the result. */
  lemma {:induction false} TrlIrrelevantWithoutBounds(gs: seq<Grant>, c: Criteria, trl: TrlFilter)
    requires forall g :: g in gs ==> g.minTrl.None? && g.maxTrl.None?
    ensures Select(gs, c) == Select(gs, c.(trlFilter := trl))
  {
    if gs != [] {
      EligibleIff(gs[0], c);
      EligibleIff(gs[0], c.(trlFilter := trl));
      TrlIrrelevantWithoutBounds(gs[1..], c, trl);
    }
  }

  /** An active industry or funding-type filter drops every grant whose tags are null or empty. */
  lemma TagFilterNeedsTags(gs: seq<Grant>, c: Criteria, g: Grant)
    requires c.industryFilter != Wildcard || c.fundingTypeFilter != Wildcard
    requires g in Select(gs, c)
    ensures g.tags.Some? && |g.tags.value| > 0
  {
    EligibleIff(g, c);
  }

  /** Null description and null tags never satisfy their part of the search. */
  lemma SearchOnNullFields(g: Grant, query: string)
    requires g.description.None? && g.tags.None?
    ensures MatchesSearch(g, query) <==> Includes(Lower(g.title), Lower(query))
  {
  }

  /** The search ignores the case of the query (ASCII letters). */
  lemma SearchIgnoresQueryCase(g: Grant, query: string)
    ensures MatchesSearch(g, query) <==> MatchesSearch(g, Lower(query))
  {
    LowerIdempotent(query);
  }

  /** The country comparison is case-sensitive, the tag comparison is not. */
  lemma CountryCaseSensitiveTagsNot(g: Grant)
    requires g.eligibleCountries == Some(["Germany"]) && g.tags == Some(["Germany"])
    ensures !EligibleInCountry(g, "germany")
    ensures HasTagLike(g, "germany")
  {
    assert Lower(["Germany"][0]) == "germany";
    assert Lower("germany") == "germany";
    assert StartsWith("germany", "germany");
  }

  /**
   * "solar" finds a grant tagged "Solar Energy", and not one tagged only
   * "Wind" whose title and description (if any) do not mention it.
   */
  lemma SolarScenario(a: Grant, b: Grant)
    requires a.tags == Some(["Solar Energy"])
    requires b.tags == Some(["Wind"]) && !Includes(Lower(b.title), "solar")
    requires b.description.None? || !Includes(Lower(b.description.value), "solar")
    ensures Select([a, b], InitialCriteria.(searchQuery := "solar")) == [a]
  {
    var c := InitialCriteria.(searchQuery := "solar");
    assert ActiveSteps(c) == [SearchStep("solar")];
    assert Lower("solar") == "solar";
    assert Includes(Lower("Solar Energy"), "solar") by {
      assert Lower("Solar Energy")[..5] == "solar";
    }
    assert AnyTagIncludes(["Solar Energy"], "solar") by { assert ["Solar Energy"][0] == "Solar Energy"; }
    assert PassesAll(a, [SearchStep("solar")]);
    assert !AnyTagIncludes(["Wind"], "solar") by {
      IncludesNeedsRoom(Lower("Wind"), Lower("solar"));
    }
    assert !PassesAll(b, [SearchStep("solar")]) by { assert [SearchStep("solar")][0] == SearchStep("solar"); }
    assert [a, b][1..] == [b];
    assert [b][1..] == [];
    calc {
      KeepAll([a, b], [SearchStep("solar")]);
      [a] + KeepAll([b], [SearchStep("solar")]);
      [a] + KeepAll([], [SearchStep("solar")]);
    }
  }

  /** TRL 5 keeps a 3..7 grant listed for Germany and France and drops one that starts at TRL 8. */
  lemma TrlScenario(a: Grant, b: Grant)
    requires a.minTrl == Some(3) && a.maxTrl == Some(7) && a.eligibleCountries == Some(["Germany", "France"])
    requires b.minTrl == Some(8)
    ensures Select([a, b], InitialCriteria.(trlFilter := TrlValue(5))) == [a]
  {
    var c := InitialCriteria.(trlFilter := TrlValue(5));
    assert ActiveSteps(c) == [TrlStep(5)];
    assert PassesAll(a, [TrlStep(5)]);
    assert !PassesAll(b, [TrlStep(5)]) by { assert [TrlStep(5)][0] == TrlStep(5); }
    assert [a, b][1..] == [b];
    assert [b][1..] == [];
    calc {
      KeepAll([a, b], [TrlStep(5)]);
      [a] + KeepAll([b], [TrlStep(5)]);
      [a] + KeepAll([], [TrlStep(5)]);
    }
  }

  // ------------------------------------------------------------ AI search

  /** At most this many grants are shown in demo mode (`.limit(10)`). */
  const DemoLimit: nat := 10
  /** The arguments of the `match_grants_ai` call. */
  const MatchThreshold: real := 0.5
  const MatchCount: nat := 10
  /** The key the page is shipped with. */
  const OpenAiKey := ""

  datatype AiPath =
    | Rejected                      // "Please describe your startup first"
    | DemoPath(noKeyNotice: bool)   // listing instead of search; notice "No OpenAI key found"
    | EmbeddingPath                 // embedding request, then `match_grants_ai`

  function AiSearchPath(description: string, demoMode: bool, openAiKey: string): (p: AiPath)
    ensures p.Rejected? <==> Trim(description) == []
    ensures p.DemoPath? <==> Trim(description) != [] && (demoMode || openAiKey == "")
    ensures p.DemoPath? ==> (p.noKeyNotice <==> !demoMode && openAiKey == "")
  {
    if Trim(description) == [] then Rejected
    else if demoMode || openAiKey == "" then DemoPath(!demoMode && openAiKey == "")
    else EmbeddingPath
  }

  /** The search is refused exactly when the description is all whitespace. */
  lemma AiSearchRejectsBlank(description: string, demoMode: bool, openAiKey: string)
    ensures AiSearchPath(description, demoMode, openAiKey).Rejected? <==> Blank(description)
  {
    TrimEmptyIffBlank(description);
  }

  /** With the key the page is shipped with, the embedding request is never made. */
  lemma EmbeddingPathUnreachable(description: string, demoMode: bool)
    ensures !AiSearchPath(description, demoMode, OpenAiKey).EmbeddingPath?
  {
  }

  /** The demo listing: the first rows of the table, as the database orders them. */
  function DemoRows(table: seq<Grant>): (r: seq<Grant>)
    ensures |r| == if |table| < DemoLimit then |table| else DemoLimit
    ensures r == table[..|r|]
  {
    if |table| <= DemoLimit then table else table[..DemoLimit]
  }

  /**
   * `if (criterion is set) filtered = filtered.filter(...)`: one guarded pass
   * over a list that is already the combined filter of `gs` by `steps`.
   */
  method NarrowIf(filtered: seq<Grant>, active: bool, st: Step, ghost gs: seq<Grant>, ghost steps: seq<Step>)
    returns (r: seq<Grant>)
    requires filtered == KeepAll(gs, steps)
    ensures r == KeepAll(gs, steps + Opt(active, st))
    ensures Subseq(r, filtered)
  {
    OptionalPass(gs, steps, active, st);
    r := filtered;
    if active {
      r := Keep(r, st);
    } else {
      SubseqRefl(filtered);
    }
  }

  /**
   * The body of `filterGrants`: copy the grants, then narrow the copy with
   * each pass whose criterion is set, in the page's order.
   */
  method FilterPipeline(grants: seq<Grant>, c: Criteria) returns (filtered: seq<Grant>)
    ensures filtered == Select(grants, c)
    ensures Subseq(filtered, grants) && |filtered| <= |grants|
  {
    filtered := grants;
    var trlValue := if c.trlFilter.TrlValue? then c.trlFilter.value else 0;
    ghost var s1 := Opt(c.searchQuery != "", SearchStep(c.searchQuery));
    ghost var s2 := Opt(c.countryFilter != Wildcard, CountryStep(c.countryFilter));
    ghost var s3 := Opt(c.trlFilter.TrlValue?, TrlStep(trlValue));
    ghost var s4 := Opt(c.industryFilter != Wildcard, IndustryStep(c.industryFilter));
    KeepAllNoSteps(grants);
    // search
    filtered := NarrowIf(filtered, c.searchQuery != "", SearchStep(c.searchQuery), grants, []);
    assert [] + s1 == s1;
    // country
    filtered := NarrowIf(filtered, c.countryFilter != Wildcard, CountryStep(c.countryFilter), grants, s1);
    // TRL
    filtered := NarrowIf(filtered, c.trlFilter.TrlValue?, TrlStep(trlValue), grants, s1 + s2);
    // industry
    filtered := NarrowIf(filtered, c.industryFilter != Wildcard, IndustryStep(c.industryFilter), grants, s1 + s2 + s3);
    // funding type
    filtered := NarrowIf(filtered, c.fundingTypeFilter != Wildcard, FundingTypeStep(c.fundingTypeFilter),
                         grants, s1 + s2 + s3 + s4);
    SelectBounded(grants, c);
  }

  // ------------------------------------------------------------ the page

  /**
   * The page state that the filter and the AI search read and write. The
   * query results and the embedding service are parameters of the methods.
   */
  class ExplorePage {
    var grants: seq<Grant>
    var filteredGrants: seq<Grant>
    var searchQuery: string
    var countryFilter: string
    var trlFilter: TrlFilter
    var industryFilter: string
    var fundingTypeFilter: string
    var startupDescription: string
    var aiSearching: bool
    var demoMode: bool

    function CurrentCriteria(): Criteria
      reads this
    {
      Criteria(searchQuery, countryFilter, trlFilter, industryFilter, fundingTypeFilter)
    }

    constructor ()
      ensures grants == [] && filteredGrants == []
      ensures CurrentCriteria() == InitialCriteria
      ensures startupDescription == "" && !aiSearching && demoMode
    {
      grants, filteredGrants := [], [];
      searchQuery, countryFilter, trlFilter := "", Wildcard, AnyTrl;
      industryFilter, fundingTypeFilter := Wildcard, Wildcard;
      startupDescription, aiSearching, demoMode := "", false, true;
    }

    /** `filterGrants`: the shown list becomes the filtered copy of the loaded grants. */
    method FilterGrants()
      modifies this`filteredGrants
      ensures filteredGrants == Select(grants, CurrentCriteria())
      ensures Subseq(filteredGrants, grants) && |filteredGrants| <= |grants|
    {
      var filtered := FilterPipeline(grants, CurrentCriteria());
      filteredGrants := filtered;
    }

    /**
     * The AI search. `demoTable` is the answer of the demo query before its
     * `.limit(10)`: an error, null, or the table's rows in the database's
     * deadline order. `embedding` is the answer of the embedding request for
     * `startupDescription` and `matchGrantsAi` the similarity query
     * (embedding, threshold, count). A failure of any of them leaves the
     * shown list as it was.
     */
    method HandleAISearch(openAiKey: string, demoTable: Result<Option<seq<Grant>>>,
                          embedding: Result<seq<real>>,
                          matchGrantsAi: (seq<real>, real, nat) -> Result<Option<seq<Grant>>>)
      returns (path: AiPath)
      modifies this`aiSearching, this`filteredGrants
      ensures path == AiSearchPath(startupDescription, demoMode, openAiKey)
      ensures path.Rejected? ==> aiSearching == old(aiSearching)
      ensures !path.Rejected? ==> !aiSearching
      ensures filteredGrants ==
        SearchResult(path, demoTable, embedding, matchGrantsAi, old(filteredGrants))
    {
      path := AiSearchPath(startupDescription, demoMode, openAiKey);
      if path.Rejected? {
        return;
      }
      aiSearching := true;
      filteredGrants := SearchResult(path, demoTable, embedding, matchGrantsAi, filteredGrants);
      aiSearching := false;
    }
  }

  /**
   * The list shown after an AI search that took `path`: a rejected query
   * leaves `shown` as it is, and so does a failed request on either path.
   */
  function SearchResult(path: AiPath, demoTable: Result<Option<seq<Grant>>>, embedding: Result<seq<real>>,
                        matchGrantsAi: (seq<real>, real, nat) -> Result<Option<seq<Grant>>>,
                        shown: seq<Grant>): (r: seq<Grant>)
    ensures path.Rejected? ==> r == shown
    ensures path.DemoPath? ==> r == DemoOutcome(demoTable).GetOr(shown)
    ensures path.EmbeddingPath? ==> r == EmbeddingOutcome(embedding, matchGrantsAi).GetOr(shown)
    ensures path.DemoPath? && demoTable.Err? ==> r == shown
    ensures path.DemoPath? && demoTable.Ok? ==> |r| <= DemoLimit
  {
    match path
    case Rejected => shown
    case DemoPath(_) => DemoOutcome(demoTable).GetOr(shown)
    case EmbeddingPath => EmbeddingOutcome(embedding, matchGrantsAi).GetOr(shown)
  }

  /** The list the demo path shows (`data || []`), or `None` when the query failed. */
  function DemoOutcome(demoTable: Result<Option<seq<Grant>>>): (r: Option<seq<Grant>>)
    ensures r.Some? <==> demoTable.Ok?
    ensures r.Some? ==> |r.value| <= DemoLimit
    ensures demoTable == Ok(None) ==> r == Some([])
    ensures demoTable.Ok? && demoTable.value.Some? ==> r == Some(DemoRows(demoTable.value.value))
  {
    match demoTable
    case Err(_) => None
    case Ok(None) => Some([])
    case Ok(Some(table)) => Some(DemoRows(table))
  }

  /**
   * The demo listing does not depend on what was loaded or shown before: with
   * ten or more rows in the table it shows ten, even when the page's own
   * grant list is empty (so "Showing N of M" can have N greater than M).
   */
  lemma DemoSearchIgnoresShown(notice: bool, table: seq<Grant>, embedding: Result<seq<real>>,
                               matchGrantsAi: (seq<real>, real, nat) -> Result<Option<seq<Grant>>>,
                               shown: seq<Grant>, other: seq<Grant>)
    ensures SearchResult(DemoPath(notice), Ok(Some(table)), embedding, matchGrantsAi, shown)
         == SearchResult(DemoPath(notice), Ok(Some(table)), embedding, matchGrantsAi, other)
    ensures |table| >= DemoLimit ==>
      |SearchResult(DemoPath(notice), Ok(Some(table)), embedding, matchGrantsAi, shown)| == DemoLimit
  {
  }

  /**
   * The list the embedding path shows (`data || []`), or `None` when the
   * embedding request or the similarity query failed.
   */
  function EmbeddingOutcome(embedding: Result<seq<real>>,
                            matchGrantsAi: (seq<real>, real, nat) -> Result<Option<seq<Grant>>>): (r: Option<seq<Grant>>)
    ensures r.Some? <==> embedding.Ok? && matchGrantsAi(embedding.value, MatchThreshold, MatchCount).Ok?
    ensures r.Some? ==> r.value == matchGrantsAi(embedding.value, MatchThreshold, MatchCount).value.GetOr([])
  {
    if embedding.Err? then None
    else
      var response := matchGrantsAi(embedding.value, MatchThreshold, MatchCount);
      if response.Err? then None else Some(response.value.GetOr([]))
  }
}
