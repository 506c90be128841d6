/**
 * `LearningEngine` (LearningEngine.kt): records corrections and preferences through
 * the learning repository and renders what was learned as a text block for the
 * system prompt.
 *
 * The text block is specified by `ContextText`; the engine's `StringBuilder` loops are
 * the method `LearningEngine.BuildContextFromLearnings`, proved to produce it.
 */
module LearningContexts {
  import opened Nullable
  import opened Seqs
  import opened Text
  import opened Tables
  import opened Domain
  import opened Entities
  import opened LearningRepositories

  const HEADER := "=== LEARNED FROM USER ==="
  const FOOTER := "=== END LEARNINGS ==="
  const CORRECTIONS_TITLE := "\n[Corrections to Apply]"
  const MAX_CORRECTIONS := 10
  const MAX_PREFERENCES_PER_CATEGORY := 5
  const SNIPPET_LENGTH := 100
  /** A new preference's confidence, 0.7, in thousandths. */
  const INITIAL_CONFIDENCE := 700

  /** The two lines rendered for one correction. */
  function CorrectionEntry(c: Correction): string {
    Line("- When I said: \"" + Take(c.originalResponse, SNIPPET_LENGTH) + "...\"")
    + Line("  User wanted: \"" + Take(c.correctedResponse, SNIPPET_LENGTH) + "...\"")
  }

  /** `corrections.sortedByDescending { it.timestamp }.take(10)`. */
  function RecentCorrections(cs: seq<Correction>): (r: seq<Correction>)
    ensures |r| == if |cs| <= MAX_CORRECTIONS then |cs| else MAX_CORRECTIONS
    ensures SortedBy(r, NewestFirst)
    ensures forall c :: c in r ==> c in cs
  {
    TakeSorted(cs, NewestFirst, MAX_CORRECTIONS);
    Take(SortBy(cs, NewestFirst), MAX_CORRECTIONS)
  }

  /** The corrections `RecentCorrections` leaves out. */
  function DroppedCorrections(cs: seq<Correction>): seq<Correction> {
    var sorted := SortBy(cs, NewestFirst);
    sorted[|RecentCorrections(cs)|..]
  }

  /**
   * The rendered corrections are the newest ones: together with the dropped ones they
   * are exactly the input, and nothing dropped is newer than anything rendered.
   */
  lemma RecentAreNewest(cs: seq<Correction>)
    ensures multiset(RecentCorrections(cs)) + multiset(DroppedCorrections(cs)) == multiset(cs)
    ensures forall x, y :: x in DroppedCorrections(cs) && y in RecentCorrections(cs) ==> x.timestamp <= y.timestamp
  {
    TakeSortedSplit(cs, NewestFirst, MAX_CORRECTIONS, RecentCorrections(cs), DroppedCorrections(cs));
  }

  /**
   * Corrections with the same timestamp keep their input order (`sortedByDescending`
   * is stable): for each sort key `k`, that is the timestamp `-k`, the rendered
   * corrections carrying it are the first of the input's.
   */
  lemma RecentKeepsTiesInOrder(cs: seq<Correction>, k: int)
    ensures WithKey(RecentCorrections(cs), NewestFirst, k) <= WithKey(cs, NewestFirst, k)
  {
    TakeSortedKeepsTies(cs, NewestFirst, MAX_CORRECTIONS, k, RecentCorrections(cs));
  }

  /** The corrections block: a title line and two lines per correction, or nothing. */
  function CorrectionsSection(recent: seq<Correction>): (r: string)
    ensures r == "" <==> recent == []
  {
    if recent == [] then "" else Line(CORRECTIONS_TITLE) + Joined(recent, CorrectionEntry)
  }

  /** The display name of a category. */
  function CategoryTitle(category: PreferenceCategory): string {
    match category
    case COMMUNICATION_STYLE => "Communication Style"
    case PERSONAL_INFO => "Personal Info"
    case TIME_PREFERENCES => "Time Preferences"
    case TOPICS_OF_INTEREST => "Topics of Interest"
    case CORRECTIONS => "Corrections"
  }

  /** Category `c` occurs in `ps` before category `d` first does. */
  ghost predicate SeenBefore(ps: seq<LearnedPreference>, c: PreferenceCategory, d: PreferenceCategory) {
    exists a :: 0 <= a < |ps| && ps[a].category == c && forall b :: 0 <= b <= a ==> ps[b].category != d
  }

  /**
   * The keys of `groupBy { it.category }`, which keeps its keys in insertion order:
   * each category present once, in order of first occurrence.
   */
  function Categories(ps: seq<LearnedPreference>): (r: seq<PreferenceCategory>)
    ensures forall i, j :: 0 <= i < j < |r| ==> r[i] != r[j]
    ensures forall c :: c in r <==> exists p :: p in ps && p.category == c
    ensures forall i, j :: 0 <= i < j < |r| ==> SeenBefore(ps, r[i], r[j])
  {
    if ps == [] then []
    else
      var prefix := ps[..|ps| - 1];
      var last := ps[|ps| - 1];
      var earlier := Categories(prefix);
      assert ps == prefix + [last];
      var r := if last.category in earlier then earlier else earlier + [last.category];
      CategoriesStep(prefix, last, earlier, r);
      r
  }

  /** One more preference either repeats a known category or adds its own at the end. */
  lemma CategoriesStep(prefix: seq<LearnedPreference>, last: LearnedPreference, earlier: seq<PreferenceCategory>, r: seq<PreferenceCategory>)
    requires forall i, j :: 0 <= i < j < |earlier| ==> earlier[i] != earlier[j]
    requires forall c :: c in earlier <==> exists p :: p in prefix && p.category == c
    requires forall i, j :: 0 <= i < j < |earlier| ==> SeenBefore(prefix, earlier[i], earlier[j])
    requires r == if last.category in earlier then earlier else earlier + [last.category]
    ensures forall i, j :: 0 <= i < j < |r| ==> r[i] != r[j]
    ensures forall c :: c in r <==> exists p :: p in prefix + [last] && p.category == c
    ensures forall i, j :: 0 <= i < j < |r| ==> SeenBefore(prefix + [last], r[i], r[j])
  {
    var ps := prefix + [last];
    forall c | c in r ensures exists p :: p in ps && p.category == c {
      if c != last.category {
        var p :| p in prefix && p.category == c;
        assert p in ps;
      } else {
        assert last in ps;
      }
    }
    forall i, j | 0 <= i < j < |r| ensures SeenBefore(ps, r[i], r[j]) {
      if j < |earlier| {
        SeenBeforeExtend(prefix, last, r[i], r[j]);
      } else {
        assert r[i] == earlier[i] && earlier[i] in earlier;
        var p :| p in prefix && p.category == r[i];
        var a :| 0 <= a < |prefix| && prefix[a] == p;
        forall b | 0 <= b <= a ensures ps[b].category != r[j] {
          assert ps[b] == prefix[b];
          assert ps[b] in prefix;
        }
        assert ps[a] == p;
      }
    }
  }

  /** Appending a preference keeps every first-occurrence order already seen. */
  lemma SeenBeforeExtend(prefix: seq<LearnedPreference>, last: LearnedPreference, c: PreferenceCategory, d: PreferenceCategory)
    requires SeenBefore(prefix, c, d)
    ensures SeenBefore(prefix + [last], c, d)
  {
    var a :| 0 <= a < |prefix| && prefix[a].category == c && forall b :: 0 <= b <= a ==> prefix[b].category != d;
    var ps := prefix + [last];
    forall b | 0 <= b <= a ensures ps[b].category != d {
      assert ps[b] == prefix[b];
    }
    assert ps[a] == prefix[a];
  }

  /** The group of `groupBy { it.category }` for one category: its preferences, in order. */
  function InCategory(ps: seq<LearnedPreference>, category: PreferenceCategory): seq<LearnedPreference> {
    if ps == [] then [] else (if ps[0].category == category then [ps[0]] else []) + InCategory(ps[1..], category)
  }

  /**
   * The group holds exactly the preferences of the category, each as often as in the
   * input, and nothing else.
   */
  lemma {:induction false} InCategoryMembers(ps: seq<LearnedPreference>, category: PreferenceCategory)
    ensures forall p :: multiset(InCategory(ps, category))[p] == if p.category == category then multiset(ps)[p] else 0
    ensures forall p :: p in InCategory(ps, category) <==> p in ps && p.category == category
  {
    if ps != [] {
      InCategoryMembers(ps[1..], category);
      assert ps == [ps[0]] + ps[1..];
    }
  }

  /** The group grows in input order: a later preference of the category goes last. */
  lemma {:induction false} InCategoryAppend(ps: seq<LearnedPreference>, p: LearnedPreference, category: PreferenceCategory)
    ensures InCategory(ps + [p], category) == InCategory(ps, category) + (if p.category == category then [p] else [])
  {
    var last := if p.category == category then [p] else [];
    if ps == [] {
      InCategoryCons(p, [], category);
      assert [p] + [] == [p];
    } else {
      var first := if ps[0].category == category then [ps[0]] else [];
      InCategoryAppend(ps[1..], p, category);
      assert ps == [ps[0]] + ps[1..];
      assert ps + [p] == [ps[0]] + (ps[1..] + [p]);
      InCategoryCons(ps[0], ps[1..] + [p], category);
      InCategoryCons(ps[0], ps[1..], category);
      ConcatAssoc(first, InCategory(ps[1..], category), last);
    }
  }

  /** The group of a list with a known first element. */
  lemma InCategoryCons(x: LearnedPreference, t: seq<LearnedPreference>, category: PreferenceCategory)
    ensures InCategory([x] + t, category) == (if x.category == category then [x] else []) + InCategory(t, category)
  {
    assert ([x] + t)[1..] == t;
  }

  /** `prefs.sortedByDescending { it.confidence }.take(5)`. */
  function TopPreferences(ps: seq<LearnedPreference>): (r: seq<LearnedPreference>)
    ensures |r| == if |ps| <= MAX_PREFERENCES_PER_CATEGORY then |ps| else MAX_PREFERENCES_PER_CATEGORY
    ensures forall i, j :: 0 <= i < j < |r| ==> r[i].confidence >= r[j].confidence
    ensures forall p :: p in r ==> p in ps
  {
    TakeSorted(ps, MostConfidentFirst, MAX_PREFERENCES_PER_CATEGORY);
    var r := Take(SortBy(ps, MostConfidentFirst), MAX_PREFERENCES_PER_CATEGORY);
    assert forall i, j :: 0 <= i < j < |r| ==> MostConfidentFirst(r[i]) <= MostConfidentFirst(r[j]);
    r
  }

  /** The preferences `TopPreferences` leaves out. */
  function DroppedPreferences(ps: seq<LearnedPreference>): seq<LearnedPreference> {
    SortBy(ps, MostConfidentFirst)[|TopPreferences(ps)|..]
  }

  /**
   * The shown preferences are the most confident ones: together with the dropped ones
   * they are exactly the group, and nothing dropped is more confident than anything shown.
   */
  lemma TopAreMostConfident(ps: seq<LearnedPreference>)
    ensures multiset(TopPreferences(ps)) + multiset(DroppedPreferences(ps)) == multiset(ps)
    ensures forall x, y :: x in DroppedPreferences(ps) && y in TopPreferences(ps) ==> x.confidence <= y.confidence
  {
    TakeSortedSplit(ps, MostConfidentFirst, MAX_PREFERENCES_PER_CATEGORY, TopPreferences(ps), DroppedPreferences(ps));
  }

  /**
   * Among equally confident preferences (every recorded preference starts at 0.7) the
   * stable sort keeps the group's order, so the first five are shown.
   */
  lemma TopOfEqualConfidence(ps: seq<LearnedPreference>, confidence: int)
    requires forall i :: 0 <= i < |ps| ==> ps[i].confidence == confidence
    ensures TopPreferences(ps) == Take(ps, MAX_PREFERENCES_PER_CATEGORY)
  {
    SortBySameKey(ps, MostConfidentFirst, -confidence);
  }

  /** The line of one preference, `- key: value`. */
  function PreferenceLine(p: LearnedPreference): string {
    Line("- " + p.key + ": " + p.value)
  }

  /** The block of one category: its title line and its top preferences. */
  function CategorySection(ps: seq<LearnedPreference>, category: PreferenceCategory): string {
    Line("\n[" + CategoryTitle(category) + "]") + Joined(TopPreferences(InCategory(ps, category)), PreferenceLine)
  }

  /** The blocks of the given categories, in order. */
  function CategorySections(ps: seq<LearnedPreference>, categories: seq<PreferenceCategory>): string {
    if categories == [] then ""
    else CategorySections(ps, categories[..|categories| - 1]) + CategorySection(ps, categories[|categories| - 1])
  }

  /** What `buildContextFromLearnings` returns. */
  function ContextText(learnings: Learnings): string {
    if learnings.corrections == [] && learnings.preferences == [] then ""
    else
      Line(HEADER)
      + CorrectionsSection(RecentCorrections(learnings.corrections))
      + CategorySections(learnings.preferences, Categories(learnings.preferences))
      + Line(FOOTER)
  }

  /** The context is empty exactly when there is nothing learned. */
  lemma ContextEmptyIff(learnings: Learnings)
    ensures ContextText(learnings) == "" <==> learnings.corrections == [] && learnings.preferences == []
  {
  }

  /** A non-empty context starts with the header line. */
  lemma ContextStartsWithHeader(learnings: Learnings)
    requires learnings.corrections != [] || learnings.preferences != []
    ensures StartsWith(ContextText(learnings), Line(HEADER))
  {
    var section := CorrectionsSection(RecentCorrections(learnings.corrections));
    var sections := CategorySections(learnings.preferences, Categories(learnings.preferences));
    assert ContextText(learnings) == Line(HEADER) + section + sections + Line(FOOTER);
  }

  /** A non-empty context ends with the footer line. */
  lemma ContextEndsWithFooter(learnings: Learnings)
    requires learnings.corrections != [] || learnings.preferences != []
    ensures EndsWith(ContextText(learnings), Line(FOOTER))
  {
    var section := CorrectionsSection(RecentCorrections(learnings.corrections));
    var sections := CategorySections(learnings.preferences, Categories(learnings.preferences));
    var body := Line(HEADER) + section + sections;
    assert ContextText(learnings) == body + Line(FOOTER);
    EndsWithConcat(body, Line(FOOTER));
  }

  /** Every correction among the ten newest has its two lines in the context. */
  lemma RecentCorrectionsRendered(learnings: Learnings, c: Correction)
    requires c in RecentCorrections(learnings.corrections)
    ensures Contains(ContextText(learnings), CorrectionEntry(c))
  {
    var recent := RecentCorrections(learnings.corrections);
    var i :| 0 <= i < |recent| && recent[i] == c;
    JoinedContains(recent, CorrectionEntry, i);
    ContainsInRight(Line(CORRECTIONS_TITLE), Joined(recent, CorrectionEntry), CorrectionEntry(c));
    var section := CorrectionsSection(recent);
    var sections := CategorySections(learnings.preferences, Categories(learnings.preferences));
    ContainsInRight(Line(HEADER), section, CorrectionEntry(c));
    ContainsInLeft(Line(HEADER) + section, sections, CorrectionEntry(c));
    ContainsInLeft(Line(HEADER) + section + sections, Line(FOOTER), CorrectionEntry(c));
  }

  /**
   * A rendered correction quotes the first 100 characters of each side (all of a
   * shorter one), each followed by "...".
   */
  lemma CorrectionEntryQuotes(c: Correction)
    ensures Contains(CorrectionEntry(c), "\"" + c.originalResponse[..if |c.originalResponse| <= 100 then |c.originalResponse| else 100] + "...\"")
    ensures Contains(CorrectionEntry(c), "\"" + c.correctedResponse[..if |c.correctedResponse| <= 100 then |c.correctedResponse| else 100] + "...\"")
  {
    var said := "\"" + Take(c.originalResponse, SNIPPET_LENGTH) + "...\"";
    var wanted := "\"" + Take(c.correctedResponse, SNIPPET_LENGTH) + "...\"";
    var opening := "- When I said: ";
    var middle := "\n" + "  User wanted: ";
    assert CorrectionEntry(c) == opening + said + (middle + wanted + "\n");
    ContainsMiddle(opening, said, middle + wanted + "\n");
    assert CorrectionEntry(c) == (opening + said + middle) + wanted + "\n";
    ContainsMiddle(opening + said + middle, wanted, "\n");
  }

  /** With no preferences, as `observeLearnings` renders, there is no category block. */
  lemma NoPreferencesNoCategories(corrections: seq<Correction>)
    ensures ContextText(Learnings([], corrections, 1))
         == if corrections == [] then "" else Line(HEADER) + CorrectionsSection(RecentCorrections(corrections)) + Line(FOOTER)
  {
    assert Categories([]) == [];
  }

  class LearningEngine {
    const learningRepository: LearningRepository

    constructor (learningRepository: LearningRepository)
      ensures this.learningRepository == learningRepository
    {
      this.learningRepository := learningRepository;
    }

    /**
     * `recordCorrection(originalResponse, correctedResponse, context)` with the fresh
     * id `id` and the clock reading `now`: saves exactly that one correction.
     */
    method RecordCorrection(originalResponse: string, correctedResponse: string, id: string, now: int, context: string := "")
      requires learningRepository.Valid()
      modifies learningRepository.correctionDao
      ensures learningRepository.Valid()
      ensures learningRepository.correctionDao.rows
           == Upsert(old(learningRepository.correctionDao.rows), CorrectionId,
                     CorrectionEntity(id, originalResponse, correctedResponse, context, now))
    {
      var correction := Correction(id, originalResponse, correctedResponse, context, now);
      learningRepository.SaveCorrection(correction);
    }

    /**
     * `recordPreference(key, value, category)` with the fresh id `id`, learned at `now`
     * and written at `savedAt`: saves one preference with the initial confidence 0.7.
     */
    method RecordPreference(key: string, value: string, category: PreferenceCategory, id: string, now: int, savedAt: int)
      requires learningRepository.Valid()
      modifies learningRepository.preferenceDao
      ensures learningRepository.Valid()
      ensures learningRepository.preferenceDao.rows
           == Upsert(old(learningRepository.preferenceDao.rows), PreferenceId,
                     PreferenceEntity(id, CategoryName(category), key, value, INITIAL_CONFIDENCE, now, savedAt))
    {
      var preference := LearnedPreference(id, category, key, value, INITIAL_CONFIDENCE, now);
      learningRepository.SavePreference(preference, savedAt);
    }

    /** `buildContextFromLearnings(learnings)`: the `StringBuilder` loops. */
    method BuildContextFromLearnings(learnings: Learnings) returns (text: string)
      ensures text == ContextText(learnings)
    {
      if learnings.corrections == [] && learnings.preferences == [] {
        return "";
      }
      var opening := AppendCorrectionsSection(Line(HEADER), RecentCorrections(learnings.corrections));
      text := AppendCategories(opening, learnings.preferences, Categories(learnings.preferences));
      text := text + Line(FOOTER);
    }

    /** The `forEach` over the category groups, in the given order. */
    method AppendCategories(start: string, ps: seq<LearnedPreference>, categories: seq<PreferenceCategory>) returns (text: string)
      ensures text == start + CategorySections(ps, categories)
    {
      text := start;
      var k := 0;
      while k < |categories|
        invariant 0 <= k <= |categories|
        invariant text == start + CategorySections(ps, categories[..k])
      {
        text := AppendCategory(text, ps, categories[k]);
        PrefixLast(categories, k);
        ConcatAssoc(start, CategorySections(ps, categories[..k]), CategorySection(ps, categories[k]));
        k := k + 1;
      }
      assert categories[..k] == categories;
    }

    /** The corrections block, when there are recent corrections. */
    method AppendCorrectionsSection(start: string, recent: seq<Correction>) returns (text: string)
      ensures text == start + CorrectionsSection(recent)
    {
      text := start;
      if recent != [] {
        text := AppendEach(text + Line(CORRECTIONS_TITLE), recent, CorrectionEntry);
      }
    }

    /** One iteration of the `forEach` over the category groups. */
    method AppendCategory(start: string, ps: seq<LearnedPreference>, category: PreferenceCategory) returns (text: string)
      ensures text == start + CategorySection(ps, category)
    {
      text := AppendEach(start + Line("\n[" + CategoryTitle(category) + "]"), TopPreferences(InCategory(ps, category)), PreferenceLine);
    }

    /** `buildLearningContext()`: the context rendered from `getLearnings()`. */
    method BuildLearningContext() returns (text: string)
      ensures text == ContextText(learningRepository.GetLearnings())
    {
      var learnings := learningRepository.GetLearnings();
      text := BuildContextFromLearnings(learnings);
    }

    /**
     * `observeLearnings()`: the text the flow emits for the current corrections. It is
     * rendered with no preferences, so it never has a category block.
     */
    function ObserveLearnings(): (r: string)
      reads learningRepository, learningRepository.correctionDao
      ensures var cs := learningRepository.GetCorrectionsFlow();
        r == if cs == [] then "" else Line(HEADER) + CorrectionsSection(RecentCorrections(cs)) + Line(FOOTER)
    {
      var cs := learningRepository.GetCorrectionsFlow();
      NoPreferencesNoCategories(cs);
      ContextText(Learnings([], cs, 1))
    }
  }
}
