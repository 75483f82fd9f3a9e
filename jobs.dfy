/**
 * The job-listing page (src/pages/Jobs.tsx): the filter chain that
 * `handleSearch` applies to the loaded jobs, the page arithmetic with six
 * jobs per page, the Previous/Next clamping, and the mapping of a
 * `?category=` label to a category.  The page's state (`jobs`,
 * `filteredJobs`, `currentPage`, `isLoading`, `filters`) is the class
 * `JobsPage`; every handler is one atomic step.
 */
module JobSearch {
  import opened Domain
  import opened Text
  import opened SearchFilters

  // ---------------------------------------------------------------------------
  // The filter stages

  /** The seven stages of the filter chain, in the order they run. */
  datatype Stage = QueryStage | LocationStage | TypeStage | LevelStage | CategoryStage | SalaryStage | RemoteStage

  const AllStages: seq<Stage> :=
    [QueryStage, LocationStage, TypeStage, LevelStage, CategoryStage, SalaryStage, RemoteStage]

  /** The query, lower-cased, occurs in the lower-cased title, company or description. */
  predicate MatchesQuery(job: Job, query: string)
    ensures query == [] ==> MatchesQuery(job, query)
    ensures Contains(Lower(job.title), Lower(query)) ==> MatchesQuery(job, query)
  {
    var q := Lower(query);
    Contains(Lower(job.title), q) || Contains(Lower(job.company), q) || Contains(Lower(job.description), q)
  }

  /** The salary range `[lo, hi]` overlaps the job's, bounds included. */
  predicate SalaryOverlaps(s: Salary, range: (int, int))
    ensures s.min <= s.max && range.0 <= range.1 ==>
      (SalaryOverlaps(s, range) <==> Max(s.min, range.0) <= Min(s.max, range.1))
  {
    s.min <= range.1 && s.max >= range.0
  }

  /** Whether a stage filters at all: each is guarded by the truthiness of its input, except salary. */
  predicate Active(f: Filters, st: Stage) {
    match st
    case QueryStage => f.query != []
    case LocationStage => f.location != []
    case TypeStage => |f.jobTypes| > 0
    case LevelStage => |f.experienceLevels| > 0
    case CategoryStage => |f.categories| > 0
    case SalaryStage => true
    case RemoteStage => f.isRemote
  }

  /** The predicate each stage's `filter` keeps a job by; an inactive stage keeps every job. */
  predicate Passes(job: Job, f: Filters, st: Stage)
    ensures !Active(f, st) ==> Passes(job, f, st)
  {
    !Active(f, st) ||
    match st
    case QueryStage => MatchesQuery(job, f.query)
    case LocationStage => Contains(Lower(job.location), Lower(f.location))
    case TypeStage => job.jobType in f.jobTypes
    case LevelStage => job.experienceLevel in f.experienceLevels
    case CategoryStage => job.category in f.categories
    case SalaryStage => job.salary.None? || SalaryOverlaps(job.salary.value, f.salaryRange)
    case RemoteStage => job.isRemote
  }

  predicate PassesAll(job: Job, f: Filters, stages: seq<Stage>)
    ensures PassesAll(job, f, stages) <==> forall st :: st in stages ==> Passes(job, f, st)
  {
    forall i :: 0 <= i < |stages| ==> Passes(job, f, stages[i])
  }

  /** The jobs of `s` that pass every stage in `stages`, in their original order. */
  function Where(s: seq<Job>, f: Filters, stages: seq<Stage>): (r: seq<Job>)
    ensures |r| <= |s|
    ensures forall job :: job in r <==> job in s && PassesAll(job, f, stages)
  {
    if s == [] then []
    else if PassesAll(s[0], f, stages) then [s[0]] + Where(s[1..], f, stages)
    else Where(s[1..], f, stages)
  }

  /** The jobs of `s` that some stage drops. */
  function Rejected(s: seq<Job>, f: Filters, stages: seq<Stage>): (r: seq<Job>)
    ensures forall job :: job in r <==> job in s && !PassesAll(job, f, stages)
  {
    if s == [] then []
    else if PassesAll(s[0], f, stages) then Rejected(s[1..], f, stages)
    else [s[0]] + Rejected(s[1..], f, stages)
  }

  /** The result of a search: the whole chain applied to the loaded jobs. */
  function Search(jobs: seq<Job>, f: Filters): (r: seq<Job>)
    ensures |r| <= |jobs|
    ensures forall job :: job in r <==> job in jobs && PassesAll(job, f, AllStages)
  {
    Where(jobs, f, AllStages)
  }

  /** `a` is `b` with some elements removed, the rest in order. */
  ghost predicate IsSubsequence(a: seq<Job>, b: seq<Job>) {
    if a == [] then true
    else if b == [] then false
    else if a[0] == b[0] then IsSubsequence(a[1..], b[1..])
    else IsSubsequence(a, b[1..])
  }

  // ---------------------------------------------------------------------------
  // Properties of the filter chain

  /** The search keeps the jobs in their original order. */
  lemma {:induction false} WhereIsSubsequence(s: seq<Job>, f: Filters, stages: seq<Stage>)
    ensures IsSubsequence(Where(s, f, stages), s)
  {
    if s != [] {
      WhereIsSubsequence(s[1..], f, stages);
      if !PassesAll(s[0], f, stages) {
        SubsequenceOfTail(Where(s[1..], f, stages), s);
      }
    }
  }

  lemma {:induction false} SubsequenceOfTail(a: seq<Job>, b: seq<Job>)
    requires b != [] && IsSubsequence(a, b[1..])
    ensures IsSubsequence(a, b)
  {
    if a != [] && a[0] == b[0] {
      SubsequenceDropFirst(a, b[1..]);
    }
  }

  lemma {:induction false} SubsequenceDropFirst(a: seq<Job>, b: seq<Job>)
    requires a != [] && IsSubsequence(a, b)
    ensures IsSubsequence(a[1..], b)
  {
    if b != [] {
      if a[0] == b[0] {
        if a[1..] != [] {
          SubsequenceOfTail(a[1..], b);
        }
      } else {
        SubsequenceDropFirst(a, b[1..]);
        if a[1..] != [] {
          SubsequenceOfTail(a[1..], b);
        }
      }
    }
  }

  /** Kept and dropped jobs together are exactly the loaded jobs. */
  lemma {:induction false} WherePartition(s: seq<Job>, f: Filters, stages: seq<Stage>)
    ensures multiset(Where(s, f, stages)) + multiset(Rejected(s, f, stages)) == multiset(s)
  {
    if s != [] {
      WherePartition(s[1..], f, stages);
      assert s == [s[0]] + s[1..];
    }
  }

  /** A dropped job fails at least one stage. */
  lemma DroppedFailsSomeStage(s: seq<Job>, f: Filters, job: Job)
    requires job in s && job !in Search(s, f)
    ensures exists i :: 0 <= i < |AllStages| && !Passes(job, f, AllStages[i])
  {
  }

  /** Running the stages one after the other is running them together. */
  lemma {:induction false} WhereComposes(s: seq<Job>, f: Filters, a: seq<Stage>, b: seq<Stage>)
    ensures Where(Where(s, f, a), f, b) == Where(s, f, a + b)
  {
    if s != [] {
      WhereComposes(s[1..], f, a, b);
      assert PassesAll(s[0], f, a + b) <==> PassesAll(s[0], f, a) && PassesAll(s[0], f, b) by {
        if PassesAll(s[0], f, a) && PassesAll(s[0], f, b) {
          forall i | 0 <= i < |a + b| ensures Passes(s[0], f, (a + b)[i]) {
            if i >= |a| {
              assert (a + b)[i] == b[i - |a|];
            }
          }
        }
        if PassesAll(s[0], f, a + b) {
          forall i | 0 <= i < |a| ensures Passes(s[0], f, a[i]) {
            assert (a + b)[i] == a[i];
          }
          forall i | 0 <= i < |b| ensures Passes(s[0], f, b[i]) {
            assert (a + b)[|a| + i] == b[i];
          }
        }
      }
    }
  }

  /** A stage that keeps every job leaves the result unchanged. */
  lemma {:induction false} WhereKeepsAll(s: seq<Job>, f: Filters, stages: seq<Stage>)
    requires forall job :: job in s ==> PassesAll(job, f, stages)
    ensures Where(s, f, stages) == s
  {
    if s != [] {
      WhereKeepsAll(s[1..], f, stages);
    }
  }

  /** With no stage, nothing is dropped. */
  lemma WhereNoStages(s: seq<Job>, f: Filters)
    ensures Where(s, f, []) == s
  {
    WhereKeepsAll(s, f, []);
  }

  /** An inactive stage imposes no constraint: an empty query, location or list, or the remote flag off. */
  lemma InactiveStageKeepsAll(s: seq<Job>, f: Filters, st: Stage)
    requires !Active(f, st)
    ensures Where(s, f, [st]) == s
  {
    WhereKeepsAll(s, f, [st]);
  }

  /** Filtering the result again with the same filters changes nothing. */
  lemma SearchIdempotent(jobs: seq<Job>, f: Filters)
    ensures Search(Search(jobs, f), f) == Search(jobs, f)
  {
    WhereKeepsAll(Search(jobs, f), f, AllStages);
  }

  /** Every result satisfies every active stage: the text, list, salary and remote conditions hold of it. */
  lemma SearchResultsMatch(jobs: seq<Job>, f: Filters, job: Job)
    requires job in Search(jobs, f)
    ensures f.query != [] ==> MatchesQuery(job, f.query)
    ensures f.location != [] ==> Contains(Lower(job.location), Lower(f.location))
    ensures |f.jobTypes| > 0 ==> job.jobType in f.jobTypes
    ensures |f.experienceLevels| > 0 ==> job.experienceLevel in f.experienceLevels
    ensures |f.categories| > 0 ==> job.category in f.categories
    ensures job.salary.None? || SalaryOverlaps(job.salary.value, f.salaryRange)
    ensures f.isRemote ==> job.isRemote
  {
    assert AllStages[0] == QueryStage && AllStages[1] == LocationStage && AllStages[2] == TypeStage;
    assert AllStages[3] == LevelStage && AllStages[4] == CategoryStage;
    assert AllStages[5] == SalaryStage && AllStages[6] == RemoteStage;
  }

  /** A job that satisfies every active condition is found. */
  lemma MatchingJobFound(jobs: seq<Job>, f: Filters, job: Job)
    requires job in jobs
    requires f.query != [] ==> MatchesQuery(job, f.query)
    requires f.location != [] ==> Contains(Lower(job.location), Lower(f.location))
    requires |f.jobTypes| > 0 ==> job.jobType in f.jobTypes
    requires |f.experienceLevels| > 0 ==> job.experienceLevel in f.experienceLevels
    requires |f.categories| > 0 ==> job.category in f.categories
    requires job.salary.None? || SalaryOverlaps(job.salary.value, f.salaryRange)
    requires f.isRemote ==> job.isRemote
    ensures job in Search(jobs, f)
  {
  }

  /** Occurrence survives lower-casing both strings. */
  lemma ContainsLower(s: string, t: string)
    requires Contains(s, t)
    ensures Contains(Lower(s), Lower(t))
  {
    var i :| 0 <= i <= |s| && OccursAt(s, t, i);
    assert Lower(s)[i..i + |t|] == Lower(t) by {
      forall k | 0 <= k < |t| ensures Lower(s)[i..i + |t|][k] == Lower(t)[k] {
        assert s[i..i + |t|][k] == t[k];
      }
    }
    assert OccursAt(Lower(s), Lower(t), i);
  }

  /** A job whose title contains the query verbatim matches it, whatever the letter case of either. */
  lemma TitleMatchesQuery(job: Job, query: string)
    requires Contains(job.title, query)
    ensures MatchesQuery(job, query)
    ensures MatchesQuery(job, Upper(query))
  {
    ContainsLower(job.title, query);
    LowerAfterUpper(query);
  }

  /** Two stage lists that keep the same jobs give the same result. */
  lemma {:induction false} WhereAgree(s: seq<Job>, f: Filters, a: seq<Stage>, g: Filters, b: seq<Stage>)
    requires forall job :: PassesAll(job, f, a) == PassesAll(job, g, b)
    ensures Where(s, f, a) == Where(s, g, b)
  {
    if s != [] {
      WhereAgree(s[1..], f, a, g, b);
    }
  }

  /** The query's letter case does not change the result. */
  lemma QueryCaseInsensitive(jobs: seq<Job>, f: Filters)
    ensures Search(jobs, f.(query := Upper(f.query))) == Search(jobs, f)
    ensures Search(jobs, f.(query := Lower(f.query))) == Search(jobs, f)
  {
    LowerAfterUpper(f.query);
    LowerIdempotent(f.query);
    forall job, g | g == f.(query := Upper(f.query)) || g == f.(query := Lower(f.query))
      ensures PassesAll(job, g, AllStages) == PassesAll(job, f, AllStages)
    {
      assert forall i :: 0 <= i < |AllStages| ==> Passes(job, g, AllStages[i]) == Passes(job, f, AllStages[i]);
    }
    WhereAgree(jobs, f.(query := Upper(f.query)), AllStages, f, AllStages);
    WhereAgree(jobs, f.(query := Lower(f.query)), AllStages, f, AllStages);
  }

  /** The "Clear filters" search still applies the salary stage, and nothing else. */
  lemma DefaultSearchIsSalaryOnly(jobs: seq<Job>)
    ensures Search(jobs, DefaultFilters) == Where(jobs, DefaultFilters, [SalaryStage])
  {
    forall job ensures PassesAll(job, DefaultFilters, AllStages) == PassesAll(job, DefaultFilters, [SalaryStage]) {
      assert forall i :: 0 <= i < |AllStages| && i != 5 ==> !Active(DefaultFilters, AllStages[i]);
      assert [SalaryStage][0] == AllStages[5];
    }
    WhereAgree(jobs, DefaultFilters, AllStages, DefaultFilters, [SalaryStage]);
  }

  /** The salary stage runs even with the default filters: a job paying only above the slider's top is dropped. */
  lemma DefaultFiltersDropHighSalary(jobs: seq<Job>, job: Job)
    requires job.salary.Some? && job.salary.value.min > SalaryMax
    ensures job !in Search(jobs, DefaultFilters)
  {
    assert !Passes(job, DefaultFilters, AllStages[5]);
  }

  /** Both salary bounds are inclusive. */
  lemma SalaryBoundsInclusive(s: Salary, lo: int, hi: int)
    requires s.min == hi || s.max == lo
    requires s.min <= s.max && lo <= hi
    ensures SalaryOverlaps(s, (lo, hi))
  {
  }

  // ---------------------------------------------------------------------------
  // Pages

  const JobsPerPage: int := 6

  /** `Math.ceil(n / 6)` */
  function TotalPages(n: nat): (r: nat)
    ensures r * JobsPerPage >= n
    ensures r > 0 ==> (r - 1) * JobsPerPage < n
  {
    (n + JobsPerPage - 1) / JobsPerPage
  }

  /** A negative or too-large index as `Array.prototype.slice` normalises it. */
  function SliceIndex(i: int, n: nat): (r: nat)
    ensures r <= n
    ensures 0 <= i <= n ==> r == i
  {
    if i < 0 then (if n + i < 0 then 0 else n + i)
    else if i > n then n
    else i
  }

  /** `s.slice(start, end)` */
  function Slice<T>(s: seq<T>, start: int, end: int): (r: seq<T>)
    ensures |r| <= |s|
    ensures start <= end ==> |r| <= end - start
    ensures forall x :: x in r ==> x in s
  {
    var a := SliceIndex(start, |s|);
    var b := SliceIndex(end, |s|);
    if a < b then s[a..b] else []
  }

  /** The jobs shown on page `p`. */
  function PageItems<T>(s: seq<T>, p: int): (r: seq<T>)
    ensures |r| <= JobsPerPage
    ensures forall x :: x in r ==> x in s
  {
    Slice(s, (p - 1) * JobsPerPage, p * JobsPerPage)
  }

  function Min(a: int, b: int): int { if a < b then a else b }

  function Max(a: int, b: int): int { if a < b then b else a }

  /** Page `p >= 1` holds the jobs from `(p-1)*6` up to `p*6`, cut at the end of the list. */
  lemma PageWindow<T>(s: seq<T>, p: int)
    requires p >= 1
    ensures PageItems(s, p) == s[Min((p - 1) * JobsPerPage, |s|)..Min(p * JobsPerPage, |s|)]
  {
  }

  /** Pages `1..k` one after the other. */
  function Pages<T>(s: seq<T>, k: nat): seq<T> {
    if k == 0 then [] else Pages(s, k - 1) + PageItems(s, k)
  }

  lemma {:induction false} PagesPrefix<T>(s: seq<T>, k: nat)
    ensures Pages(s, k) == s[..Min(k * JobsPerPage, |s|)]
  {
    if k > 0 {
      PagesPrefix(s, k - 1);
      PageWindow(s, k);
    }
  }

  /** Concatenating pages 1 to `TotalPages` gives back the whole list. */
  lemma PagesCoverList<T>(s: seq<T>)
    ensures Pages(s, TotalPages(|s|)) == s
  {
    PagesPrefix(s, TotalPages(|s|));
  }

  /** Every page up to `TotalPages` has a job on it; every page after it is empty. */
  lemma PageEmptyIffPastEnd<T>(s: seq<T>, p: int)
    requires p >= 1
    ensures PageItems(s, p) == [] <==> p > TotalPages(|s|)
  {
    PageWindow(s, p);
  }

  /** The count in the header: `totalPages || 1`. */
  function DisplayedTotal(n: nat): (r: nat)
    ensures r >= 1
    ensures r == Max(TotalPages(n), 1)
  {
    if TotalPages(n) == 0 then 1 else TotalPages(n)
  }

  /** The pagination controls render only when there is more than one page. */
  predicate ShowPagination(n: nat)
    ensures ShowPagination(n) <==> n > JobsPerPage
  {
    TotalPages(n) > 1
  }

  /** `Math.max(p - 1, 1)` */
  function PreviousPage(p: int): (r: int)
    ensures r >= 1
    ensures p > 1 ==> r == p - 1
    ensures p <= 1 ==> r == 1
  {
    Max(p - 1, 1)
  }

  /** `Math.min(p + 1, totalPages)` */
  function NextPage(p: int, total: nat): (r: int)
    ensures r <= total
    ensures p < total ==> r == p + 1
    ensures p >= total ==> r == total
  {
    Min(p + 1, total)
  }

  /** Previous and Next keep a page inside `[1, totalPages]`. */
  lemma PreviousNextStayInRange(p: int, total: nat)
    requires 1 <= p <= total
    ensures 1 <= PreviousPage(p) <= total
    ensures 1 <= NextPage(p, total) <= total
  {
  }

  // ---------------------------------------------------------------------------
  // The `?category=` label

  /** `c.toLowerCase().replace('_', ' ')` */
  function CategoryKey(c: JobCategory): (r: string)
    ensures |r| == |CategoryValue(c)|
  {
    ReplaceFirst(Lower(CategoryValue(c)), '_', ' ')
  }

  /** `cs.find(c => CategoryKey(c) === key)` */
  function FindCategory(cs: seq<JobCategory>, key: string): (r: Option<JobCategory>)
    ensures r.Some? ==> r.value in cs && CategoryKey(r.value) == key
    ensures r.None? ==> forall i :: 0 <= i < |cs| ==> CategoryKey(cs[i]) != key
    ensures r.Some? ==> exists i :: 0 <= i < |cs| && cs[i] == r.value &&
                                    (forall j :: 0 <= j < i ==> CategoryKey(cs[j]) != key)
  {
    if cs == [] then None
    else if CategoryKey(cs[0]) == key then Some(cs[0])
    else
      var r := FindCategory(cs[1..], key);
      if r.Some? then
        var i :| 0 <= i < |cs| - 1 && cs[1..][i] == r.value &&
                 (forall j :: 0 <= j < i ==> CategoryKey(cs[1..][j]) != key);
        assert cs[i + 1] == r.value;
        assert forall j :: 0 <= j < i + 1 ==> CategoryKey(cs[j]) != key by {
          forall j | 0 <= j < i + 1 ensures CategoryKey(cs[j]) != key {
            if j > 0 {
              assert cs[j] == cs[1..][j - 1];
            }
          }
        }
        r
      else r
  }

  /** The category a URL label selects, if any. */
  function MatchCategory(name: string): (r: Option<JobCategory>)
    ensures r.Some? ==> CategoryKey(r.value) == Lower(name)
    ensures r.None? ==> forall c :: CategoryKey(c) != Lower(name)
  {
    var r := FindCategory(AllCategories, Lower(name));
    if r.None? then
      assert forall c :: c in AllCategories by {
        forall c ensures c in AllCategories {
          AllCategoriesListed(c);
        }
      }
      NoCategoryWithKey(AllCategories, Lower(name));
      r
    else r
  }

  /** A character string that could be an enumeration value: no lower-case letters and no spaces. */
  predicate IsConstantName(v: string) {
    forall i :: 0 <= i < |v| ==> !IsLowerAscii(v[i]) && v[i] != ' '
  }

  /** Every space becomes `_` again. */
  function Unspace(s: string): (r: string)
    ensures |r| == |s|
    ensures forall i :: 0 <= i < |s| ==> r[i] == if s[i] == ' ' then '_' else s[i]
  {
    seq(|s|, i requires 0 <= i < |s| => if s[i] == ' ' then '_' else s[i])
  }

  lemma {:induction false} UnspaceReplaceFirst(s: string)
    requires ' ' !in s
    ensures Unspace(ReplaceFirst(s, '_', ' ')) == s
  {
    if s != [] {
      UnspaceReplaceFirst(s[1..]);
      if s[0] == '_' {
        assert Unspace([' '] + s[1..]) == ['_'] + Unspace(s[1..]);
        UnspaceNoSpace(s[1..]);
      } else {
        var t := ReplaceFirst(s[1..], '_', ' ');
        assert Unspace([s[0]] + t) == [s[0]] + Unspace(t);
      }
    }
  }

  lemma UnspaceNoSpace(s: string)
    requires ' ' !in s
    ensures Unspace(s) == s
  {
  }

  /** Upper-casing undoes lower-casing on a string with no lower-case letters. */
  lemma UpperLower(s: string)
    requires forall i :: 0 <= i < |s| ==> !IsLowerAscii(s[i])
    ensures Upper(Lower(s)) == s
  {
  }

  /** The value of a category can be read back from its key, so keys are distinct. */
  lemma CategoryKeyInverse(c: JobCategory)
    ensures Upper(Unspace(CategoryKey(c))) == CategoryValue(c)
  {
    var v := CategoryValue(c);
    CategoryValuesAreConstantNames(c);
    assert ' ' !in Lower(v) by {
      forall i | 0 <= i < |v| ensures Lower(v)[i] != ' ' {
      }
    }
    UnspaceReplaceFirst(Lower(v));
    UpperLower(v);
  }

  lemma CategoryValuesAreConstantNames(c: JobCategory)
    ensures IsConstantName(CategoryValue(c))
  {
  }

  lemma CategoryValueInjective(c: JobCategory, d: JobCategory)
    requires CategoryValue(c) == CategoryValue(d)
    ensures c == d
  {
  }

  lemma CategoryKeyInjective(c: JobCategory, d: JobCategory)
    requires CategoryKey(c) == CategoryKey(d)
    ensures c == d
  {
    CategoryKeyInverse(c);
    CategoryKeyInverse(d);
    CategoryValueInjective(c, d);
  }

  lemma AllCategoriesListed(c: JobCategory)
    ensures c in AllCategories
  {
  }

  /** When the search through a list holding every category finds nothing, no category has the key. */
  lemma NoCategoryWithKey(cs: seq<JobCategory>, key: string)
    requires forall c :: c in cs
    requires FindCategory(cs, key).None?
    ensures forall c :: CategoryKey(c) != key
  {
    forall c ensures CategoryKey(c) != key {
      assert c in cs;
      var i :| 0 <= i < |cs| && cs[i] == c;
      assert CategoryKey(cs[i]) != key;
    }
  }

  /** A category in the list is the one found by its own key. */
  lemma {:induction false} FindCategoryFinds(cs: seq<JobCategory>, c: JobCategory)
    requires c in cs
    ensures FindCategory(cs, CategoryKey(c)) == Some(c)
  {
    if CategoryKey(cs[0]) == CategoryKey(c) {
      CategoryKeyInjective(cs[0], c);
    } else {
      FindCategoryFinds(cs[1..], c);
    }
  }

  /** The label the filter panel shows for a category selects that category again. */
  lemma CategoryLabelRoundTrip(c: JobCategory)
    ensures MatchCategory(CategoryLabel(c)) == Some(c)
  {
    AllCategoriesListed(c);
    FindCategoryFinds(AllCategories, c);
  }

  /** The category names on the landing page, each linked as `/jobs?category=<name>`. */
  const LandingCategories: seq<(string, JobCategory)> := [
    ("Technology", Technology), ("Marketing", Marketing), ("Design", Design),
    ("Business", Business), ("Customer Service", CustomerService), ("Healthcare", Healthcare)]

  /** Every landing-page link selects its category. */
  lemma LandingCategoriesResolve(i: int)
    requires 0 <= i < |LandingCategories|
    ensures MatchCategory(LandingCategories[i].0) == Some(LandingCategories[i].1)
  {
    match i
    case 0 => TechnologyLabel(); CategoryLabelRoundTrip(Technology);
    case 1 => MarketingLabel(); CategoryLabelRoundTrip(Marketing);
    case 2 => DesignLabel(); CategoryLabelRoundTrip(Design);
    case 3 => BusinessLabel(); CategoryLabelRoundTrip(Business);
    case 4 => CustomerServiceLabel(); CategoryLabelRoundTrip(CustomerService);
    case 5 => HealthcareLabel(); CategoryLabelRoundTrip(Healthcare);
  }

  // ---------------------------------------------------------------------------
  // The page's state

  /** One stage of the chain: a guarded stage that is skipped adds nothing to the chain so far. */
  lemma StageStep(s: seq<Job>, f: Filters, done: seq<Stage>, st: Stage)
    ensures Where(s, f, done + [st]) ==
      if Active(f, st) then Where(Where(s, f, done), f, [st]) else Where(s, f, done)
  {
    WhereComposes(s, f, done, [st]);
    if !Active(f, st) {
      InactiveStageKeepsAll(Where(s, f, done), f, st);
    }
  }

  /**
   * One `if (guard) results = results.filter(...)` step of `handleSearch`,
   * the `k`-th of the chain: having run the first `k` stages, it has run `k + 1`.
   */
  method ApplyStage(results: seq<Job>, f: Filters, k: nat, ghost jobs: seq<Job>) returns (r: seq<Job>)
    requires k < |AllStages| && results == Where(jobs, f, AllStages[..k])
    ensures r == Where(jobs, f, AllStages[..k + 1])
  {
    var st := AllStages[k];
    if Active(f, st) {
      r := Where(results, f, [st]);
    } else {
      r := results;
    }
    StageStep(jobs, f, AllStages[..k], st);
    assert AllStages[..k] + [st] == AllStages[..k + 1];
  }

  class JobsPage {
    var jobs: seq<Job>
    var filteredJobs: seq<Job>
    var currentPage: int
    var isLoading: bool
    var filters: Filters

    /** The page number stays between 1 and the count the header shows. */
    predicate PageInRange()
      reads this
      ensures PageInRange() && filteredJobs != [] ==> Paginated() != []
    {
      PageEmptyIffPastEnd(filteredJobs, Max(currentPage, 1));
      1 <= currentPage <= DisplayedTotal(|filteredJobs|)
    }

    /** `paginatedJobs` */
    function Paginated(): (r: seq<Job>)
      reads this
      ensures |r| <= JobsPerPage
      ensures forall job :: job in r ==> job in filteredJobs
    {
      PageItems(filteredJobs, currentPage)
    }

    /** The state on mount: loading, nothing loaded, page 1, the default filters. */
    constructor ()
      ensures jobs == [] && filteredJobs == [] && currentPage == 1 && isLoading && filters == DefaultFilters
      ensures PageInRange()
    {
      jobs := [];
      filteredJobs := [];
      currentPage := 1;
      isLoading := true;
      filters := DefaultFilters;
    }

    /** `fetchJobs`: the loaded jobs are shown unfiltered and loading ends. */
    method FetchJobs(loaded: seq<Job>)
      modifies this
      ensures jobs == loaded && filteredJobs == loaded && !isLoading
      ensures currentPage == old(currentPage) && filters == old(filters)
    {
      isLoading := true;
      jobs := loaded;
      filteredJobs := loaded;
      isLoading := false;
    }

    /** `handleSearch`: the stages run one after another over the loaded jobs, and the page resets to 1. */
    method HandleSearch(f: Filters)
      modifies this
      ensures jobs == old(jobs) && filters == f
      ensures filteredJobs == Search(jobs, f)
      ensures currentPage == 1 && !isLoading
      ensures PageInRange()
    {
      isLoading := true;
      filters := f;
      var results := jobs;
      WhereNoStages(jobs, f);
      results := ApplyStage(results, f, 0, jobs);  // title, company or description
      results := ApplyStage(results, f, 1, jobs);  // location
      results := ApplyStage(results, f, 2, jobs);  // job types
      results := ApplyStage(results, f, 3, jobs);  // experience levels
      results := ApplyStage(results, f, 4, jobs);  // categories
      results := ApplyStage(results, f, 5, jobs);  // salary, always
      results := ApplyStage(results, f, 6, jobs);  // remote only
      assert AllStages[..7] == AllStages;
      filteredJobs := results;
      currentPage := 1;
      isLoading := false;
    }

    /** The "Clear filters" button of the empty result: a search with the default filters. */
    method ClearFilters()
      modifies this
      ensures jobs == old(jobs) && filters == DefaultFilters
      ensures filteredJobs == Where(jobs, DefaultFilters, [SalaryStage])
      ensures currentPage == 1 && !isLoading
    {
      HandleSearch(DefaultFilters);
      DefaultSearchIsSalaryOnly(jobs);
    }

    /** The Previous control, rendered only when there is more than one page. */
    method PreviousPageClicked()
      requires ShowPagination(|filteredJobs|)
      modifies this
      ensures currentPage == PreviousPage(old(currentPage))
      ensures old(PageInRange()) ==> PageInRange()
      ensures jobs == old(jobs) && filteredJobs == old(filteredJobs) && filters == old(filters) && isLoading == old(isLoading)
    {
      currentPage := PreviousPage(currentPage);
    }

    /** The Next control, rendered only when there is more than one page. */
    method NextPageClicked()
      requires ShowPagination(|filteredJobs|)
      modifies this
      ensures currentPage == NextPage(old(currentPage), TotalPages(|filteredJobs|))
      ensures old(PageInRange()) ==> PageInRange()
      ensures jobs == old(jobs) && filteredJobs == old(filteredJobs) && filters == old(filters) && isLoading == old(isLoading)
    {
      currentPage := NextPage(currentPage, TotalPages(|filteredJobs|));
    }

    /** A numbered page button `index + 1`. */
    method PageClicked(index: nat)
      requires ShowPagination(|filteredJobs|) && index < TotalPages(|filteredJobs|)
      modifies this
      ensures currentPage == index + 1
      ensures PageInRange()
      ensures jobs == old(jobs) && filteredJobs == old(filteredJobs) && filters == old(filters) && isLoading == old(isLoading)
    {
      currentPage := index + 1;
    }

    /**
     * The `location.search` effect: a non-empty `category` parameter that
     * matches a category replaces the selected categories with it and runs a
     * search; anything else leaves the page as it is.
     */
    method CategoryParamChanged(param: Option<string>)
      modifies this
      ensures param.Some? && param.value != [] && MatchCategory(param.value).Some? ==>
        var f := old(filters).(categories := [MatchCategory(param.value).value]);
        filters == f && filteredJobs == Search(jobs, f) && currentPage == 1 && !isLoading && jobs == old(jobs)
      ensures !(param.Some? && param.value != [] && MatchCategory(param.value).Some?) ==>
        filters == old(filters) && filteredJobs == old(filteredJobs) && currentPage == old(currentPage) &&
        isLoading == old(isLoading) && jobs == old(jobs)
    {
      if param.Some? && param.value != [] {
        var matched := MatchCategory(param.value);
        if matched.Some? {
          var initialFilters := filters.(categories := [matched.value]);
          HandleSearch(initialFilters);
        }
      }
    }
  }
}
