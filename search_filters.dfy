/**
 * The search-filter panel (src/components/SearchFilters.tsx): the filter
 * record, the toggle-in-list updaters, single-field edits, reset to the
 * defaults, the "Clear All" visibility rule, the enumeration label
 * formatter, and the panel's own state (`filters`, `sheetOpen`).
 */
module SearchFilters {
  import opened Domain
  import opened Text

  datatype Filters = Filters(
    query: string,
    location: string,
    jobTypes: seq<JobType>,
    experienceLevels: seq<ExperienceLevel>,
    categories: seq<JobCategory>,
    salaryRange: (int, int),
    isRemote: bool)

  /** Bounds of the salary slider (0 to 200000 in steps of 10000). */
  const SalaryMin: int := 0
  const SalaryMax: int := 200000

  const DefaultFilters: Filters := Filters("", "", [], [], [], (SalaryMin, SalaryMax), false)

  // ---------------------------------------------------------------------------
  // Toggling a value in a list

  predicate NoDuplicates<T(==)>(xs: seq<T>) {
    forall i, j :: 0 <= i < j < |xs| ==> xs[i] != xs[j]
  }

  /** `xs.filter(y => y !== x)`: every occurrence of `x` goes, the rest keep their order. */
  function RemoveAll<T(==)>(xs: seq<T>, x: T): (r: seq<T>)
    ensures x !in r
    ensures forall i :: 0 <= i < |r| ==> r[i] in xs
    ensures forall i :: 0 <= i < |xs| && xs[i] != x ==> xs[i] in r
    ensures x !in xs ==> r == xs
    ensures multiset(r) == multiset(xs)[x := 0]
    ensures |r| == |xs| - multiset(xs)[x]
  {
    if xs == [] then []
    else
      assert xs == [xs[0]] + xs[1..];
      if xs[0] == x then RemoveAll(xs[1..], x)
      else [xs[0]] + RemoveAll(xs[1..], x)
  }

  /** Removal works piece by piece, so the kept elements stay in their order. */
  lemma {:induction false} RemoveAllDistributes<T>(a: seq<T>, b: seq<T>, x: T)
    ensures RemoveAll(a + b, x) == RemoveAll(a, x) + RemoveAll(b, x)
  {
    if a == [] {
      assert a + b == b;
    } else {
      assert (a + b)[0] == a[0];
      assert (a + b)[1..] == a[1..] + b;
      RemoveAllDistributes(a[1..], b, x);
    }
  }

  /** A single element is kept exactly when it is not the removed value. */
  lemma RemoveAllSingle<T>(y: T, x: T)
    ensures RemoveAll([y], x) == if y == x then [] else [y]
  {
  }

  /** `xs.includes(x) ? xs.filter(y => y !== x) : [...xs, x]` */
  function Toggle<T(==)>(xs: seq<T>, x: T): (r: seq<T>)
    ensures x in r <==> x !in xs
    ensures forall i :: 0 <= i < |r| && r[i] != x ==> r[i] in xs
    ensures forall i :: 0 <= i < |xs| && xs[i] != x ==> xs[i] in r
    ensures x !in xs ==> r == xs + [x]
    ensures x in xs ==> r == RemoveAll(xs, x) && multiset(r) == multiset(xs)[x := 0]
  {
    if x in xs then RemoveAll(xs, x) else xs + [x]
  }

  lemma {:induction false} RemoveAllKeepsNoDuplicates<T>(xs: seq<T>, x: T)
    requires NoDuplicates(xs)
    ensures NoDuplicates(RemoveAll(xs, x))
  {
    if xs != [] {
      RemoveAllKeepsNoDuplicates(xs[1..], x);
      if xs[0] != x {
        var rest := RemoveAll(xs[1..], x);
        assert xs[0] !in xs[1..];
        assert xs[0] !in rest;
        var r := [xs[0]] + rest;
        forall i, j | 0 <= i < j < |r| ensures r[i] != r[j] {
          if i == 0 {
            assert r[j] in rest;
          } else {
            assert r[i] == rest[i - 1] && r[j] == rest[j - 1];
          }
        }
      }
    }
  }

  /** Toggling keeps a duplicate-free list duplicate-free. */
  lemma ToggleKeepsNoDuplicates<T>(xs: seq<T>, x: T)
    requires NoDuplicates(xs)
    ensures NoDuplicates(Toggle(xs, x))
  {
    if x in xs {
      RemoveAllKeepsNoDuplicates(xs, x);
    } else {
      var r := xs + [x];
      forall i, j | 0 <= i < j < |r| ensures r[i] != r[j] {
        if j == |xs| {
          assert r[i] == xs[i];
        }
      }
    }
  }

  lemma {:induction false} RemoveAllAfterAppend<T>(xs: seq<T>, x: T)
    requires x !in xs
    ensures RemoveAll(xs + [x], x) == xs
  {
    if xs == [] {
      assert [x][1..] == [];
    } else {
      assert (xs + [x])[1..] == xs[1..] + [x];
      RemoveAllAfterAppend(xs[1..], x);
    }
  }

  /** Toggling an absent value twice gives back the original list. */
  lemma ToggleTwiceAbsent<T>(xs: seq<T>, x: T)
    requires x !in xs
    ensures Toggle(Toggle(xs, x), x) == xs
  {
    RemoveAllAfterAppend(xs, x);
  }

  function ToggleJobType(f: Filters, t: JobType): (r: Filters)
    ensures r == f.(jobTypes := r.jobTypes)
    ensures t in r.jobTypes <==> t !in f.jobTypes
    ensures t !in f.jobTypes ==> r.jobTypes == f.jobTypes + [t]
    ensures t in f.jobTypes ==> r.jobTypes == RemoveAll(f.jobTypes, t)
  {
    f.(jobTypes := Toggle(f.jobTypes, t))
  }

  function ToggleExperienceLevel(f: Filters, l: ExperienceLevel): (r: Filters)
    ensures r == f.(experienceLevels := r.experienceLevels)
    ensures l in r.experienceLevels <==> l !in f.experienceLevels
    ensures l !in f.experienceLevels ==> r.experienceLevels == f.experienceLevels + [l]
    ensures l in f.experienceLevels ==> r.experienceLevels == RemoveAll(f.experienceLevels, l)
  {
    f.(experienceLevels := Toggle(f.experienceLevels, l))
  }

  function ToggleCategory(f: Filters, c: JobCategory): (r: Filters)
    ensures r == f.(categories := r.categories)
    ensures c in r.categories <==> c !in f.categories
    ensures c !in f.categories ==> r.categories == f.categories + [c]
    ensures c in f.categories ==> r.categories == RemoveAll(f.categories, c)
  {
    f.(categories := Toggle(f.categories, c))
  }

  // ---------------------------------------------------------------------------
  // Editing one field

  datatype Field = QueryField | LocationField | JobTypesField | ExperienceLevelsField
                 | CategoriesField | SalaryRangeField | IsRemoteField

  /** The `value: any` argument of `handleInputChange`, one case per field type. */
  datatype FieldValue =
    | TextValue(text: string)
    | JobTypesValue(jobTypes: seq<JobType>)
    | LevelsValue(levels: seq<ExperienceLevel>)
    | CategoriesValue(categories: seq<JobCategory>)
    | RangeValue(range: (int, int))
    | FlagValue(flag: bool)

  /** Every caller passes a value of the field's own type. */
  predicate Fits(field: Field, v: FieldValue) {
    match field
    case QueryField => v.TextValue?
    case LocationField => v.TextValue?
    case JobTypesField => v.JobTypesValue?
    case ExperienceLevelsField => v.LevelsValue?
    case CategoriesField => v.CategoriesValue?
    case SalaryRangeField => v.RangeValue?
    case IsRemoteField => v.FlagValue?
  }

  /** Reads one field of the record. */
  function Get(f: Filters, field: Field): (v: FieldValue)
    ensures Fits(field, v)
  {
    match field
    case QueryField => TextValue(f.query)
    case LocationField => TextValue(f.location)
    case JobTypesField => JobTypesValue(f.jobTypes)
    case ExperienceLevelsField => LevelsValue(f.experienceLevels)
    case CategoriesField => CategoriesValue(f.categories)
    case SalaryRangeField => RangeValue(f.salaryRange)
    case IsRemoteField => FlagValue(f.isRemote)
  }

  /** Two filter records that agree on every field are equal. */
  lemma FiltersExtensional(a: Filters, b: Filters)
    requires forall field :: Get(a, field) == Get(b, field)
    ensures a == b
  {
    assert Get(a, QueryField) == Get(b, QueryField);
    assert Get(a, LocationField) == Get(b, LocationField);
    assert Get(a, JobTypesField) == Get(b, JobTypesField);
    assert Get(a, ExperienceLevelsField) == Get(b, ExperienceLevelsField);
    assert Get(a, CategoriesField) == Get(b, CategoriesField);
    assert Get(a, SalaryRangeField) == Get(b, SalaryRangeField);
    assert Get(a, IsRemoteField) == Get(b, IsRemoteField);
  }

  /** `{ ...prev, [field]: value }` */
  function SetField(f: Filters, field: Field, v: FieldValue): (r: Filters)
    requires Fits(field, v)
    ensures Get(r, field) == v
    ensures forall other :: other != field ==> Get(r, other) == Get(f, other)
  {
    match field
    case QueryField => f.(query := v.text)
    case LocationField => f.(location := v.text)
    case JobTypesField => f.(jobTypes := v.jobTypes)
    case ExperienceLevelsField => f.(experienceLevels := v.levels)
    case CategoriesField => f.(categories := v.categories)
    case SalaryRangeField => f.(salaryRange := v.range)
    case IsRemoteField => f.(isRemote := v.flag)
  }

  /** Writing the same field twice keeps only the last value. */
  lemma SetFieldLastWins(f: Filters, field: Field, v: FieldValue, w: FieldValue)
    requires Fits(field, v) && Fits(field, w)
    ensures SetField(SetField(f, field, v), field, w) == SetField(f, field, w)
  {
    FiltersExtensional(SetField(SetField(f, field, v), field, w), SetField(f, field, w));
  }

  /** Edits of different fields do not interfere. */
  lemma SetFieldCommutes(f: Filters, a: Field, v: FieldValue, b: Field, w: FieldValue)
    requires a != b && Fits(a, v) && Fits(b, w)
    ensures SetField(SetField(f, a, v), b, w) == SetField(SetField(f, b, w), a, v)
  {
    FiltersExtensional(SetField(SetField(f, a, v), b, w), SetField(SetField(f, b, w), a, v));
  }

  // ---------------------------------------------------------------------------
  // "Clear All"

  /** The "Clear All" button: any list non-empty or remote-only set; text and salary do not count. */
  predicate ShowClearAll(f: Filters)
    ensures !ShowClearAll(f) <==> f.jobTypes == [] && f.experienceLevels == [] && f.categories == [] && !f.isRemote
  {
    |f.jobTypes| > 0 || |f.experienceLevels| > 0 || |f.categories| > 0 || f.isRemote
  }

  lemma ClearAllIgnoresTextAndSalary(f: Filters, q: string, loc: string, range: (int, int))
    ensures ShowClearAll(f.(query := q, location := loc, salaryRange := range)) == ShowClearAll(f)
    ensures !ShowClearAll(DefaultFilters)
  {
  }

  /** Toggling a value into any list makes "Clear All" appear. */
  lemma ToggleInShowsClearAll(f: Filters, t: JobType, l: ExperienceLevel, c: JobCategory)
    ensures t !in f.jobTypes ==> ShowClearAll(ToggleJobType(f, t))
    ensures l !in f.experienceLevels ==> ShowClearAll(ToggleExperienceLevel(f, l))
    ensures c !in f.categories ==> ShowClearAll(ToggleCategory(f, c))
  {
  }

  // ---------------------------------------------------------------------------
  // Labels

  /** `v.replace('_', ' ').toLowerCase().replace(/\b\w/g, upper)`, for job types and categories. */
  function FormatEnumLabel(v: string): (r: string)
    ensures |r| == |v|
    ensures Lower(r) == ReplaceFirst(Lower(v), '_', ' ')
  {
    var w := ReplaceFirst(v, '_', ' ');
    LowerAfterTitleCase(Lower(w));
    LowerIdempotent(w);
    LowerReplaceFirstCommute(v);
    TitleCase(Lower(w))
  }

  /** `v.toLowerCase().replace(/\b\w/g, upper)`, for experience levels (no underscore step). */
  function FormatLevelLabel(v: string): (r: string)
    ensures |r| == |v|
    ensures Lower(r) == Lower(v)
  {
    LowerAfterTitleCase(Lower(v));
    LowerIdempotent(v);
    TitleCase(Lower(v))
  }

  /** The label of a job-type checkbox (and of the posting form's select). */
  function JobTypeLabel(t: JobType): (r: string)
    ensures Lower(r) == ReplaceFirst(Lower(JobTypeValue(t)), '_', ' ')
  {
    FormatEnumLabel(JobTypeValue(t))
  }

  /** The label of an experience-level checkbox: the value with only its letter case changed. */
  function ExperienceLevelLabel(l: ExperienceLevel): (r: string)
    ensures Lower(r) == Lower(ExperienceLevelValue(l))
  {
    FormatLevelLabel(ExperienceLevelValue(l))
  }

  /** The label of a category checkbox, which is also the `?category=` text that selects it. */
  function CategoryLabel(c: JobCategory): (r: string)
    ensures Lower(r) == ReplaceFirst(Lower(CategoryValue(c)), '_', ' ')
  {
    FormatEnumLabel(CategoryValue(c))
  }

  /** Formatting a value with an underscore: `BEFORE_AFTER` becomes the title-cased `before after`. */
  lemma FormatEnumLabelWithUnderscore(v: string, before: string, after: string, lowered: string, text: string)
    requires v == before + "_" + after && '_' !in before
    requires Lower(before + " " + after) == lowered && TitleCase(lowered) == text
    ensures FormatEnumLabel(v) == text
  {
    var s := before + ['_'] + after;
    assert s[..|before|] == before;
    assert s[|before| + 1..] == after;
    ReplaceFirstAt(s, '_', ' ', |before|);
  }

  /** Formatting a value without an underscore only changes letter case. */
  lemma FormatEnumLabelPlain(v: string, lowered: string, text: string)
    requires '_' !in v
    requires Lower(v) == lowered && TitleCase(lowered) == text
    ensures FormatEnumLabel(v) == text && FormatLevelLabel(v) == text
  {
  }

  // Each concrete label is proved in a lemma of its own: several literal
  // strings in one proof obligation make the solver evaluate all of them.

  lemma FullTimeLabel()
    ensures JobTypeLabel(FullTime) == "Full Time"
  {
    FormatEnumLabelWithUnderscore("FULL_TIME", "FULL", "TIME", "full time", "Full Time");
  }

  lemma PartTimeLabel()
    ensures JobTypeLabel(PartTime) == "Part Time"
  {
    FormatEnumLabelWithUnderscore("PART_TIME", "PART", "TIME", "part time", "Part Time");
  }

  lemma ContractLabel()
    ensures JobTypeLabel(Contract) == "Contract"
  {
    FormatEnumLabelPlain("CONTRACT", "contract", "Contract");
  }

  lemma FreelanceLabel()
    ensures JobTypeLabel(Freelance) == "Freelance"
  {
    FormatEnumLabelPlain("FREELANCE", "freelance", "Freelance");
  }

  lemma InternshipLabel()
    ensures JobTypeLabel(Internship) == "Internship"
  {
    FormatEnumLabelPlain("INTERNSHIP", "internship", "Internship");
  }

  /** The labels the job-type checkboxes show. */
  lemma JobTypeLabels(t: JobType)
    ensures JobTypeLabel(t) == match t
      case FullTime => "Full Time"
      case PartTime => "Part Time"
      case Contract => "Contract"
      case Freelance => "Freelance"
      case Internship => "Internship"
  {
    match t
    case FullTime => FullTimeLabel();
    case PartTime => PartTimeLabel();
    case Contract => ContractLabel();
    case Freelance => FreelanceLabel();
    case Internship => InternshipLabel();
  }

  lemma EntryLevelLabel()
    ensures ExperienceLevelLabel(Entry) == "Entry"
  {
    FormatEnumLabelPlain("ENTRY", "entry", "Entry");
  }

  lemma JuniorLevelLabel()
    ensures ExperienceLevelLabel(Junior) == "Junior"
  {
    FormatEnumLabelPlain("JUNIOR", "junior", "Junior");
  }

  lemma MidLevelLabel()
    ensures ExperienceLevelLabel(Mid) == "Mid"
  {
    FormatEnumLabelPlain("MID", "mid", "Mid");
  }

  lemma SeniorLevelLabel()
    ensures ExperienceLevelLabel(Senior) == "Senior"
  {
    FormatEnumLabelPlain("SENIOR", "senior", "Senior");
  }

  lemma LeadLevelLabel()
    ensures ExperienceLevelLabel(Lead) == "Lead"
  {
    FormatEnumLabelPlain("LEAD", "lead", "Lead");
  }

  lemma ExecutiveLevelLabel()
    ensures ExperienceLevelLabel(Executive) == "Executive"
  {
    FormatEnumLabelPlain("EXECUTIVE", "executive", "Executive");
  }

  /** The labels the experience-level checkboxes show. */
  lemma ExperienceLevelLabels(l: ExperienceLevel)
    ensures ExperienceLevelLabel(l) == match l
      case Entry => "Entry"
      case Junior => "Junior"
      case Mid => "Mid"
      case Senior => "Senior"
      case Lead => "Lead"
      case Executive => "Executive"
  {
    match l
    case Entry => EntryLevelLabel();
    case Junior => JuniorLevelLabel();
    case Mid => MidLevelLabel();
    case Senior => SeniorLevelLabel();
    case Lead => LeadLevelLabel();
    case Executive => ExecutiveLevelLabel();
  }

  lemma CustomerServiceLowered()
    ensures Lower("CUSTOMER" + " " + "SERVICE") == "customer service"
  {
  }

  lemma CustomerServiceTitled()
    ensures TitleCase("customer service") == "Customer Service"
  {
  }

  lemma CustomerServiceLabel()
    ensures CategoryLabel(CustomerService) == "Customer Service"
  {
    CustomerServiceLowered();
    CustomerServiceTitled();
    FormatEnumLabelWithUnderscore("CUSTOMER_SERVICE", "CUSTOMER", "SERVICE", "customer service", "Customer Service");
  }

  lemma TechnologyLabel()
    ensures CategoryLabel(Technology) == "Technology"
  {
    FormatEnumLabelPlain("TECHNOLOGY", "technology", "Technology");
  }

  lemma DesignLabel()
    ensures CategoryLabel(Design) == "Design"
  {
    FormatEnumLabelPlain("DESIGN", "design", "Design");
  }

  lemma MarketingLabel()
    ensures CategoryLabel(Marketing) == "Marketing"
  {
    FormatEnumLabelPlain("MARKETING", "marketing", "Marketing");
  }

  lemma BusinessLabel()
    ensures CategoryLabel(Business) == "Business"
  {
    FormatEnumLabelPlain("BUSINESS", "business", "Business");
  }

  lemma EngineeringLabel()
    ensures CategoryLabel(Engineering) == "Engineering"
  {
    FormatEnumLabelPlain("ENGINEERING", "engineering", "Engineering");
  }

  lemma HealthcareLabel()
    ensures CategoryLabel(Healthcare) == "Healthcare"
  {
    FormatEnumLabelPlain("HEALTHCARE", "healthcare", "Healthcare");
  }

  lemma EducationLabel()
    ensures CategoryLabel(Education) == "Education"
  {
    FormatEnumLabelPlain("EDUCATION", "education", "Education");
  }

  lemma FinanceLabel()
    ensures CategoryLabel(Finance) == "Finance"
  {
    FormatEnumLabelPlain("FINANCE", "finance", "Finance");
  }

  lemma OtherLabel()
    ensures CategoryLabel(Other) == "Other"
  {
    FormatEnumLabelPlain("OTHER", "other", "Other");
  }

  /** The labels the category checkboxes show. */
  lemma CategoryLabels(c: JobCategory)
    ensures CategoryLabel(c) == match c
      case Technology => "Technology"
      case Design => "Design"
      case Marketing => "Marketing"
      case Business => "Business"
      case Engineering => "Engineering"
      case CustomerService => "Customer Service"
      case Healthcare => "Healthcare"
      case Education => "Education"
      case Finance => "Finance"
      case Other => "Other"
  {
    match c
    case CustomerService => CustomerServiceLabel();
    case Technology => TechnologyLabel();
    case Design => DesignLabel();
    case Marketing => MarketingLabel();
    case Business => BusinessLabel();
    case Engineering => EngineeringLabel();
    case Healthcare => HealthcareLabel();
    case Education => EducationLabel();
    case Finance => FinanceLabel();
    case Other => OtherLabel();
  }

  // ---------------------------------------------------------------------------
  // The panel's state

  class FilterPanel {
    var filters: Filters
    var sheetOpen: bool

    /** `useState(initialFilters)`, where a missing prop means the defaults. */
    constructor (initial: Option<Filters>)
      ensures filters == (if initial.Some? then initial.value else DefaultFilters)
      ensures !sheetOpen
    {
      filters := if initial.Some? then initial.value else DefaultFilters;
      sheetOpen := false;
    }

    method HandleInputChange(field: Field, v: FieldValue)
      requires Fits(field, v)
      modifies this
      ensures filters == SetField(old(filters), field, v)
      ensures sheetOpen == old(sheetOpen)
    {
      filters := SetField(filters, field, v);
    }

    method OnToggleJobType(t: JobType)
      modifies this
      ensures filters == ToggleJobType(old(filters), t)
      ensures sheetOpen == old(sheetOpen)
    {
      filters := ToggleJobType(filters, t);
    }

    method OnToggleExperienceLevel(l: ExperienceLevel)
      modifies this
      ensures filters == ToggleExperienceLevel(old(filters), l)
      ensures sheetOpen == old(sheetOpen)
    {
      filters := ToggleExperienceLevel(filters, l);
    }

    method OnToggleCategory(c: JobCategory)
      modifies this
      ensures filters == ToggleCategory(old(filters), c)
      ensures sheetOpen == old(sheetOpen)
    {
      filters := ToggleCategory(filters, c);
    }

    method ResetFilters()
      modifies this
      ensures filters == DefaultFilters
      ensures !ShowClearAll(filters)
      ensures sheetOpen == old(sheetOpen)
    {
      filters := DefaultFilters;
    }

    /** Hands the current record to `onSearch` unchanged and closes the mobile sheet. */
    method HandleSubmit() returns (submitted: Filters)
      modifies this
      ensures submitted == old(filters) && filters == old(filters)
      ensures !sheetOpen
    {
      submitted := filters;
      if sheetOpen {
        sheetOpen := false;
      }
    }
  }
}
