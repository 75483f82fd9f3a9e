/**
 * The job card of the listing (src/components/JobCard.tsx): the job-type
 * badge with its colour, the experience-level text, the badges and lines it
 * shows only when the job has them, the applicant count, and the link to the
 * job's own page.  The details page (src/pages/JobDetails.tsx) repeats the
 * same two display tables, so both use the functions here.
 */
module JobCardView {
  import opened Domain
  import JobDetailsPage

  /** A badge: its text and its colour classes. */
  datatype Badge = Badge(text: string, color: string)

  /** The label half of `jobTypeDisplay[job.type]` */
  function JobTypeText(t: JobType): (r: string)
    ensures |r| > 0 && 'A' <= r[0] <= 'Z'
  {
    match t
    case FullTime => "Full-time"
    case PartTime => "Part-time"
    case Contract => "Contract"
    case Freelance => "Freelance"
    case Internship => "Internship"
  }

  /** The colour half of `jobTypeDisplay[job.type]` */
  function JobTypeColor(t: JobType): (r: string)
    ensures r != []
  {
    match t
    case FullTime => "bg-blue-100 text-blue-800 dark:bg-blue-900 dark:text-blue-200"
    case PartTime => "bg-purple-100 text-purple-800 dark:bg-purple-900 dark:text-purple-200"
    case Contract => "bg-orange-100 text-orange-800 dark:bg-orange-900 dark:text-orange-200"
    case Freelance => "bg-green-100 text-green-800 dark:bg-green-900 dark:text-green-200"
    case Internship => "bg-teal-100 text-teal-800 dark:bg-teal-900 dark:text-teal-200"
  }

  /** `jobTypeDisplay[job.type]`: the label, with the colour classes of its type. */
  function JobTypeBadge(t: JobType): (r: Badge)
    ensures r.text == JobTypeText(t) && r.color != []
  {
    Badge(JobTypeText(t), JobTypeColor(t))
  }

  /** `experienceLevelDisplay[job.experienceLevel]` */
  function ExperienceLevelText(l: ExperienceLevel): (r: string)
    ensures |r| > 0 && 'A' <= r[0] <= 'Z'
  {
    match l
    case Entry => "Entry Level"
    case Junior => "Junior"
    case Mid => "Mid-Level"
    case Senior => "Senior"
    case Lead => "Lead"
    case Executive => "Executive"
  }

  /** No two job types share a badge text, so the badge identifies the type. */
  lemma JobTypeTextsDistinct(a: JobType, b: JobType)
    ensures JobTypeText(a) == JobTypeText(b) ==> a == b
  {
  }

  /** No two experience levels read the same. */
  lemma ExperienceLevelTextsDistinct(a: ExperienceLevel, b: ExperienceLevel)
    ensures ExperienceLevelText(a) == ExperienceLevelText(b) ==> a == b
  {
  }

  // ---------------------------------------------------------------------------
  // Numbers as text

  predicate IsDigit(c: char) {
    '0' <= c <= '9'
  }

  function DigitChar(d: nat): (c: char)
    requires d < 10
    ensures IsDigit(c)
  {
    ('0' as int + d) as char
  }

  function DigitValue(c: char): (d: nat)
    requires IsDigit(c)
    ensures d < 10 && DigitChar(d) == c
  {
    c as int - '0' as int
  }

  /** The decimal digits of `n`, as `String(n)` writes a non-negative integer. */
  function NatToString(n: nat): (r: string)
    ensures |r| >= 1
    ensures forall i :: 0 <= i < |r| ==> IsDigit(r[i])
    ensures |r| > 1 ==> r[0] != '0'
    decreases n
  {
    if n < 10 then [DigitChar(n)]
    else
      var prefix := NatToString(n / 10);
      assert prefix[0] != '0' by {
        if |prefix| == 1 {
          assert prefix[0] == DigitChar(n / 10);
        }
      }
      prefix + [DigitChar(n % 10)]
  }

  /** `String(n)` for an integer `n`: a minus sign before the digits of a negative one. */
  function IntToString(n: int): (r: string)
    ensures |r| >= 1
    ensures n >= 0 <==> IsDigit(r[0])
  {
    if n < 0 then "-" + NatToString(-n) else NatToString(n)
  }

  /** The value of a string of decimal digits. */
  function ParseNat(s: string): nat
    requires forall i :: 0 <= i < |s| ==> IsDigit(s[i])
  {
    if s == [] then 0 else ParseNat(s[..|s| - 1]) * 10 + DigitValue(s[|s| - 1])
  }

  /** Reading the digits back gives the number. */
  lemma {:induction false} ParseNatToString(n: nat)
    ensures ParseNat(NatToString(n)) == n
    decreases n
  {
    if n >= 10 {
      var prefix := NatToString(n / 10);
      var s := prefix + [DigitChar(n % 10)];
      assert s[..|s| - 1] == prefix;
      ParseNatToString(n / 10);
    }
  }

  /** The longest run of digits at the start of `s`. */
  function LeadingDigits(s: string): (r: string)
    ensures |r| <= |s| && r == s[..|r|]
    ensures forall i :: 0 <= i < |r| ==> IsDigit(r[i])
    ensures |r| < |s| ==> !IsDigit(s[|r|])
  {
    if s == [] || !IsDigit(s[0]) then []
    else [s[0]] + LeadingDigits(s[1..])
  }

  lemma {:induction false} LeadingDigitsOfConcat(d: string, rest: string)
    requires forall i :: 0 <= i < |d| ==> IsDigit(d[i])
    requires rest == [] || !IsDigit(rest[0])
    ensures LeadingDigits(d + rest) == d
  {
    if d != [] {
      assert (d + rest)[1..] == d[1..] + rest;
      LeadingDigitsOfConcat(d[1..], rest);
    } else {
      assert d + rest == rest;
    }
  }

  // ---------------------------------------------------------------------------
  // The card

  /** "applicant" for exactly one, "applicants" otherwise (zero included). */
  function ApplicantNoun(n: int): (r: string)
    ensures r == "applicant" <==> n == 1
    ensures r == "applicants" <==> n != 1
  {
    "applicant" + (if n != 1 then "s" else "")
  }

  /** The footer's applicant count, shown only when the job carries a count. */
  function ApplicantsText(applications: Option<int>): (r: Option<string>)
    ensures r.None? <==> applications.None?
  {
    if applications.None? then None
    else Some(IntToString(applications.value) + " " + ApplicantNoun(applications.value))
  }

  /** The count a reader sees at the head of the footer text is the job's count. */
  lemma ApplicantsTextReadsBack(n: nat)
    ensures ApplicantsText(Some(n)).Some?
    ensures ParseNat(LeadingDigits(ApplicantsText(Some(n)).value)) == n
    ensures ApplicantsText(Some(n)).value == NatToString(n) + " " + ApplicantNoun(n)
  {
    var text := NatToString(n) + " " + ApplicantNoun(n);
    assert text == NatToString(n) + (" " + ApplicantNoun(n));
    LeadingDigitsOfConcat(NatToString(n), " " + ApplicantNoun(n));
    ParseNatToString(n);
  }

  /** What a card shows for a job; the posting time and salary figures are formatted by the browser. */
  datatype Card = Card(
    link: string,
    typeBadge: Badge,
    remoteBadge: bool,
    levelText: string,
    salaryLine: Option<Salary>,
    applicants: Option<string>)

  /** The route of a job's own page. */
  function JobLink(id: string): (r: string)
    ensures |r| == 6 + |id| && r[6..] == id
  {
    "/jobs/" + id
  }

  /** The id a `/jobs/:id` route carries, if the path is one. */
  function RouteId(path: string): (r: Option<string>)
    ensures r.Some? ==> path == JobLink(r.value)
  {
    if |path| >= 6 && path[..6] == "/jobs/" then
      assert path == path[..6] + path[6..];
      Some(path[6..])
    else None
  }

  function CardFor(job: Job): (c: Card)
    ensures c.remoteBadge <==> job.isRemote
    ensures c.salaryLine.Some? <==> job.salary.Some?
    ensures c.applicants.None? <==> job.applications.None?
    ensures RouteId(c.link) == Some(job.id)
  {
    var link := JobLink(job.id);
    assert link[..6] == "/jobs/";
    Card(link, JobTypeBadge(job.jobType), job.isRemote, ExperienceLevelText(job.experienceLevel),
         job.salary, ApplicantsText(job.applications))
  }

  /** A card of a job in the details table opens that job's page with the job's own id. */
  lemma CardOpensItsJob(table: seq<Job>, job: Job)
    requires job in table
    ensures RouteId(CardFor(job).link).Some?
    ensures JobDetailsPage.FindJob(table, RouteId(CardFor(job).link).value).Some?
    ensures JobDetailsPage.FindJob(table, RouteId(CardFor(job).link).value).value.id == job.id
  {
    var i :| 0 <= i < |table| && table[i] == job;
    assert table[i].id == job.id;
  }
}
