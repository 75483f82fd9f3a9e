/**
 * The entities of the job board (src/lib/types.ts): users and their roles,
 * job listings with their three enumerations, and the optional value and
 * notification types the pages share.
 */
module Domain {

  datatype Option<+T> = None | Some(value: T)

  datatype UserRole = JobSeeker | Employer | Admin

  datatype JobType = FullTime | PartTime | Contract | Freelance | Internship

  datatype ExperienceLevel = Entry | Junior | Mid | Senior | Lead | Executive

  datatype JobCategory =
    | Technology | Design | Marketing | Business | Engineering
    | CustomerService | Healthcare | Education | Finance | Other

  /** The members of each enumeration in declaration order, as `Object.values` lists them. */
  const AllJobTypes: seq<JobType> := [FullTime, PartTime, Contract, Freelance, Internship]
  const AllExperienceLevels: seq<ExperienceLevel> := [Entry, Junior, Mid, Senior, Lead, Executive]
  const AllCategories: seq<JobCategory> :=
    [Technology, Design, Marketing, Business, Engineering,
     CustomerService, Healthcare, Education, Finance, Other]

  /** The string value each enumeration member carries at run time. */
  function JobTypeValue(t: JobType): string {
    match t
    case FullTime => "FULL_TIME"
    case PartTime => "PART_TIME"
    case Contract => "CONTRACT"
    case Freelance => "FREELANCE"
    case Internship => "INTERNSHIP"
  }

  function ExperienceLevelValue(l: ExperienceLevel): string {
    match l
    case Entry => "ENTRY"
    case Junior => "JUNIOR"
    case Mid => "MID"
    case Senior => "SENIOR"
    case Lead => "LEAD"
    case Executive => "EXECUTIVE"
  }

  function CategoryValue(c: JobCategory): string {
    match c
    case Technology => "TECHNOLOGY"
    case Design => "DESIGN"
    case Marketing => "MARKETING"
    case Business => "BUSINESS"
    case Engineering => "ENGINEERING"
    case CustomerService => "CUSTOMER_SERVICE"
    case Healthcare => "HEALTHCARE"
    case Education => "EDUCATION"
    case Finance => "FINANCE"
    case Other => "OTHER"
  }

  /** Salaries are integer amounts in the sample data. */
  datatype Salary = Salary(min: int, max: int, currency: string)

  datatype Job = Job(
    id: string,
    title: string,
    company: string,
    companyLogo: Option<string>,
    location: string,
    jobType: JobType,
    category: JobCategory,
    description: string,
    requirements: seq<string>,
    responsibilities: seq<string>,
    salary: Option<Salary>,
    experienceLevel: ExperienceLevel,
    postedBy: string,
    postedAt: string,
    expiresAt: Option<string>,
    applications: Option<int>,
    isRemote: bool)

  datatype User = User(
    id: string,
    email: string,
    name: string,
    role: UserRole,
    avatar: Option<string>,
    company: Option<string>,
    title: Option<string>,
    bio: Option<string>,
    location: Option<string>,
    skills: Option<seq<string>>,
    createdAt: string)

  /** A toast notification, recorded as an output event. */
  datatype Toast = SuccessToast(message: string) | ErrorToast(message: string)
}
