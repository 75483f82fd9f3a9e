# JobHub in Dafny

A verified model of the logic inside the JobHub job-board front end, a React
application with no server. It covers:

- The job search of the listing page (`src/pages/Jobs.tsx`). A chain of
  filters runs over the loaded jobs:
  - a case-insensitive text query;
  - a location substring;
  - membership in the type, level and category lists, where an empty list
    means "any";
  - an inclusive salary overlap, which is always applied;
  - a remote-only flag.

  The page also has six-per-page pagination, the Previous/Next clamping and
  the mapping of a `?category=` label to a category.
- The filter panel (`src/components/SearchFilters.tsx`): the toggles, the
  single-field update, reset to defaults, submit, "Clear All" and the label
  formatter for enum values.
- The session (`src/hooks/useAuth.tsx`): the demo-account table, login,
  register, logout and the restore from storage. The sign-in and registration
  forms (`src/pages/Login.tsx`, `src/pages/Register.tsx`) are modelled with
  their empty-field guards.
- The job-details page (`src/pages/JobDetails.tsx`): the lookup, the apply
  flow gated by role, the one-way `hasApplied` flag, saving a job, and the
  apply control chosen by role.
- The navigation bar (`src/components/Navbar.tsx`), the employer dashboard
  (`src/pages/EmployerDashboard.tsx`) and the job card
  (`src/components/JobCard.tsx`).

Each source file is one module. Two further modules hold what they share:

| module | file | models |
|---|---|---|
| `Domain` | `domain.dfy` | the entities of `src/lib/types.ts`, plus `Option` and `Toast` |
| `Text` | `text.dfy` | the ASCII string operations the pages use: lower/upper case, `includes`, `replace('_', ' ')`, `\b\w` title case, `split`/`join` |
| `SearchFilters` | `search_filters.dfy` | the filter record, the toggles, the labels, and class `FilterPanel` |
| `JobSearch` | `jobs.dfy` | the filter chain, pages, category mapping, and class `JobsPage` |
| `Auth` | `auth.dfy` | the demo accounts and class `AuthProvider` |
| `LoginPage`, `RegisterPage` | `login.dfy`, `register.dfy` | the two forms as classes holding the session they call |
| `JobDetailsPage` | `job_details.dfy` | the lookup, the role gates, and class `JobDetails` |
| `NavigationBar` | `navbar.dfy` | initials, routes, nav items, and class `Navbar` |
| `EmployerDashboardPage` | `employer_dashboard.dfy` | the access guard, the counts, the badge, and class `Dashboard` |
| `JobCardView` | `job_card.dfy` | the display tables, the applicant text, and the card link |

How the model treats the application's runtime:

- **State.** Component state (`useState`) is a field of a class, and each
  handler is a method that assigns those fields.
- **Atomic handlers.** Each handler runs as one atomic step. Simulated
  latency is not modelled.
- **Effects.** A toast is appended to a `toasts` log. A navigation is the
  method's result.
- **Stored session.** `localStorage` is one optional slot holding either a
  user record or text that does not parse as one.
- **Clocks.** Values from the clock, such as `Date.now()` and the current
  time, are parameters.

`JobsPage.HandleSearch` rebinds its results once per filter, as the source
does. Each step is the method `ApplyStage`, which is proved against the
specification function `Where` over a prefix of the stage list. The
method's postcondition is therefore `filteredJobs == Search(jobs, f)`, and
the properties of the search are lemmas about `Search`.

## Model

| member | source | states |
|---|---|---|
| JobSearch.MatchesQuery | src/pages/Jobs.tsx:300-307 | an empty query matches every job, and a query occurring in the lower-cased title matches |
| JobSearch.SalaryOverlaps | src/pages/Jobs.tsx:335-340 | for well-formed ranges, the test holds exactly when the job's salary range and the slider's share a value |
| JobSearch.Passes | src/pages/Jobs.tsx:300-344 | a stage whose input is empty or false keeps every job |
| JobSearch.PassesAll | src/pages/Jobs.tsx:298-344 | a job passes the stage list exactly when it passes each stage in it |
| JobSearch.Where | src/pages/Jobs.tsx:298-344 | keeps exactly the jobs of the input that pass every listed filter stage, and never more jobs than the input |
| JobSearch.Rejected | src/pages/Jobs.tsx:298-344 | the jobs the chain drops are exactly the input's jobs that fail some stage |
| JobSearch.Search | src/pages/Jobs.tsx:293-350 | the results are exactly the loaded jobs that pass all seven stages, and never more jobs than were loaded |
| JobSearch.WhereIsSubsequence | src/pages/Jobs.tsx:298-344 | the result is an order-preserving subsequence of the loaded jobs |
| JobSearch.WherePartition | src/pages/Jobs.tsx:298-344 | kept and dropped jobs together are the input, as a multiset |
| JobSearch.DroppedFailsSomeStage | src/pages/Jobs.tsx:298-344 | every job the search drops fails at least one active filter |
| JobSearch.WhereComposes | src/pages/Jobs.tsx:298-344 | filtering by one list of stages and then another equals filtering once by both, so the sequential chain is one conjunction |
| JobSearch.WhereKeepsAll | src/pages/Jobs.tsx:300-344 | stages every job passes leave the list unchanged |
| JobSearch.WhereNoStages | src/pages/Jobs.tsx:298 | with no stage the results are the copied job list |
| JobSearch.InactiveStageKeepsAll | src/pages/Jobs.tsx:300-333 | an empty query, location or list, or a false remote flag, constrains nothing |
| JobSearch.SearchIdempotent | src/pages/Jobs.tsx:293-350 | searching the results again with the same filters changes nothing |
| JobSearch.SearchResultsMatch | src/pages/Jobs.tsx:300-344 | every result matches the query in title, company or description; contains the location; has its type, level and category in the non-empty lists; has no salary or an overlapping one; and is remote when remote-only is set |
| JobSearch.MatchingJobFound | src/pages/Jobs.tsx:300-344 | conversely, a loaded job meeting every active condition is in the results |
| JobSearch.ContainsLower | src/pages/Jobs.tsx:301-306 | a substring stays a substring once both sides are lower-cased |
| JobSearch.TitleMatchesQuery | src/pages/Jobs.tsx:300-307 | a query occurring in the title matches, and so does its upper-case form |
| JobSearch.QueryCaseInsensitive | src/pages/Jobs.tsx:300-307 | upper- or lower-casing the query does not change the results |
| JobSearch.WhereAgree | src/pages/Jobs.tsx:298-344 | two stage lists that agree on every job give the same results |
| JobSearch.DefaultSearchIsSalaryOnly | src/pages/Jobs.tsx:244-252 | with the default filters only the salary stage acts |
| JobSearch.DefaultFiltersDropHighSalary | src/pages/Jobs.tsx:250 | a job whose salary starts above 200000 is dropped even by the default filters |
| JobSearch.SalaryBoundsInclusive | src/pages/Jobs.tsx:335-340 | the overlap test includes both ends: a salary touching the range's edge is kept |
| JobSearch.TotalPages | src/pages/Jobs.tsx:352 | the page count is the ceiling of n/6: enough pages for every job and no empty last page |
| JobSearch.SliceIndex | src/pages/Jobs.tsx:353-356 | a `slice` index is clamped into the list, and an index already inside it is kept |
| JobSearch.Slice | src/pages/Jobs.tsx:353-356 | a slice is never longer than the list, nor than its window, and holds only elements of the list |
| JobSearch.PageItems | src/pages/Jobs.tsx:353-356 | a page holds at most 6 jobs, all of them from the list |
| JobSearch.PageWindow | src/pages/Jobs.tsx:353-356 | page p is the window from (p-1)*6 to p*6, cut to the list |
| JobSearch.PagesPrefix | src/pages/Jobs.tsx:352-356 | the first k pages joined are the first 6k jobs |
| JobSearch.PagesCoverList | src/pages/Jobs.tsx:352-356 | pages 1 to totalPages joined give back the filtered list |
| JobSearch.PageEmptyIffPastEnd | src/pages/Jobs.tsx:352-356 | a page from 1 on is empty exactly when it lies past the last page |
| JobSearch.DisplayedTotal | src/pages/Jobs.tsx:429 | the header shows the page count, or 1 when there are no pages |
| JobSearch.ShowPagination | src/pages/Jobs.tsx:358-359 | the page controls appear exactly when more than 6 jobs match |
| JobSearch.PreviousPage | src/pages/Jobs.tsx:366 | Previous steps back one page and never below 1 |
| JobSearch.NextPage | src/pages/Jobs.tsx:387 | Next steps on one page and never past the last |
| JobSearch.PreviousNextStayInRange | src/pages/Jobs.tsx:366-389 | from a page in range, both controls land in [1, totalPages] |
| JobSearch.FindCategory | src/pages/Jobs.tsx:281-283 | the category found is the first, in declaration order, whose key equals the label; no result means none matches |
| JobSearch.CategoryKey | src/pages/Jobs.tsx:282 | the key has as many characters as the category's value |
| JobSearch.MatchCategory | src/pages/Jobs.tsx:281-283 | a found category's key is the lower-cased label; no result means no category at all has that key |
| JobSearch.Unspace | src/pages/Jobs.tsx:282 | turns every space into an underscore and keeps the rest |
| JobSearch.UnspaceReplaceFirst | src/pages/Jobs.tsx:282 | undoes the first-underscore replacement on a name without spaces |
| JobSearch.CategoryKeyInverse | src/pages/Jobs.tsx:282 | a category's key gives back its value, so the key determines the category |
| JobSearch.CategoryValuesAreConstantNames | src/lib/types.ts:87-98 | every category value is upper-case letters and underscores |
| JobSearch.CategoryValueInjective | src/lib/types.ts:87-98 | no two categories share a value |
| JobSearch.CategoryKeyInjective | src/pages/Jobs.tsx:281-283 | no two categories share a key, so the first match is the only one |
| JobSearch.AllCategoriesListed | src/pages/Jobs.tsx:281 | `Object.values(JobCategory)` lists every category |
| JobSearch.NoCategoryWithKey | src/pages/Jobs.tsx:281-283 | a search through a list of every category that finds nothing means no category has the key |
| JobSearch.FindCategoryFinds | src/pages/Jobs.tsx:281-283 | the key of a listed category finds that category |
| JobSearch.CategoryLabelRoundTrip | src/pages/Jobs.tsx:281-289 | every label the filter panel shows maps back to its own category |
| JobSearch.LandingCategoriesResolve | src/pages/Index.tsx:83-88 | each of the six landing-page names resolves to its category |
| JobSearch.StageStep | src/pages/Jobs.tsx:298-344 | one more stage filters the results of the stages before it |
| JobSearch.ApplyStage | src/pages/Jobs.tsx:300-344 | applying stage k to the results of stages 0..k-1 gives the results of stages 0..k |
| JobSearch.JobsPage.constructor | src/pages/Jobs.tsx:240-252 | no jobs yet, page 1, loading, the default filters |
| JobSearch.JobsPage.PageInRange | src/pages/Jobs.tsx:352-356 | a page between 1 and the header's page count shows at least one job whenever any job matched |
| JobSearch.JobsPage.Paginated | src/pages/Jobs.tsx:353-356 | the shown jobs are at most 6, all of them from the results |
| JobSearch.JobsPage.FetchJobs | src/pages/Jobs.tsx:256-272 | the loaded jobs are both the job list and the results, and loading ends |
| JobSearch.JobsPage.HandleSearch | src/pages/Jobs.tsx:293-350 | the filters are stored, the results are `Search(jobs, f)`, the page resets to 1 and loading ends |
| JobSearch.JobsPage.ClearFilters | src/pages/Jobs.tsx:443-457 | "Clear filters" searches with the defaults, which keeps only the jobs within the default salary range |
| JobSearch.JobsPage.PreviousPageClicked | src/pages/Jobs.tsx:366 | the page becomes the clamped previous page and stays in range |
| JobSearch.JobsPage.NextPageClicked | src/pages/Jobs.tsx:387 | the page becomes the clamped next page and stays in range |
| JobSearch.JobsPage.PageClicked | src/pages/Jobs.tsx:372-381 | the button at index i selects page i+1 |
| JobSearch.JobsPage.CategoryParamChanged | src/pages/Jobs.tsx:274-291 | a non-empty label that matches a category searches with that category alone in the list; otherwise nothing changes |
| SearchFilters.RemoveAll | src/components/SearchFilters.tsx:68-72 | removes every occurrence of the value and keeps every other element with its count: as a multiset the result is the list with the value's count set to zero, and a list without the value is returned unchanged |
| SearchFilters.RemoveAllDistributes | src/components/SearchFilters.tsx:68-72 | removing from two lists joined is removing from each, so the kept elements stay in their order |
| SearchFilters.Toggle | src/components/SearchFilters.tsx:66-91 | an absent value is appended at the end; a present one is removed entirely, every other element kept in order with its count |
| SearchFilters.RemoveAllKeepsNoDuplicates | src/components/SearchFilters.tsx:68-72 | removing from a duplicate-free list keeps it duplicate-free |
| SearchFilters.ToggleKeepsNoDuplicates | src/components/SearchFilters.tsx:66-73 | toggling keeps a duplicate-free list duplicate-free |
| SearchFilters.RemoveAllAfterAppend | src/components/SearchFilters.tsx:68-72 | removing a value just appended to a list without it gives the list back |
| SearchFilters.ToggleTwiceAbsent | src/components/SearchFilters.tsx:66-73 | toggling an absent value twice gives back the original list |
| SearchFilters.ToggleJobType | src/components/SearchFilters.tsx:66-73 | only the type list changes, by a toggle |
| SearchFilters.ToggleExperienceLevel | src/components/SearchFilters.tsx:75-82 | only the level list changes, by a toggle |
| SearchFilters.ToggleCategory | src/components/SearchFilters.tsx:84-91 | only the category list changes, by a toggle |
| SearchFilters.SetField | src/components/SearchFilters.tsx:62-64 | sets exactly the named field to the value and leaves every other field alone |
| SearchFilters.SetFieldLastWins | src/components/SearchFilters.tsx:62-64 | two updates of one field keep the last |
| SearchFilters.SetFieldCommutes | src/components/SearchFilters.tsx:62-64 | updates of two different fields commute |
| SearchFilters.ShowClearAll | src/components/SearchFilters.tsx:296-299 | "Clear All" is hidden exactly when the type, level and category lists are empty and remote-only is off |
| SearchFilters.ClearAllIgnoresTextAndSalary | src/components/SearchFilters.tsx:296-299 | query, location and salary range do not affect "Clear All", and the defaults hide it |
| SearchFilters.ToggleInShowsClearAll | src/components/SearchFilters.tsx:296-299 | toggling a value into any list shows "Clear All" |
| SearchFilters.FormatEnumLabel | src/components/SearchFilters.tsx:122 | the label has the value's length, and lower-casing it gives the lower-cased value with its first underscore a space |
| SearchFilters.FormatLevelLabel | src/components/SearchFilters.tsx:146 | the label has the value's length and differs from it only in letter case |
| SearchFilters.JobTypeLabel | src/components/SearchFilters.tsx:122 | a job type's label, lower-cased, is its value lower-cased with the underscore a space |
| SearchFilters.ExperienceLevelLabel | src/components/SearchFilters.tsx:146 | a level's label differs from its value only in letter case |
| SearchFilters.CategoryLabel | src/components/SearchFilters.tsx:210 | a category's label, lower-cased, is its value lower-cased with the underscore a space: the key the category effect compares |
| SearchFilters.FormatEnumLabelWithUnderscore | src/components/SearchFilters.tsx:122 | a value with an underscore becomes the title-cased, lower-cased words it separates |
| SearchFilters.FormatEnumLabelPlain | src/components/SearchFilters.tsx:146 | a value without an underscore only changes letter case |
| SearchFilters.JobTypeLabels | src/components/SearchFilters.tsx:122 | the checkbox labels of the five job types, such as "Full Time" for FULL_TIME; the dashboard's selects (src/pages/EmployerDashboard.tsx:215, 471) use the same formatter |
| SearchFilters.ExperienceLevelLabels | src/components/SearchFilters.tsx:146 | the labels of the six levels, with no underscore step; the dashboard's select (src/pages/EmployerDashboard.tsx:231) is the same |
| SearchFilters.CategoryLabels | src/components/SearchFilters.tsx:210 | the labels of the ten categories, "Customer Service" among them; the dashboard's select (src/pages/EmployerDashboard.tsx:247) is the same |
| SearchFilters.FilterPanel.constructor | src/components/SearchFilters.tsx:47-59 | the initial filters, or the defaults when none are given |
| SearchFilters.FilterPanel.HandleInputChange | src/components/SearchFilters.tsx:62-64 | the filters become the single-field update |
| SearchFilters.FilterPanel.OnToggleJobType | src/components/SearchFilters.tsx:66-73 | the filters become the type toggle |
| SearchFilters.FilterPanel.OnToggleExperienceLevel | src/components/SearchFilters.tsx:75-82 | the filters become the level toggle |
| SearchFilters.FilterPanel.OnToggleCategory | src/components/SearchFilters.tsx:84-91 | the filters become the category toggle |
| SearchFilters.FilterPanel.ResetFilters | src/components/SearchFilters.tsx:93-95 | the filters are the defaults, so "Clear All" disappears |
| SearchFilters.FilterPanel.HandleSubmit | src/components/SearchFilters.tsx:97-101 | the current record is handed on unchanged and the sheet closes |
| Text.Lower | src/pages/Jobs.tsx:301 | `toLowerCase` maps each ASCII capital to its small letter and keeps every other character |
| Text.Upper | src/components/Navbar.tsx:58 | `toUpperCase` maps each ASCII small letter to its capital |
| Text.ReplaceFirst | src/components/SearchFilters.tsx:122 | a string `replace` changes at most one position; a string without the character is unchanged |
| Text.ReplaceFirstAt | src/components/SearchFilters.tsx:122 | the replaced position is the first occurrence |
| Text.Contains | src/pages/Jobs.tsx:301-306 | `includes`: a contained string is no longer than the container, and the empty string is in every string |
| Text.TitleCase | src/components/SearchFilters.tsx:122 | capitalises a letter exactly where a word starts |
| Text.Split | src/components/Navbar.tsx:55 | `split` gives at least one piece, and no piece holds the separator |
| Text.Join | src/components/Navbar.tsx:57 | `join` starts with the first piece, followed by the separator when there is a second |
| Text.JoinSplit | src/components/Navbar.tsx:55-57 | joining the pieces with the separator gives back the string |
| Text.LowerIdempotent | src/pages/Jobs.tsx:301 | lower-casing twice is lower-casing once |
| Text.LowerAfterUpper | src/pages/Jobs.tsx:301 | lower-casing forgets an earlier upper-casing |
| Text.LowerAfterTitleCase | src/pages/Jobs.tsx:282 | lower-casing forgets an earlier title-casing |
| Text.LowerReplaceFirstCommute | src/pages/Jobs.tsx:282 | lower-casing and replacing the first underscore commute |
| Text.ContainsAt | src/pages/Jobs.tsx:304 | a string found at a position is contained |
| Auth.IsFirstWithEmail | src/hooks/useAuth.tsx:86 | the account `find` returns is the first with the email, so the email is taken |
| Auth.EmailTaken | src/hooks/useAuth.tsx:118 | `some` holds exactly when the email is among the table's emails |
| Auth.FindAccount | src/hooks/useAuth.tsx:86 | the first account with the email, or none when no account has it |
| Auth.CheckCredentials | src/hooks/useAuth.tsx:86-97 | a login succeeds exactly when the first account with the email has the password, and yields that account's profile |
| Auth.NewUser | src/hooks/useAuth.tsx:123-129 | the new record carries the entered email, name and role, an id from the clock, and no profile details |
| Auth.UnknownEmailCannotLogIn | src/hooks/useAuth.tsx:118-135 | an email outside the fixed table never signs in, so a registered account cannot log in later |
| Auth.RegisterIffNoAccount | src/hooks/useAuth.tsx:118-119 | registration is refused exactly for emails in the table |
| Auth.DemoLogins | src/hooks/useAuth.tsx:7-33 | both demo accounts sign in with "password", as a job seeker and an employer |
| Auth.WrongPasswordRejected | src/hooks/useAuth.tsx:88-89 | a wrong password fails even for a known email |
| Auth.AuthProvider.constructor | src/hooks/useAuth.tsx:58-61 | no user, loading, no error; the stored entry is as the browser left it |
| Auth.AuthProvider.IsAuthenticated | src/hooks/useAuth.tsx:157 | `!!user`: authenticated exactly when a user is set |
| Auth.AuthProvider.RestoreSession | src/hooks/useAuth.tsx:63-75 | a stored user is restored, an unparsable entry is removed and leaves no user, and loading ends |
| Auth.AuthProvider.Login | src/hooks/useAuth.tsx:77-107 | success exactly on valid credentials, which sets and stores the user; failure sets "Invalid email or password" and leaves the user; loading ends on both paths |
| Auth.AuthProvider.Register | src/hooks/useAuth.tsx:109-145 | success exactly for a new email, which sets and stores the new record; failure sets "Email already in use"; loading ends on both paths |
| Auth.AuthProvider.Logout | src/hooks/useAuth.tsx:147-151 | from any state, no user and no stored session remain, so logging out twice ends as once |
| LoginPage.LoginForm.constructor | src/pages/Login.tsx:12-17 | empty fields and no error |
| LoginPage.LoginForm.SubmitDisabled | src/pages/Login.tsx:104 | the submit button is disabled exactly while the session is loading |
| LoginPage.LoginForm.HandleSubmit | src/pages/Login.tsx:19-34 | an empty field sets "Please enter both email and password" and leaves the session alone; otherwise login runs with the entered credentials, and the form navigates to "/" exactly when it succeeds |
| RegisterPage.RegisterForm.constructor | src/pages/Register.tsx:14-21 | empty fields, no error, and the role defaults to job seeker |
| RegisterPage.RegisterForm.SubmitDisabled | src/pages/Register.tsx:155 | the submit button is disabled exactly while the session is loading |
| RegisterPage.RegisterForm.HandleSubmit | src/pages/Register.tsx:23-38 | an empty field sets "Please fill out all required fields" and leaves the session alone; otherwise register runs with the entered values, and the form navigates to "/" exactly when it succeeds |
| JobDetailsPage.FindJob | src/pages/JobDetails.tsx:153 | the first job in the table with the id, or none when no job has it |
| JobDetailsPage.OnlyTwoIdsFound | src/pages/JobDetails.tsx:34-116 | the page's table resolves ids "1" and "2" only |
| JobDetailsPage.ApplyDecision | src/pages/JobDetails.tsx:172-199 | a visitor must sign in first; the application goes through exactly for a job seeker |
| JobDetailsPage.ControlFor | src/pages/JobDetails.tsx:332-392 | job seekers get the apply dialog, employers a notice, and admins or visitors a sign-in button |
| JobDetailsPage.DialogIffSubmitted | src/pages/JobDetails.tsx:172-199 | the dialog is offered to exactly the users whose application goes through |
| JobDetailsPage.SaveJobToast | src/pages/JobDetails.tsx:201-208 | saving succeeds exactly when someone is signed in |
| JobDetailsPage.JobDetails.constructor | src/pages/JobDetails.tsx:139-143 | no job, loading, not applied, dialog closed |
| JobDetailsPage.JobDetails.ApplyButtonEnabled | src/pages/JobDetails.tsx:338 | Apply Now is enabled exactly until an application has been sent; the buttons at lines 481 and 619 use the same flag |
| JobDetailsPage.JobDetails.FetchJob | src/pages/JobDetails.tsx:145-170 | a found job is shown; a missing one leaves the job and navigates to "/jobs" with an error; loading ends on both paths |
| JobDetailsPage.JobDetails.ApplyNowClicked | src/pages/JobDetails.tsx:333-340 | an enabled Apply Now opens the dialog and changes nothing else |
| JobDetailsPage.JobDetails.CancelClicked | src/pages/JobDetails.tsx:365-366 | Cancel closes the dialog and changes nothing else |
| JobDetailsPage.JobDetails.HandleApply | src/pages/JobDetails.tsx:172-199 | a visitor is sent to "/login" and a non-seeker refused, both without changing the apply state; a job seeker's application sets `hasApplied` and closes the dialog; `hasApplied` never goes back to false |
| JobDetailsPage.JobDetails.HandleSaveJob | src/pages/JobDetails.tsx:201-208 | appends the save toast and changes nothing else |
| NavigationBar.FirstChars | src/components/Navbar.tsx:56-57 | one character at most per piece, since an empty piece adds nothing |
| NavigationBar.Initials | src/components/Navbar.tsx:53-59 | the initials are the upper-cased first letters of the words, however many spaces separate them |
| NavigationBar.FirstCharsOfSplit | src/components/Navbar.tsx:55-57 | the first characters of the pieces of a split are the starts of the words; empty pieces give nothing |
| NavigationBar.AvatarFallback | src/components/Navbar.tsx:127 | "U" without a name, otherwise the initials of the name |
| NavigationBar.DashboardLink | src/components/Navbar.tsx:61-73 | "/" without a user, then a route per role |
| NavigationBar.NavItems | src/components/Navbar.tsx:45-51 | Home and Find Jobs always, with Post Jobs third exactly for a signed-in employer |
| NavigationBar.PostJobsIsDashboard | src/components/Navbar.tsx:45-73 | Post Jobs leads where the employer's dashboard link does |
| NavigationBar.Navbar.constructor | src/components/Navbar.tsx:21-22 | not scrolled, menu closed |
| NavigationBar.Navbar.HandleScroll | src/components/Navbar.tsx:23-30 | scrolled exactly when the offset is over 50 |
| NavigationBar.Navbar.HandleLogout | src/components/Navbar.tsx:40-43 | the session logs out, keeping its loading flag and error, then the page goes to "/" |
| NavigationBar.Navbar.ToggleMobileMenu | src/components/Navbar.tsx:185 | the menu button flips the mobile menu |
| NavigationBar.Navbar.MobileLogout | src/components/Navbar.tsx:234-240 | logs out with the "Logged out successfully" toast, keeping the session's loading flag and error, goes to "/" and closes the menu |
| EmployerDashboardPage.AccessFor | src/pages/EmployerDashboard.tsx:134-142 | a visitor is sent to sign in, a signed-in non-employer home, and only an employer sees the page; sign-in is checked first |
| EmployerDashboardPage.RedirectTarget | src/pages/EmployerDashboard.tsx:134-142 | the two redirects go to "/login" and "/" |
| EmployerDashboardPage.CountPending | src/pages/EmployerDashboard.tsx:393 | the number of pending applications: at most the total, zero exactly when none is pending |
| EmployerDashboardPage.CountPendingAppend | src/pages/EmployerDashboard.tsx:393 | the count of a list in two parts is the sum of their counts |
| EmployerDashboardPage.DashboardStats | src/pages/EmployerDashboard.tsx:357-393 | active jobs and total applications are the list lengths; new applications are the pending count, never above the total |
| EmployerDashboardPage.SampleCounts | src/pages/EmployerDashboard.tsx:95-123 | the sample applications count one new application |
| EmployerDashboardPage.StatusBadge | src/pages/EmployerDashboard.tsx:589-594 | "Reviewing" exactly for "reviewing", "New" for any other status |
| EmployerDashboardPage.CountNewBadges | src/pages/EmployerDashboard.tsx:589-594 | the rows badged "New": none exactly when every status is "reviewing", all exactly when none is |
| EmployerDashboardPage.PendingCountedAsNew | src/pages/EmployerDashboard.tsx:589-594 | every pending application is badged "New", so the New Applications count (line 393) never exceeds the number of rows badged "New" |
| EmployerDashboardPage.Dashboard.constructor | src/pages/EmployerDashboard.tsx:129-131 | dialog closed, not submitting, the jobs tab selected |
| EmployerDashboardPage.Dashboard.PostNewJobClicked | src/pages/EmployerDashboard.tsx:179-183 | opens the dialog |
| EmployerDashboardPage.Dashboard.HandleCreateJob | src/pages/EmployerDashboard.tsx:144-160 | ends not submitting, with the dialog closed and the success toast |
| EmployerDashboardPage.Dashboard.CancelClicked | src/pages/EmployerDashboard.tsx:323 | closes the dialog |
| EmployerDashboardPage.Dashboard.TabSelected | src/pages/EmployerDashboard.tsx:423 | selects the tab and changes nothing else |
| JobCardView.JobTypeText | src/components/JobCard.tsx:13-19 | each type's badge text starts with a capital letter |
| JobCardView.JobTypeColor | src/components/JobCard.tsx:13-19 | each type has colour classes |
| JobCardView.JobTypeBadge | src/components/JobCard.tsx:13-19 | the badge shows the type's text with its colour classes |
| JobCardView.ExperienceLevelText | src/components/JobCard.tsx:21-28 | each level's text starts with a capital letter |
| JobCardView.JobTypeTextsDistinct | src/components/JobCard.tsx:13-19 | the badge table covers all five types and gives each its own text |
| JobCardView.ExperienceLevelTextsDistinct | src/components/JobCard.tsx:21-28 | the level table covers all six levels and gives each its own text |
| JobCardView.NatToString | src/components/JobCard.tsx:100 | the decimal digits of a count, without a leading zero |
| JobCardView.IntToString | src/components/JobCard.tsx:100 | `String(n)` is never empty and starts with a digit exactly when n is not negative |
| JobCardView.ParseNatToString | src/components/JobCard.tsx:100 | reading the digits back gives the count |
| JobCardView.ApplicantNoun | src/components/JobCard.tsx:100 | "applicant" exactly for 1, "applicants" otherwise, zero included |
| JobCardView.ApplicantsText | src/components/JobCard.tsx:98-102 | the applicant line is shown exactly when the job carries a count |
| JobCardView.ApplicantsTextReadsBack | src/components/JobCard.tsx:98-102 | the line reads the count, a space and the noun, and the count read back from it is the job's |
| JobCardView.JobLink | src/components/JobCard.tsx:34 | the link is "/jobs/" followed by the job's id |
| JobCardView.RouteId | src/components/JobCard.tsx:34 | an id read from a path is the one whose link is that path |
| JobCardView.CardFor | src/components/JobCard.tsx:34-102 | the Remote badge exactly for remote jobs, the salary line exactly when there is a salary, the applicant line exactly when there is a count, and a link that carries the job's id |
| JobCardView.CardOpensItsJob | src/components/JobCard.tsx:34 | the card of a job in the details table opens a page that finds a job with that id |

## Left out

- Simulated latency (`setTimeout`, awaited promises). Every handler is one atomic step, so the flags that are true only while a handler waits (`isLoading` during a search or a login, `isApplying`, `isSubmitting`) are seen only in their final state.
- The race in which the category effect searches before the jobs have loaded. It needs concurrent steps.
- `localStorage` and JSON. The stored entry is an abstract slot holding a user record or text that does not parse as one. An entry that parses as some other value is not modelled.
- Unicode case mapping. `toLowerCase`, `toUpperCase` and the regular expression `\b\w` are modelled over ASCII letters, digits and `_`.
- `toLocaleString` (salary figures), date-fns `formatDistanceToNow` (posting time) and `Date.now()`. The card keeps the salary as a value, and the clock values are parameters.
- The header text "N jobs found", which needs a number printed as text.
- JSX, Tailwind classes, and the Radix widgets (slider, checkbox, dialog, sheet, tabs) other than the flags the handlers set. The slider's bounds are taken as given.
- src/pages/UserProfile.tsx, src/pages/Index.tsx and src/components/Footer.tsx: static content. Only the landing page's category names are used, as inputs to `LandingCategoriesResolve`.
- The content of the sample job and application fixtures beyond what the lookups and counts see.
- The `catch` branches of `fetchJobs`, `fetchJob` and `handleCreateJob`. Nothing in them can fail once latency is gone.
- JobSearch.JobsPage.NextPageClicked: requires that the page controls are shown, since the Next button is rendered only then.
- JobSearch.JobsPage.PreviousPageClicked: likewise.
- NavigationBar.Initials: the concrete example "Alex Johnson" → "AJ" is not proved. Its contract states the result for any name.
- JobCardView.IntToString: the digits of a negative count or a number at or past 10^21 are not proved to follow JavaScript's `String` exactly. A count is never negative in the fixtures.
- JobCardView.JobTypeColor: states only that each type has colour classes. The class strings are the table's literals, and nothing is proved about them.
- JobCardView.JobTypeText and JobCardView.ExperienceLevelText: state only the capital first letter. The exact texts are the table's literals, and their distinctness is proved separately.
- The `User` fields `experience` and `education` (src/lib/types.ts:19-20). Nothing in the modelled pages reads them.
- The `Job` field `type` is called `jobType`, because `type` is a reserved word in Dafny.
