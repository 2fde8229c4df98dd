# HandyManHero client core in Dafny

This project models the logic of the HandyManHero React Native client, a marketplace where homeowners
("customers") post service requests and contractors ("professionals") browse them. It covers these parts:

- the entity types, in `types.dfy`;
- the application store's reducer, in `app_context.dfy`;
- the top-level navigator with its session state and role-based route root, in `app_navigator.dfy`;
- the e-mail check both authentication forms share, in `email.dfy`;
- validation and the user record built by the login and sign-up screens, in `login.dfy` and `sign_up.dfy`;
- the create-job form, its photo buffer and the job record it builds, in `create_job.dfy`;
- the professional's job feed: category filter, icon table and "time ago" caption, in `job_feed.dfy`;
- the customer home screen: status badge, recent jobs and the "Request a Service" route, in `home.dfy`.

Modelling choices:

- Pure TypeScript code becomes datatypes and functions. The navigator's `user`/`isLoading` state becomes
  the class `Navigation.Session`, and the photo list of the create-job screen becomes the class
  `CreateJob.PhotoBuffer`.
- The validators build their error dictionaries step by step, so each is a method that updates a `map`.
  The map is keyed by an enumeration whose `KeyName()` gives the source's key string.
- Every `T | null` and every optional field is an `Option`.
- A `Date` is an integer millisecond timestamp, and a TypeScript `number` that is not a timestamp is a `real`.
- The clock, the `Date.now()` job id, `new Date(preferredDate)`, and the outcome of the image picker
  (permission plus choice) are all parameters.
- `navigation.navigate` becomes a returned route value.

Points where the code's behaviour may surprise a reader:

- The code has no job lifecycle: no accept, start, complete, rate or cancel transition and no
  transition table. Only the `JobStatus` enumeration exists, and the model has no transition table either.
- The route root is chosen from the navigator's own `user` and `isLoading` state, not from the store's
  `auth` slice. Any user type other than `customer` gets the professional tabs, and that includes `admin`.
- Job ids are not kept unique. `ADD_JOB` prepends even a duplicate id, and `UPDATE_JOB` replaces every job
  whose id matches.
- The job form only checks that `preferredDate` is non-empty. It does not check that the date parses or
  lies in the future. The three-photo cap is enforced when a photo is picked, not on the job.
- `SET_USER` clears `auth.error`. `CLEAR_USER` leaves it as it is.

## Model

| member | source | states |
|---|---|---|
| Types.SignInRole.ToUserType | src/screens/auth/LoginScreen.tsx:28 | the role selector yields customer or professional, never admin, and customer exactly for the customer choice |
| Types.CategoryFromName | src/types/index.ts:48 | a parsed category has exactly the given name |
| Types.StatusFromName | src/types/index.ts:50 | a parsed status has exactly the given stored string |
| Types.CategoriesAreExactlyFive | src/types/index.ts:48 | there are exactly five categories, all listed, with distinct names; parsing a name gives the category back and succeeds on exactly the five literals |
| Types.StatusesAreExactlyFive | src/types/index.ts:50 | there are exactly five statuses (pending, accepted, in_progress, completed, cancelled) with distinct strings; parsing round-trips and succeeds on exactly those |
| Types.Customer.AsUser | src/types/index.ts:11-15 | a customer is a user with userType fixed to customer and the same identity fields |
| Types.Professional.AsUser | src/types/index.ts:17-28 | a professional is a user with userType fixed to professional and the same identity fields |
| AppContext.InitialState | src/services/AppContext.tsx:18-36 | the initial store: signed out, not loading, no error, no jobs, no selected job, no messages (stated by InitialStateIsEmpty) |
| AppContext.AuthConsistent | src/types/index.ts:82-87 | the auth invariant: isAuthenticated holds exactly when a user is present |
| AppContext.Reduce | src/services/AppContext.tsx:38-104 | `appReducer`: one branch per action type and the identity for any other; its effects are stated per action by the *Effect lemmas and its frame by ActionFrame |
| AppContext.ReduceAll | src/services/AppContext.tsx:109 | successive dispatches applied in program order; RunPreservesInvariants states what every run keeps |
| AppContext.InitialStateIsEmpty | src/services/AppContext.tsx:18-36 | the initial store is signed out, not loading, error-free, with no jobs, no selected job and no messages, and satisfies the auth invariant |
| AppContext.SetUserEffect | src/services/AppContext.tsx:40-49 | SET_USER signs the user in, sets isAuthenticated, clears the auth error and changes nothing else |
| AppContext.ClearUserEffect | src/services/AppContext.tsx:50-58 | CLEAR_USER removes the user and sets isAuthenticated to false, keeping the auth error and everything else |
| AppContext.AddJobEffect | src/services/AppContext.tsx:59-66 | ADD_JOB puts the job first, keeps the old list after it in order, and touches nothing else |
| AppContext.AddJobTwiceIsNewestFirst | src/services/AppContext.tsx:59-66 | adding j then k gives [k, j] followed by the old list |
| AppContext.ReplaceById | src/services/AppContext.tsx:72-74 | the updated list has the same length as the old one |
| AppContext.ReplaceByIdAt | src/services/AppContext.tsx:72-74 | each position holds the payload when its id matches and the old job otherwise |
| AppContext.ReplaceByIdNoMatch | src/services/AppContext.tsx:72-74 | when no id matches, the list is unchanged |
| AppContext.ReplaceByIdIdempotent | src/services/AppContext.tsx:72-74 | applying the same update twice equals applying it once |
| AppContext.UpdateJobEffect | src/services/AppContext.tsx:67-76 | UPDATE_JOB replaces exactly the matching entries in place, is a no-op without a match, is idempotent, and touches no other field |
| AppContext.JobsBookkeepingEffects | src/services/AppContext.tsx:77-100 | SET_JOBS, SET_LOADING and SET_ERROR change only their jobs-slice field |
| AppContext.UnrecognizedIsIdentity | src/services/AppContext.tsx:101-102 | the default branch returns the state unchanged |
| AppContext.ActionFrame | src/services/AppContext.tsx:38-104 | no action touches the chat slice or currentJob, and only SET_USER and CLEAR_USER touch auth |
| AppContext.ActionPreservesAuthConsistent | src/services/AppContext.tsx:38-104 | every action preserves isAuthenticated iff a user is present |
| AppContext.RunPreservesInvariants | src/services/AppContext.tsx:38-104 | any run of dispatches preserves the auth invariant, the chat slice and currentJob |
| AppContext.ReachableStatesAreConsistent | src/services/AppContext.tsx:18-104 | every state reachable from the initial one satisfies the auth invariant, has the initial chat slice and no selected job |
| Navigation.RenderRoot | src/navigation/AppNavigator.tsx:289-324 | the route root as a function of user and isLoading: the waiting view, the auth stack, or the role tabs with CreateJob and SelectService; characterized by RouteRootSelection, LoadingHidesEveryGraph and SignedInTabs |
| Navigation.TabSets | src/navigation/AppNavigator.tsx:108-208 | customer tabs are exactly Home, Jobs, Chat, Profile; professional tabs exactly JobFeed, MyJobs, Chat, Profile |
| Navigation.LoadingHidesEveryGraph | src/navigation/AppNavigator.tsx:289-296 | while loading, the waiting view is shown and no route or tab is reachable, whoever the user is |
| Navigation.RouteRootSelection | src/navigation/AppNavigator.tsx:289-324 | each root route is registered iff: Login/SignUp when signed out, CustomerTabs for a customer, ProfessionalTabs for any other user type, CreateJob/SelectService when signed in; never while loading |
| Navigation.RoleGraphsExclusive | src/navigation/AppNavigator.tsx:313-317 | the two role graphs are never registered together, and signed out no tab is reachable |
| Navigation.SignedInTabs | src/navigation/AppNavigator.tsx:313-317 | a signed-in customer reaches exactly the customer tabs, any other user type exactly the professional tabs |
| Navigation.Session.constructor | src/navigation/AppNavigator.tsx:266-267 | the session starts with no user, loading, on the waiting view |
| Navigation.Session.Root | src/navigation/AppNavigator.tsx:289-324 | what the navigator renders for the session's current user and isLoading; each handler's contract states the new Root |
| Navigation.Session.FinishLoading | src/navigation/AppNavigator.tsx:269-275 | the startup timeout ends loading and keeps the user |
| Navigation.Session.HandleLogin | src/navigation/AppNavigator.tsx:277-279 | login stores the user, keeps the loading flag, and the root follows |
| Navigation.Session.HandleSignUp | src/navigation/AppNavigator.tsx:281-283 | sign-up stores the user, keeps the loading flag, and the root follows |
| Navigation.Session.HandleLogout | src/navigation/AppNavigator.tsx:285-287 | logout clears the user, keeps the loading flag, and the root follows |
| Email.IsEmailLike | src/screens/auth/LoginScreen.tsx:37 | the executable e-mail test: an `@` with a non-space character before it, a later `.` with at least one character between and at least one after, no whitespace in that span |
| Email.MatchesEmailRegex | src/screens/auth/SignUpScreen.tsx:63 | the meaning of the unanchored `\S+@\S+\.\S+`: some whitespace-free segment of the form x@y.z with x, y, z non-empty |
| Email.EmailCheckMatchesRegex | src/screens/auth/LoginScreen.tsx:37 | the executable check holds iff some whitespace-free segment has the form x@y.z with x, y, z non-empty |
| Email.EmailLikeInContext | src/screens/auth/LoginScreen.tsx:37 | the test is unanchored: text before or after a match keeps it a match |
| Email.EmailLikeShape | src/screens/auth/LoginScreen.tsx:37 | an accepted string has at least five characters, an `@` and a later `.` |
| Email.EmailNeedsAtAndDot | src/screens/auth/LoginScreen.tsx:37 | without an `@` or without a `.` the check fails |
| Email.EmailExamples | src/screens/auth/LoginScreen.tsx:37 | john@example.com and a@b.c pass; john@example and john.example fail |
| Email.NoSpaceInShrinks | src/screens/auth/LoginScreen.tsx:37 | a whitespace-free segment stays whitespace-free when narrowed |
| Login.ValidateLogin | src/screens/auth/LoginScreen.tsx:32-49 | an email error exactly when the email is empty ("required") or fails the check ("invalid"); a password error exactly when shorter than 6 ("required" if empty); valid iff no error iff acceptable |
| Login.SubmitLogin | src/screens/auth/LoginScreen.tsx:51-69 | a user is produced iff the form validates; it carries the email and selected role, id "1", name "John Doe", no phone, and the given time |
| Login.DefaultRoleIsCustomer | src/screens/auth/LoginScreen.tsx:28 | the role selector starts on customer |
| SignUp.UpdateFormData | src/screens/auth/SignUpScreen.tsx:50-52 | the named field gets the value and every other field is unchanged |
| SignUp.PhoneIsNeverAKey | src/screens/auth/SignUpScreen.tsx:54-98 | the phone field is never validated |
| SignUp.ValidateSignUp | src/screens/auth/SignUpScreen.tsx:54-98 | each error key is present exactly when its condition holds (address only for customers; business, license, insurance and categories only for professionals), with the source's message; valid iff no error iff acceptable |
| SignUp.AccountErrors | src/screens/auth/SignUpScreen.tsx:57-75 | the name, email, password and confirmation checks, each key present exactly on its condition, no role key added |
| SignUp.AddRoleErrors | src/screens/auth/SignUpScreen.tsx:77-94 | the role-dependent checks added to the map, the other keys left as they were |
| SignUp.EmptyIffNoKeys | src/screens/auth/SignUpScreen.tsx:97 | the key count is zero iff the map is empty iff no key is present |
| SignUp.NoErrorsIffAcceptable | src/screens/auth/SignUpScreen.tsx:54-97 | once every key is present exactly on its own condition, the map is empty iff the registration is acceptable |
| SignUp.SubmitSignUp | src/screens/auth/SignUpScreen.tsx:100-118 | a user is produced iff the form validates, with the form's email, name and phone, the selected role, id "1" and the given time |
| SignUp.RemoveAll | src/screens/auth/SignUpScreen.tsx:129 | removal never lengthens the list |
| SignUp.RemoveAllMembers | src/screens/auth/SignUpScreen.tsx:129 | after removal exactly the other elements remain |
| SignUp.RemoveAllAbsent | src/screens/auth/SignUpScreen.tsx:129 | removing an absent category changes nothing |
| SignUp.RemoveAllAppend | src/screens/auth/SignUpScreen.tsx:129 | removal distributes over concatenation |
| SignUp.ToggleCategory | src/screens/auth/SignUpScreen.tsx:126-132 | `toggleCategory`: remove every occurrence when present, append at the end otherwise; properties in ToggleCategoryEffect and ToggleTwiceRestores |
| SignUp.ToggleCategoryEffect | src/screens/auth/SignUpScreen.tsx:126-132 | toggling flips membership of the category, keeps every other element, and appends at the end when it was absent |
| SignUp.ToggleTwiceRestores | src/screens/auth/SignUpScreen.tsx:126-132 | toggling an absent category twice restores the list |
| CreateJob.UpdateJobForm | src/screens/customer/CreateJobScreen.tsx:42-44 | the named field gets the value and every other field is unchanged |
| CreateJob.ValidateJobForm | src/screens/customer/CreateJobScreen.tsx:46-63 | an error for each empty field among description, address and preferred date, with its message; valid iff no error iff acceptable |
| CreateJob.PreferredTimeIgnored | src/screens/customer/CreateJobScreen.tsx:46-63 | the preferred time never affects validity |
| CreateJob.AfterPick | src/screens/customer/CreateJobScreen.tsx:65-88 | the photo list after one `pickImage`: unchanged at three photos or when no image is chosen, else the URI appended; properties in PickRespectsCap |
| CreateJob.AfterPicks | src/screens/customer/CreateJobScreen.tsx:65-88 | a series of non-overlapping picks applied in order; properties in PicksRespectCap |
| CreateJob.PickRespectsCap | src/screens/customer/CreateJobScreen.tsx:65-88 | at three photos a pick changes nothing; below three a chosen image is appended; a cancelled pick changes nothing; the cap holds and the old photos stay as a prefix |
| CreateJob.PicksRespectCap | src/screens/customer/CreateJobScreen.tsx:65-88 | any run of picks from at most three photos stays at most three and keeps the earlier photos as a prefix |
| CreateJob.RemoveAt | src/screens/customer/CreateJobScreen.tsx:90-92 | removal never lengthens the list |
| CreateJob.RemoveAtEffect | src/screens/customer/CreateJobScreen.tsx:90-92 | removing index i yields the list without position i, the rest in order; an out-of-range index changes nothing |
| CreateJob.PhotoBuffer.constructor | src/screens/customer/CreateJobScreen.tsx:38 | the buffer starts empty |
| CreateJob.PhotoBuffer.PickImage | src/screens/customer/CreateJobScreen.tsx:65-88 | the photo list becomes AfterPick of the old one and the cap is kept |
| CreateJob.PhotoBuffer.RemovePhoto | src/screens/customer/CreateJobScreen.tsx:90-92 | the photo list becomes RemoveAt of the old one and the cap is kept |
| CreateJob.NewJob | src/screens/customer/CreateJobScreen.tsx:102-113 | the job literal of `handleCreateJob`, with the id, clock and parsed date supplied; every field stated by SubmitJob |
| CreateJob.SubmitJob | src/screens/customer/CreateJobScreen.tsx:94-115 | a job is produced iff the form validates; it is pending and unassigned, with the route category or HVAC, the form's description and address, the photos, customer "1", the given id, date and time, and no price, completion, rating or review |
| JobFeed.FilterJobs | src/screens/professional/JobFeedScreen.tsx:58-60 | the feed is never longer than the list |
| JobFeed.FilterAllIsIdentity | src/screens/professional/JobFeedScreen.tsx:58-60 | with "all" the feed is the list unchanged |
| JobFeed.FilterMembers | src/screens/professional/JobFeedScreen.tsx:58-60 | a job is in the feed iff it is in the list and the selection admits its category |
| JobFeed.FilterIsSubsequence | src/screens/professional/JobFeedScreen.tsx:58-60 | the feed is a subsequence of the list, so the relative order is kept |
| JobFeed.SubsequenceIsShorter | src/screens/professional/JobFeedScreen.tsx:58-60 | a subsequence is at most as long as the list |
| JobFeed.FilterAppend | src/screens/professional/JobFeedScreen.tsx:58-60 | filtering a concatenation filters each part |
| JobFeed.FilterCounts | src/screens/professional/JobFeedScreen.tsx:58-60 | an admitted job occurs as often as in the list, any other job not at all |
| JobFeed.SumOfCategoryCounts | src/screens/professional/JobFeedScreen.tsx:58-60 | the total size of the feeds for a list of categories; a helper for the derived partition fact below |
| JobFeed.SumOfCategoryCountsStep | src/screens/professional/JobFeedScreen.tsx:58-60 | dropping the first job lowers the per-category counts by the times its category is listed |
| JobFeed.SumOfCategoryCountsEmpty | src/screens/professional/JobFeedScreen.tsx:58-60 | an empty list has zero jobs in every category |
| JobFeed.EachCategoryListedOnce | src/types/index.ts:48 | every category occurs once in the category list |
| JobFeed.CategoriesPartitionFeed | src/screens/professional/JobFeedScreen.tsx:58-60 | a derived fact about the filter, not one the screen relies on: the five category feeds together hold exactly as many jobs as the list |
| JobFeed.LookupIcon | src/screens/professional/JobFeedScreen.tsx:62-65 | the icon lookup never yields an empty icon |
| JobFeed.CategoryIcon | src/screens/professional/JobFeedScreen.tsx:62-65 | `getCategoryIcon`: the lookup in the feed's category table; values stated by CategoryIcons |
| JobFeed.LookupIconFindsFirst | src/screens/professional/JobFeedScreen.tsx:62-65 | the lookup answers the first matching entry's icon, or the wrench when that icon is empty |
| JobFeed.LookupIconAbsent | src/screens/professional/JobFeedScreen.tsx:62-65 | a key absent from the table gets the wrench |
| JobFeed.CategoryIcons | src/screens/professional/JobFeedScreen.tsx:35-42 | each category gets the icon its table entry lists |
| JobFeed.FeedCategoryBar | src/screens/professional/JobFeedScreen.tsx:35-42 | the bar has six entries, "all" first, every selection offered exactly once |
| JobFeed.NatToString | src/screens/professional/JobFeedScreen.tsx:77-79 | a number prints as a non-empty string of digits without a leading zero |
| JobFeed.NatToStringRoundTrip | src/screens/professional/JobFeedScreen.tsx:77-79 | reading the printed digits back gives the number |
| JobFeed.MinutesAgo | src/screens/professional/JobFeedScreen.tsx:74 | `diffInMinutes`: elapsed milliseconds divided by 60000, rounded down; stated by MinutesAgoIsFloor |
| JobFeed.FormatTimeAgo | src/screens/professional/JobFeedScreen.tsx:72-80 | `formatTimeAgo`: "Just now", minutes, hours or days ago by the minute count; its buckets stated by TimeAgoBuckets |
| JobFeed.ParseTimeAgo | src/screens/professional/JobFeedScreen.tsx:76-79 | reads a caption back into its bucket and number, the inverse used to state TimeAgoBuckets |
| JobFeed.MinutesAgoIsFloor | src/screens/professional/JobFeedScreen.tsx:74 | the minute count is the floor of the elapsed milliseconds over 60000, future dates (negative differences) included |
| JobFeed.CaptionReadsBack | src/screens/professional/JobFeedScreen.tsx:77-79 | a number followed by "m ago", "h ago" or "d ago" reads back as that many units |
| JobFeed.MinutesCaption | src/screens/professional/JobFeedScreen.tsx:77 | for 1 <= m < 60 the minutes caption reads back as m minutes |
| JobFeed.HoursCaption | src/screens/professional/JobFeedScreen.tsx:78 | for 60 <= m < 1440 the hours caption reads back as floor(m/60) hours, a number from 1 to 23 bracketing m |
| JobFeed.DaysCaption | src/screens/professional/JobFeedScreen.tsx:79 | from 1440 minutes on the days caption reads back as floor(m/1440) days, at least 1, bracketing m |
| JobFeed.TimeAgoBuckets | src/screens/professional/JobFeedScreen.tsx:72-80 | every caption is readable and falls in exactly one bucket: "Just now" iff m < 1, minutes iff 1 <= m < 60 showing m, hours iff 60 <= m < 1440 showing floor(m/60), days otherwise showing floor(m/1440) |
| JobFeed.FutureDateIsJustNow | src/screens/professional/JobFeedScreen.tsx:76 | a creation date in the future reads "Just now" |
| Home.StatusText | src/screens/customer/HomeScreen.tsx:84-97 | `getJobStatusText`: a label for pending, accepted, in_progress and completed, the raw string otherwise; stated by StatusTexts, StatusTextFallsThrough and StatusTextsDistinct |
| Home.StatusColor | src/screens/customer/HomeScreen.tsx:69-82 | `getJobStatusColor`: warning, info, primary, success for the four handled statuses, textLight otherwise; stated by StatusColors |
| Home.StatusTexts | src/screens/customer/HomeScreen.tsx:84-97 | the labels of the five statuses, a cancelled job showing its raw status |
| Home.StatusTextFallsThrough | src/screens/customer/HomeScreen.tsx:69-97 | any other string is shown as it is, in the light text colour |
| Home.StatusTextsDistinct | src/screens/customer/HomeScreen.tsx:84-97 | different statuses get different labels |
| Home.StatusColors | src/screens/customer/HomeScreen.tsx:69-82 | warning, info, primary and success for the four active statuses, and light text exactly for cancelled |
| Home.RecentJobs | src/screens/customer/HomeScreen.tsx:99 | `jobs.slice(0, 3)`; stated by RecentJobsPrefix |
| Home.RecentJobsPrefix | src/screens/customer/HomeScreen.tsx:99 | recent jobs are the first min(3, n) jobs in order |
| Home.RequestService | src/screens/customer/HomeScreen.tsx:57-63 | `handleCreateJob`'s route choice as a returned navigation request; stated by RequestServiceTargets |
| Home.RequestServiceTargets | src/screens/customer/HomeScreen.tsx:55-63 | "Request a Service" goes to CreateJob with the category iff one is selected, otherwise to SelectService; none is selected initially |
| Home.RequestServiceIsRegistered | src/screens/customer/HomeScreen.tsx:57-63 | for a signed-in user both targets are registered on the root stack |
| Home.SelectedCategoryReachesJob | src/screens/customer/CreateJobScreen.tsx:105 | a job submitted from the form opened with category c is a pending job in category c |

## Left out

- Job lifecycle transitions (accept, start, complete, rate, cancel): the code does not implement them. Accepting a job only logs to the console in `JobFeedScreenWrapper`.
- React rendering, style sheets, `Input` and `Card`, `App.tsx` provider composition, and the `useAppContext` guard: these are presentation plumbing with no logic to state.
- The `setTimeout` delays and the simulated network waits are not modelled. `FinishLoading` stands for the startup timeout firing, and each submit method stands for the state after the wait.
- The loading flags of the screens (`setLoading`) and `Alert` dialogs: these are presentation state around the waits, and the waits always succeed, so the `catch` branches are unreachable.
- `navigation.navigate` and `goBack` are not modelled as navigation. A route choice is returned as a value, and only Home's route choice is modelled.
- The image picker permission and launch calls: they become an `Option<string>` input, where `None` means refused or cancelled.
- `Date.now()`, `new Date()` and `new Date(formData.preferredDate)` are parameters. `createdAt` and `updatedAt`, which the code reads from two separate `new Date()` calls, get the same value.
- The mock jobs, the mock user and `formatDistance` are not modelled. They are constants and placeholders.
- `JobsStackNavigator`, `MyJobsStackNavigator` and the placeholder screens they hold are not modelled, beyond the tab names that lead to them.
- The descriptions in HomeScreen's `SERVICE_CATEGORIES` are not modelled. The table is only displayed.
- Reference identity: Dafny datatypes are values, so whether a dispatch returns a fresh copy or, in the default branch, the same `state` object is not represented.
- Notification `data?: any` is kept as an optional payload string.
- Login.ValidateLogin: `|password|` counts code points, while JavaScript's `length` counts UTF-16 units. The two differ only for characters outside the Basic Multilingual Plane.
- SignUp.ValidateSignUp: the same code-point count versus UTF-16 length difference as above.
- CreateJob.AfterPick: a pick is taken as atomic; the cap test and the append are separated by two awaits, and the cap is proved only for picks that do not overlap. CreateJob.PicksRespectCap and CreateJob.PhotoBuffer.PickImage inherit this: two overlapping picks starting from two photos could both pass the test in the code.
- JobFeed.MinutesAgo: `Math.floor` of a floating-point quotient is taken as exact integer floor division, which holds for timestamps below 2^53 ms.
- Home.StatusColor: colour tokens stand for the theme's colour values, which are defined in a theme file that is not part of this model.
